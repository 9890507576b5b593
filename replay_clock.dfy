/** Replay pacing: events are yielded in their original order, with a sleep
    before each one of the time elapsed since the previous one, scaled by
    the replay speed. The sleeps are returned rather than slept. */
module ReplayClock {
  import opened Common

  /** Speeds are floored here so that the division is always defined. */
  const MinSpeed: real := 0.0001

  function Delay(prevTs: real, ts: real, speed: real): real
  {
    (ts - prevTs) / Max(speed, MinSpeed)
  }

  /** The delay computed before each event after the first. */
  function Delays<T>(events: seq<(real, T)>, speed: real): (ds: seq<real>)
    ensures |ds| == if |events| == 0 then 0 else |events| - 1
  {
    if |events| <= 1 then []
    else Delays(events[..|events| - 1], speed) + [Delay(events[|events| - 2].0, events[|events| - 1].0, speed)]
  }

  /** The delays that are actually slept: the positive ones, in order. */
  function Positive(ds: seq<real>): (r: seq<real>)
    ensures |r| <= |ds|
    ensures forall i :: 0 <= i < |r| ==> r[i] > 0.0
  {
    if ds == [] then []
    else Positive(ds[..|ds| - 1]) + (if ds[|ds| - 1] > 0.0 then [ds[|ds| - 1]] else [])
  }

  /** `paced_events`: what is yielded, and the sleeps taken on the way. */
  method PacedEvents<T>(events: seq<(real, T)>, speed: real) returns (out: seq<T>, sleeps: seq<real>)
    ensures out == Seconds(events)
    ensures sleeps == Positive(Delays(events, speed))
  {
    out := [];
    sleeps := [];
    var prev: Option<real> := None;
    var i := 0;
    while i < |events|
      invariant 0 <= i <= |events|
      invariant out == Seconds(events[..i])
      invariant sleeps == Positive(Delays(events[..i], speed))
      invariant i == 0 <==> prev.None?
      invariant i > 0 ==> prev == Some(events[i - 1].0)
    {
      var (ts, evt) := events[i];
      PacedStep(events, i, speed);
      if prev.Some? {
        var delay := Delay(prev.value, ts, speed);
        PositiveStep(Delays(events[..i], speed), delay);
        if delay > 0.0 {
          sleeps := sleeps + [delay];
        }
      }
      prev := Some(ts);
      out := out + [evt];
      i := i + 1;
    }
    assert events[..i] == events;
  }

  /** One more event extends the values by its own and, after the first,
      the delays by the one since its predecessor. */
  lemma {:induction false} PacedStep<T>(events: seq<(real, T)>, i: nat, speed: real)
    requires i < |events|
    ensures Seconds(events[..i + 1]) == Seconds(events[..i]) + [events[i].1]
    ensures i == 0 ==> Delays(events[..i + 1], speed) == []
    ensures i > 0 ==> Delays(events[..i + 1], speed) == Delays(events[..i], speed) + [Delay(events[i - 1].0, events[i].0, speed)]
  {
    assert events[..i + 1][..i] == events[..i];
  }

  /** Appending one delay appends it to the slept ones exactly when it is
      positive. */
  lemma {:induction false} PositiveStep(ds: seq<real>, d: real)
    ensures Positive(ds + [d]) == Positive(ds) + (if d > 0.0 then [d] else [])
  {
    assert (ds + [d])[..|ds|] == ds;
  }

  lemma {:induction false} DivAdd(a: real, b: real, s: real)
    requires s > 0.0
    ensures a / s + b / s == (a + b) / s
  {
  }

  /** The delays telescope: together they span the first to the last
      timestamp, at the replay speed. */
  lemma {:induction false} DelaysTelescope<T>(events: seq<(real, T)>, speed: real)
    requires |events| >= 1
    ensures Sum(Delays(events, speed)) == (events[|events| - 1].0 - events[0].0) / Max(speed, MinSpeed)
  {
    var s := Max(speed, MinSpeed);
    if |events| > 1 {
      var init := events[..|events| - 1];
      DelaysTelescope(init, speed);
      var ds := Delays(events, speed);
      assert ds[..|ds| - 1] == Delays(init, speed);
      DivAdd(init[|init| - 1].0 - events[0].0, events[|events| - 1].0 - events[|events| - 2].0, s);
    } else {
      assert Delays(events, speed) == [];
    }
  }

  /** Dropping the zero delays does not change the total when none is
      negative. */
  lemma {:induction false} PositiveSum(ds: seq<real>)
    requires forall i :: 0 <= i < |ds| ==> ds[i] >= 0.0
    ensures Sum(Positive(ds)) == Sum(ds)
  {
    if ds != [] {
      var init := ds[..|ds| - 1];
      PositiveSum(init);
      var p := Positive(init);
      if ds[|ds| - 1] > 0.0 {
        assert Positive(ds) == p + [ds[|ds| - 1]];
        assert (p + [ds[|ds| - 1]])[..|p|] == p;
      } else {
        assert Positive(ds) == p;
      }
    }
  }

  /** With timestamps in order, every delay is non-negative. */
  lemma {:induction false} DelaysNonNegative<T>(events: seq<(real, T)>, speed: real)
    requires forall i, j :: 0 <= i < j < |events| ==> events[i].0 <= events[j].0
    ensures forall i :: 0 <= i < |Delays(events, speed)| ==> Delays(events, speed)[i] >= 0.0
  {
    if |events| > 1 {
      DelaysNonNegative(events[..|events| - 1], speed);
      var s := Max(speed, MinSpeed);
      var d := events[|events| - 1].0 - events[|events| - 2].0;
      assert d >= 0.0;
      assert d / s >= 0.0;
    }
  }

  /** With timestamps in order, the time slept is the replayed span over the
      speed. */
  lemma {:induction false} SleptSpan<T>(events: seq<(real, T)>, speed: real)
    requires |events| >= 1
    requires forall i, j :: 0 <= i < j < |events| ==> events[i].0 <= events[j].0
    ensures Sum(Positive(Delays(events, speed))) == (events[|events| - 1].0 - events[0].0) / Max(speed, MinSpeed)
  {
    DelaysNonNegative(events, speed);
    PositiveSum(Delays(events, speed));
    DelaysTelescope(events, speed);
  }

  /** Events at 0, 1 and 3 seconds, replayed at double speed, sleep 1.5
      seconds in all. */
  lemma {:induction false} ZeroOneThreeAtDoubleSpeed<T>(events: seq<(real, T)>)
    requires |events| == 3 && events[0].0 == 0.0 && events[1].0 == 1.0 && events[2].0 == 3.0
    ensures Sum(Positive(Delays(events, 2.0))) == 1.5
  {
    SleptSpan(events, 2.0);
  }

  /** Timestamps 0, 1 and 3 at double speed: the three events come out in
      order after sleeps totalling 1.5 seconds. */
  method DoubleSpeedScenario(a: string, b: string, c: string)
  {
    var events := [(0.0, a), (1.0, b), (3.0, c)];
    ZeroOneThreeAtDoubleSpeed(events);
    var out, sleeps := PacedEvents(events, 2.0);
    assert Sum(sleeps) == 1.5;
    assert |out| == 3 && out[0] == a && out[1] == b && out[2] == c;
  }
}
