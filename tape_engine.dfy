/** The tape engine: a bounded time-and-sales window per symbol. */
module TapeEngine {
  import opened Common

  /** The record a trade leaves on the tape: timestamp, price, size and
      aggressor ("unknown" when absent); a missing price or size is `Null`. */
  function Record(e: Event): (r: Payload)
    ensures r.Keys == {"ts", "price", "size", "aggressor"}
    ensures r["ts"] == Num(e.ts)
    ensures r["price"] == Get(e.payload, "price") && r["size"] == Get(e.payload, "size")
    ensures "aggressor" !in e.payload ==> r["aggressor"] == Str("unknown")
  {
    map["ts" := Num(e.ts), "price" := Get(e.payload, "price"), "size" := Get(e.payload, "size"),
        "aggressor" := GetOr(e.payload, "aggressor", Str("unknown"))]
  }

  function Records(es: seq<Event>): (rs: seq<Payload>)
    ensures |rs| == |es|
    ensures forall i :: 0 <= i < |es| ==> rs[i] == Record(es[i])
  {
    if es == [] then [] else Records(es[..|es| - 1]) + [Record(es[|es| - 1])]
  }

  /** `deque(maxlen=cap)` after appending `xs` in order to an empty one. */
  function Bounded<T>(xs: seq<T>, cap: nat): seq<T>
  {
    if xs == [] then [] else Push(Bounded(xs[..|xs| - 1], cap), xs[|xs| - 1], cap)
  }

  /** A bounded deque holds `min(|xs|, cap)` items. */
  lemma {:induction false} BoundedLength<T>(xs: seq<T>, cap: nat)
    ensures |Bounded(xs, cap)| == if |xs| <= cap then |xs| else cap
  {
    if xs != [] {
      BoundedLength(xs[..|xs| - 1], cap);
    }
  }

  /** A bounded deque holds the last `min(|xs|, cap)` items, oldest first. */
  lemma {:induction false} BoundedIsSuffix<T>(xs: seq<T>, cap: nat)
    ensures |Bounded(xs, cap)| == if |xs| <= cap then |xs| else cap
    ensures Bounded(xs, cap) == xs[|xs| - |Bounded(xs, cap)|..]
  {
    BoundedLength(xs, cap);
    if xs != [] {
      var init, x := xs[..|xs| - 1], xs[|xs| - 1];
      BoundedIsSuffix(init, cap);
      var w := Bounded(init, cap);
      var k := |init| - |w|;
      assert xs == init + [x];
      assert w + [x] == xs[k..];
      var b := Bounded(xs, cap);
      assert b == Push(w, x, cap);
      var j := |w| + 1 - |b|;
      assert b == (w + [x])[j..];
      assert xs[k..][j..] == xs[k + j..];
    }
  }

  /** The window after the trades `es` of one symbol, oldest first. */
  function Window(es: seq<Event>, cap: nat): seq<Payload>
  {
    Bounded(Records(es), cap)
  }

  /** The window holds the last `min(|es|, cap)` records, oldest first: it
      never exceeds the cap and drops the oldest record first. */
  lemma {:induction false} WindowIsSuffix(es: seq<Event>, cap: nat)
    ensures |Window(es, cap)| == if |es| <= cap then |es| else cap
    ensures Window(es, cap) == Records(es)[|es| - |Window(es, cap)|..]
  {
    var rs := Records(es);
    BoundedIsSuffix(rs, cap);
    var n := |rs| - |Bounded(rs, cap)|;
    assert n == |es| - |Window(es, cap)|;
    assert Window(es, cap) == rs[n..];
  }

  lemma {:induction false} WindowStep(es: seq<Event>, i: nat, cap: nat)
    requires i < |es|
    ensures Window(es[..i + 1], cap) == Push(Window(es[..i], cap), Record(es[i]), cap)
  {
    assert es[..i + 1][..i] == es[..i];
    var rs := Records(es[..i + 1]);
    assert rs == Records(es[..i]) + [Record(es[i])];
    assert rs[..|rs| - 1] == Records(es[..i]);
  }

  class Engine {
    const maxEvents: nat
    var tape: map<string, seq<Payload>>

    constructor (maxEvents: nat)
      ensures this.maxEvents == maxEvents && tape == map[]
    {
      this.maxEvents := maxEvents;
      tape := map[];
    }

    function WindowOf(sym: string): seq<Payload>
      reads this
    {
      if sym in tape then tape[sym] else []
    }

    /** `on_trade`: one record is appended to the symbol's window; when the
      window is full the oldest record is dropped. */
    method OnTrade(e: Event)
      modifies this
      ensures tape == old(tape)[e.symbol := Push(old(WindowOf(e.symbol)), Record(e), maxEvents)]
    {
      tape := tape[e.symbol := Push(WindowOf(e.symbol), Record(e), maxEvents)];
    }

    /** `snapshot(symbol)`: the window, oldest first; empty for an unseen
      symbol. Nothing changes. */
    method SnapshotOf(symbol: string) returns (records: seq<Payload>)
      ensures records == WindowOf(symbol)
      ensures symbol !in tape ==> records == []
    {
      records := WindowOf(symbol);
    }

    /** Feeding the trades of one new symbol leaves exactly `Window` on its
      tape and the other symbols' windows as they were. */
    method Feed(es: seq<Event>, sym: string)
      requires sym !in tape
      requires forall i :: 0 <= i < |es| ==> es[i].symbol == sym
      modifies this
      ensures WindowOf(sym) == Window(es, maxEvents)
      ensures forall s :: s in old(tape) ==> s in tape && tape[s] == old(tape)[s]
    {
      var i := 0;
      while i < |es|
        invariant 0 <= i <= |es|
        invariant WindowOf(sym) == Window(es[..i], maxEvents)
        invariant forall s :: s in old(tape) ==> s in tape && tape[s] == old(tape)[s]
      {
        WindowStep(es, i, maxEvents);
        OnTrade(es[i]);
        i := i + 1;
      }
      assert es[..|es|] == es;
    }
  }

  /** With room for two records, two trades give a two-record snapshot. */
  method TwoTradeScenario() returns (records: seq<Payload>)
    ensures |records| == 2
    ensures "price" in records[0] && "price" in records[1] && "aggressor" in records[1]
    ensures records[0]["price"] == Num(1.0) && records[1]["price"] == Num(2.0)
    ensures records[1]["aggressor"] == Str("unknown")
  {
    var eng := new Engine(2);
    eng.OnTrade(Event("trade", 0.0, "test", "ES", map["price" := Num(1.0), "size" := Num(1.0)]));
    eng.OnTrade(Event("trade", 1.0, "test", "ES", map["price" := Num(2.0), "size" := Num(2.0)]));
    records := eng.SnapshotOf("ES");
  }
}
