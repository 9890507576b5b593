/** The iceberg detector: per symbol and price, a count of qualifying
    trades; an alert each time the count reaches the minimum, after which it
    starts again from zero. */
module Iceberg {
  import opened Common

  /** The payload of an `iceberg` alert. */
  datatype Alert = Alert(symbol: string, price: real, size: real, repeats: int)

  /** The price and size of a qualifying trade: `None` without a price, when
      a conversion raises, or when the size is below the minimum. */
  function Qualifying(p: Payload, minSize: real): (r: Option<(real, real)>)
    ensures Get(p, "price") == Null ==> r.None?
    ensures r.Some? ==>
              && ToReal(Get(p, "price")) == Some(r.value.0)
              && ToReal(GetOr(p, "size", Num(0.0))) == Some(r.value.1)
              && r.value.1 >= minSize
    ensures r.None? && Get(p, "price") != Null && ToReal(Get(p, "price")).Some? && ToReal(GetOr(p, "size", Num(0.0))).Some? ==>
              ToReal(GetOr(p, "size", Num(0.0))).value < minSize
  {
    var price := Get(p, "price");
    if price == Null then None
    else
      match (ToReal(price), ToReal(GetOr(p, "size", Num(0.0))))
      case (Some(pr), Some(s)) => if s < minSize then None else Some((pr, s))
      case _ => None
  }

  /** One count step: the count after the trade, and the repeat count the
      alert reports when it fires. */
  function Count(before: int, minRepeats: int): (r: (int, Option<int>))
    ensures r.1.Some? <==> before + 1 >= minRepeats
    ensures r.1.Some? ==> r.1.value == before + 1 && r.0 == 0
    ensures r.1.None? ==> r.0 == before + 1
  {
    if before + 1 >= minRepeats then (0, Some(before + 1)) else (before + 1, None)
  }

  class Detector {
    /** Defaults in the source: 3 repeats, size 5. */
    const minRepeats: int
    const minSize: real
    var repeats: map<string, map<real, int>>
    /** Every alert published, in order. */
    var published: seq<Alert>

    /** Every stored count is either zero or still short of the minimum. */
    ghost predicate Valid()
      reads this
    {
      forall s, p :: s in repeats && p in repeats[s] ==> 0 <= repeats[s][p] && (repeats[s][p] == 0 || repeats[s][p] < minRepeats)
    }

    constructor (minRepeats: int, minSize: real)
      ensures this.minRepeats == minRepeats && this.minSize == minSize
      ensures repeats == map[] && published == [] && Valid()
    {
      this.minRepeats := minRepeats;
      this.minSize := minSize;
      repeats := map[];
      published := [];
    }

    function BookOf(sym: string): map<real, int>
      reads this
    {
      if sym in repeats then repeats[sym] else map[]
    }

    function CountAt(sym: string, p: real): int
      reads this
    {
      if p in BookOf(sym) then BookOf(sym)[p] else 0
    }

    /** `on_trade`: a qualifying trade adds one to its price's count; on
      reaching the minimum the alert reports the count and the count is
      reset. Other prices and symbols keep their counts. */
    method OnTrade(e: Event) returns (a: Option<Alert>)
      requires Valid()
      modifies this
      ensures Valid()
      ensures Qualifying(e.payload, minSize).None? ==> a.None? && repeats == old(repeats)
      ensures Qualifying(e.payload, minSize).Some? ==>
                var (p, s) := Qualifying(e.payload, minSize).value;
                var (after, fired) := Count(old(CountAt(e.symbol, p)), minRepeats);
                && repeats == old(repeats)[e.symbol := old(BookOf(e.symbol))[p := after]]
                && a == (if fired.Some? then Some(Alert(e.symbol, p, s, fired.value)) else None)
      ensures published == old(published) + Emitted(a)
    {
      var q := Qualifying(e.payload, minSize);
      if q.None? {
        return None;
      }
      var (p, s) := q.value;
      var (after, fired) := Count(CountAt(e.symbol, p), minRepeats);
      repeats := repeats[e.symbol := BookOf(e.symbol)[p := after]];
      a := if fired.Some? then Some(Alert(e.symbol, p, s, fired.value)) else None;
      published := published + Emitted(a);
    }
  }

  /** The count and the number of alerts after `n` qualifying trades at one
      price, starting from no count. */
  function Run(n: nat, minRepeats: int): (int, nat)
  {
    if n == 0 then (0, 0)
    else
      var (c, fires) := Run(n - 1, minRepeats);
      var (after, fired) := Count(c, minRepeats);
      (after, fires + if fired.Some? then 1 else 0)
  }

  /** With a positive minimum, one alert fires per `minRepeats` qualifying
      trades at a price and the count is what is left over. */
  lemma {:induction false} AlertEveryMinRepeats(n: nat, minRepeats: int)
    requires minRepeats >= 1
    ensures Run(n, minRepeats) == (n % minRepeats, n / minRepeats)
  {
    var q, r := n / minRepeats, n % minRepeats;
    assert n == q * minRepeats + r;
    RunDecomposed(q, r, minRepeats);
  }

  /** `q` full rounds and `r` more trades leave the count at `r` after `q`
      alerts. */
  lemma {:induction false} RunDecomposed(q: nat, r: nat, minRepeats: int)
    requires 0 <= r < minRepeats
    ensures Run(q * minRepeats + r, minRepeats) == (r, q)
    decreases q, r
  {
    if r > 0 {
      RunDecomposed(q, r - 1, minRepeats);
    } else if q > 0 {
      assert q * minRepeats == (q - 1) * minRepeats + (minRepeats - 1) + 1;
      RunDecomposed(q - 1, minRepeats - 1, minRepeats);
    }
  }

  /** Two trades of size 2 at 100 with a minimum of two repeats and a minimum
      size of 1: the first only counts, the second fires with two repeats. */
  method SecondTradeFiresScenario()
  {
    var d := new Detector(2, 1.0);
    var t := Event("trade", 0.0, "test", "ES", map["price" := Num(100.0), "size" := Num(2.0)]);
    var a1 := d.OnTrade(t);
    assert a1.None? && d.CountAt("ES", 100.0) == 1;
    var a2 := d.OnTrade(t);
    assert a2 == Some(Alert("ES", 100.0, 2.0, 2));
    assert d.published == [Alert("ES", 100.0, 2.0, 2)] && d.CountAt("ES", 100.0) == 0;
  }
}
