/** The volume profile engine: per symbol, the traded volume at each price
    (in the order prices were first traded), its point of control and its
    value area. */
module VolumeProfile {
  import opened Common
  import Sorting

  /** Price to traded volume, in first-traded order. */
  type Histogram = OMap<real, real>

  /** What a `volume_profile_update` event carries. */
  datatype Update = Update(symbol: string, histogram: map<real, real>, poc: real, valueArea: seq<real>, totalVolume: real)

  /** `float(payload.get("price", 0.0))` and `float(payload.get("size", 0.0))`;
      `None` when either conversion raises. */
  function ParseTrade(p: Payload): (r: Option<(real, real)>)
    ensures r.Some? <==> GetOr(p, "price", Num(0.0)).Num? && GetOr(p, "size", Num(0.0)).Num?
    ensures "price" !in p && "size" !in p ==> r == Some((0.0, 0.0))
  {
    match (ToReal(GetOr(p, "price", Num(0.0))), ToReal(GetOr(p, "size", Num(0.0))))
    case (Some(price), Some(size)) => Some((price, size))
    case _ => None
  }

  /** `book[price] = book.get(price, 0.0) + size` */
  function AddTrade(h: Histogram, price: real, size: real): (r: Histogram)
    requires h.Valid()
    ensures r.Valid() && price in r.vals
    ensures r.vals == h.vals[price := (if price in h.vals then h.vals[price] else 0.0) + size]
    ensures price in h.vals ==> r.order == h.order
    ensures price !in h.vals ==> r.order == h.order + [price]
  {
    h.Put(price, (if price in h.vals then h.vals[price] else 0.0) + size)
  }

  /** `sum(book.values())` */
  function TotalVolume(h: Histogram): real
    requires h.Valid()
  {
    Total(h.order, h.vals)
  }

  /** A trade raises the total volume by exactly its size. */
  lemma {:induction false} TotalAfterTrade(h: Histogram, price: real, size: real)
    requires h.Valid()
    ensures TotalVolume(AddTrade(h, price, size)) == TotalVolume(h) + size
  {
    if price in h.vals {
      TotalUpdate(h.order, h.vals, price, h.vals[price] + size);
    } else {
      TotalAppend(h.order, h.vals, price, size);
    }
  }

  /** `max(book, key=lambda p: book[p])`: the index in `keys` of the first
      key with the largest value; later keys only win when strictly larger. */
  function FirstMax(keys: seq<real>, vals: map<real, real>): (i: nat)
    requires keys != []
    requires forall j :: 0 <= j < |keys| ==> keys[j] in vals
    ensures i < |keys|
    ensures forall j :: 0 <= j < |keys| ==> vals[keys[j]] <= vals[keys[i]]
    ensures forall j :: 0 <= j < i ==> vals[keys[j]] < vals[keys[i]]
  {
    if |keys| == 1 then 0
    else
      var i := FirstMax(keys[..|keys| - 1], vals);
      if vals[keys[|keys| - 1]] > vals[keys[i]] then |keys| - 1 else i
  }

  /** The value-area scan from position `i`, when every earlier prefix fell
      short of `target`: the length of the first prefix reaching it, or of
      all of `keys`. */
  function AreaLenFrom(keys: seq<real>, vals: map<real, real>, target: real, i: nat): (n: nat)
    requires forall j :: 0 <= j < |keys| ==> keys[j] in vals
    requires i <= |keys|
    requires forall m :: 1 <= m <= i ==> Total(keys[..m], vals) < target
    ensures i <= n <= |keys| && (keys != [] ==> 1 <= n)
    ensures n < |keys| ==> Total(keys[..n], vals) >= target
    ensures forall m :: 1 <= m < n ==> Total(keys[..m], vals) < target
    decreases |keys| - i
  {
    if i == |keys| then i
    else if Total(keys[..i + 1], vals) >= target then i + 1
    else AreaLenFrom(keys, vals, target, i + 1)
  }

  /** The number of ascending prices in the value area: the shortest
      non-empty prefix whose volume reaches `target`, or every price. */
  function AreaLen(keys: seq<real>, vals: map<real, real>, target: real): (n: nat)
    requires forall j :: 0 <= j < |keys| ==> keys[j] in vals
    ensures keys == [] <==> n == 0
    ensures n <= |keys|
    ensures n < |keys| ==> Total(keys[..n], vals) >= target
    ensures forall m :: 1 <= m < n ==> Total(keys[..m], vals) < target
  {
    AreaLenFrom(keys, vals, target, 0)
  }

  /** The value-area length is the only one meeting its description: the
      first prefix length whose volume reaches the target. */
  lemma {:induction false} AreaLenIs(keys: seq<real>, vals: map<real, real>, target: real, n: nat)
    requires forall j :: 0 <= j < |keys| ==> keys[j] in vals
    requires 1 <= n <= |keys| && Total(keys[..n], vals) >= target
    requires forall m :: 1 <= m < n ==> Total(keys[..m], vals) < target
    ensures AreaLen(keys, vals, target) == n
  {
    AreaLenFromIs(keys, vals, target, 0, n);
  }

  lemma {:induction false} AreaLenFromIs(keys: seq<real>, vals: map<real, real>, target: real, i: nat, n: nat)
    requires forall j :: 0 <= j < |keys| ==> keys[j] in vals
    requires i < n <= |keys| && Total(keys[..n], vals) >= target
    requires forall m :: 1 <= m < n ==> Total(keys[..m], vals) < target
    ensures AreaLenFrom(keys, vals, target, i) == n
    decreases n - i
  {
    if i + 1 < n {
      AreaLenFromIs(keys, vals, target, i + 1, n);
    }
  }

  /** The ascending prices of a histogram. */
  function SortedPrices(h: Histogram): (s: seq<real>)
    requires h.Valid()
    ensures Sorting.IncreasingReals(s) && |s| == |h.order|
    ensures forall p :: p in s <==> p in h.vals
  {
    var s := Sorting.SortReals(h.order);
    assert forall p :: p in s <==> p in multiset(s);
    s
  }

  /** The summary `_emit` publishes for a non-empty histogram. */
  function Summary(sym: string, h: Histogram): (u: Update)
    requires h.Valid() && h.order != []
    ensures u.symbol == sym && u.histogram == h.vals && u.totalVolume == TotalVolume(h)
  {
    var sorted := SortedPrices(h);
    Update(sym, h.vals, h.order[FirstMax(h.order, h.vals)],
           sorted[..AreaLen(sorted, h.vals, 0.7 * TotalVolume(h))], TotalVolume(h))
  }

  /** The point of control is a traded price with the largest volume. */
  lemma {:induction false} PocIsMaximal(sym: string, h: Histogram)
    requires h.Valid() && h.order != []
    ensures Summary(sym, h).poc in h.vals
    ensures forall p :: p in h.vals ==> h.vals[p] <= h.vals[Summary(sym, h).poc]
  {
    var i := FirstMax(h.order, h.vals);
    forall p | p in h.vals ensures h.vals[p] <= h.vals[h.order[i]] {
      var j :| 0 <= j < |h.order| && h.order[j] == p;
    }
  }

  /** The value area is a non-empty ascending run of traded prices. */
  lemma {:induction false} ValueAreaShape(sym: string, h: Histogram)
    requires h.Valid() && h.order != []
    ensures var va := Summary(sym, h).valueArea;
            va != [] && Sorting.IncreasingReals(va) && forall p :: p in va ==> p in h.vals
  {
    var sorted := SortedPrices(h);
    var n := AreaLen(sorted, h.vals, 0.7 * TotalVolume(h));
    assert Summary(sym, h).valueArea == sorted[..n];
    PrefixShape(sorted, n);
  }

  /** A non-empty prefix of an ascending sequence is non-empty, ascending
      and drawn from it. */
  lemma {:induction false} PrefixShape(s: seq<real>, n: nat)
    requires Sorting.IncreasingReals(s) && 1 <= n <= |s|
    ensures s[..n] != [] && Sorting.IncreasingReals(s[..n]) && forall p :: p in s[..n] ==> p in s
  {
    assert forall i :: 0 <= i < n ==> s[..n][i] == s[i];
  }

  /** The point of control is the first-traded of the prices with the
      largest volume. */
  lemma {:induction false} PocIsFirstMaximum(sym: string, h: Histogram)
    requires h.Valid() && h.order != []
    ensures var poc := Summary(sym, h).poc;
            exists i :: 0 <= i < |h.order| && h.order[i] == poc &&
                        forall j :: 0 <= j < i ==> h.vals[h.order[j]] < h.vals[poc]
  {
    var i := FirstMax(h.order, h.vals);
    assert h.order[i] == Summary(sym, h).poc;
  }

  /** The value area is the shortest run of lowest prices whose volume
      reaches 70% of the total (all prices when none does). */
  lemma {:induction false} ValueAreaIsShortestPrefix(sym: string, h: Histogram)
    requires h.Valid() && h.order != []
    ensures var va, sorted, target := Summary(sym, h).valueArea, SortedPrices(h), 0.7 * TotalVolume(h);
            && va == sorted[..|va|]
            && (|va| < |sorted| ==> Total(va, h.vals) >= target)
            && forall m :: 1 <= m < |va| ==> Total(sorted[..m], h.vals) < target
  {
  }

  /** The loop of `_emit`: accumulate the ascending prices' volumes into
      the value area until they reach `target`. */
  method ValueArea(sorted: seq<real>, vals: map<real, real>, target: real) returns (va: seq<real>)
    requires forall j :: 0 <= j < |sorted| ==> sorted[j] in vals
    ensures va == sorted[..AreaLen(sorted, vals, target)]
  {
    var cum := 0.0;
    va := [];
    var i := 0;
    while i < |sorted|
      invariant 0 <= i <= |sorted|
      invariant va == sorted[..i] && cum == Total(va, vals)
      invariant forall m :: 1 <= m <= i ==> Total(sorted[..m], vals) < target
      invariant AreaLenFrom(sorted, vals, target, i) == AreaLen(sorted, vals, target)
    {
      assert sorted[..i + 1] == sorted[..i] + [sorted[i]];
      TotalSnoc(sorted[..i], vals, sorted[i]);
      cum := cum + vals[sorted[i]];
      va := va + [sorted[i]];
      if cum >= target {
        return;
      }
      i := i + 1;
    }
  }

  /** The computation of `_emit` for a non-empty histogram: the point of
      control, the total and the value-area loop. */
  method Summarize(sym: string, book: Histogram) returns (summary: Update)
    requires book.Valid() && book.order != []
    ensures summary == Summary(sym, book)
  {
    var va := ValueArea(SortedPrices(book), book.vals, 0.7 * TotalVolume(book));
    summary := Update(sym, book.vals, book.order[FirstMax(book.order, book.vals)], va, TotalVolume(book));
  }

  class Engine {
    var hist: map<string, Histogram>
    /** Every `volume_profile_update` published, in order. */
    var published: seq<Update>

    ghost predicate Valid()
      reads this
    {
      forall s :: s in hist ==> hist[s].Valid()
    }

    constructor ()
      ensures Valid() && hist == map[] && published == []
    {
      hist := map[];
      published := [];
    }

    function HistogramOf(sym: string): (h: Histogram)
      reads this
      requires Valid()
      ensures h.Valid()
    {
      if sym in hist then hist[sym] else EmptyOMap()
    }

    /** `_emit`: nothing for an empty histogram, otherwise the point of
      control, the total and the value area. */
    method Emit(sym: string) returns (u: Option<Update>)
      requires Valid()
      modifies this
      ensures Valid() && hist == old(hist)
      ensures old(HistogramOf(sym)).order == [] ==> u.None? && published == old(published)
      ensures old(HistogramOf(sym)).order != [] ==>
                u == Some(Summary(sym, old(HistogramOf(sym)))) && published == old(published) + [u.value]
    {
      var book := HistogramOf(sym);
      if book.order == [] {
        return None;
      }
      var summary := Summarize(sym, book);
      Publish(summary);
      u := Some(summary);
    }

    method Publish(summary: Update)
      modifies this
      ensures hist == old(hist) && published == old(published) + [summary]
    {
      published := published + [summary];
    }

    /** `on_trade`: a trade whose price or size does not convert changes
      nothing and emits nothing; otherwise its size is added at its price
      and the symbol's profile is published. */
    method OnTrade(e: Event) returns (u: Option<Update>)
      requires Valid()
      modifies this
      ensures Valid()
      ensures ParseTrade(e.payload).None? ==> u.None? && hist == old(hist) && published == old(published)
      ensures ParseTrade(e.payload).Some? ==>
                var (price, size) := ParseTrade(e.payload).value;
                && hist == old(hist)[e.symbol := AddTrade(old(HistogramOf(e.symbol)), price, size)]
                && u == Some(Summary(e.symbol, hist[e.symbol]))
                && published == old(published) + [u.value]
    {
      var t := ParseTrade(e.payload);
      if t.None? {
        return None;
      }
      var (price, size) := t.value;
      hist := hist[e.symbol := AddTrade(HistogramOf(e.symbol), price, size)];
      u := Emit(e.symbol);
    }
  }

  /** A histogram with one traded price: it is the point of control and the
      whole value area, and its volume is the total. */
  lemma {:induction false} SingleLevelSummary(sym: string, h: Histogram)
    requires h.Valid() && |h.order| == 1
    ensures var u := Summary(sym, h);
            u.poc == h.order[0] && u.valueArea == [h.order[0]] && u.totalVolume == h.vals[h.order[0]]
  {
    var x := h.order[0];
    var sorted := SortedPrices(h);
    assert sorted == [x];
    assert TotalVolume(h) == h.vals[x] + Total([], h.vals) by {
      assert h.order == [] + [x];
    }
  }

  /** A single trade at 100 of size 10 makes 100 the point of control. */
  method SingleTradeScenario() returns (u: Option<Update>)
    ensures u.Some? && u.value.poc == 100.0 && u.value.totalVolume == 10.0 && u.value.valueArea == [100.0]
  {
    var eng := new Engine();
    u := eng.OnTrade(Event("trade", 0.0, "test", "ES", map["price" := Num(100.0), "size" := Num(10.0)]));
    SingleLevelSummary("ES", eng.hist["ES"]);
  }

  /** The value area need not hold the point of control: volumes 10, 10, 10
      and 11 at four ascending prices reach 70% of 41 at the third price,
      while the largest volume is at the fourth. */
  lemma {:induction false} PocOutsideValueArea(keys: seq<real>, vals: map<real, real>)
    requires OMap(keys, vals).Valid() && Sorting.IncreasingReals(keys) && |keys| == 4
    requires vals[keys[0]] == 10.0 && vals[keys[1]] == 10.0 && vals[keys[2]] == 10.0 && vals[keys[3]] == 11.0
    ensures Summary("ES", OMap(keys, vals)).poc == keys[3]
    ensures Summary("ES", OMap(keys, vals)).valueArea == keys[..3]
    ensures keys[3] !in Summary("ES", OMap(keys, vals)).valueArea
  {
    ExampleTotals(keys, vals);
    ExamplePoc(keys, vals);
    ExampleSorted(keys, vals);
    forall m | 1 <= m < 3 ensures Total(keys[..m], vals) < 0.7 * 41.0 {
      assert m == 1 || m == 2;
    }
    AreaLenIs(keys, vals, 0.7 * 41.0, 3);
    assert TotalVolume(OMap(keys, vals)) == 41.0;
  }

  lemma {:induction false} ExamplePoc(keys: seq<real>, vals: map<real, real>)
    requires |keys| == 4 && forall j :: 0 <= j < 4 ==> keys[j] in vals
    requires vals[keys[0]] == 10.0 && vals[keys[1]] == 10.0 && vals[keys[2]] == 10.0 && vals[keys[3]] == 11.0
    ensures FirstMax(keys, vals) == 3
  {
    var i := FirstMax(keys, vals);
    assert vals[keys[3]] <= vals[keys[i]];
  }

  lemma {:induction false} ExampleSorted(keys: seq<real>, vals: map<real, real>)
    requires OMap(keys, vals).Valid() && Sorting.IncreasingReals(keys)
    ensures SortedPrices(OMap(keys, vals)) == keys
  {
    var sorted := SortedPrices(OMap(keys, vals));
    assert multiset(sorted) == multiset(keys);
    Sorting.IncreasingUnique(sorted, keys);
  }

  /** The running volumes of the example, from the lowest price up. */
  lemma {:induction false} ExampleTotals(k: seq<real>, v: map<real, real>)
    requires |k| == 4 && forall j :: 0 <= j < 4 ==> k[j] in v
    requires v[k[0]] == 10.0 && v[k[1]] == 10.0 && v[k[2]] == 10.0 && v[k[3]] == 11.0
    ensures Total(k[..1], v) == 10.0
    ensures Total(k[..2], v) == 20.0
    ensures Total(k[..3], v) == 30.0
    ensures Total(k, v) == 41.0
  {
    assert k[..1] == [] + [k[0]];
    TotalSnoc([], v, k[0]);
    assert k[..2] == k[..1] + [k[1]];
    TotalSnoc(k[..1], v, k[1]);
    assert k[..3] == k[..2] + [k[2]];
    TotalSnoc(k[..2], v, k[2]);
    assert k == k[..3] + [k[3]];
    TotalSnoc(k[..3], v, k[3]);
  }
}
