/** The depth part of the microstructure engine: best bid and ask, their
    sizes, the size imbalance, an own-order queue-position estimate and a
    per-level liquidity map, per symbol. */
module MicroDepth {
  import opened Common

  /** `DepthState`; a price that was never given is `Null`. */
  datatype DepthState = DepthState(
    bid: Value, ask: Value,
    bidSize: real, askSize: real,
    imbalance: real, queuePosition: real,
    liquidityMap: map<string, real>)

  function NewDepthState(): (st: DepthState)
    ensures st.bid == Null && st.ask == Null && st.liquidityMap == map[]
    ensures st.bidSize == 0.0 && st.askSize == 0.0 && st.imbalance == 0.0 && st.queuePosition == 0.0
  {
    DepthState(Null, Null, 0.0, 0.0, 0.0, 0.0, map[])
  }

  /** `(bid_size - ask_size) / denom if denom else 0.0` */
  function Imbalance(bidSize: real, askSize: real): (r: real)
    ensures bidSize + askSize == 0.0 ==> r == 0.0
    ensures bidSize + askSize != 0.0 ==> r * (bidSize + askSize) == bidSize - askSize
  {
    var denom := bidSize + askSize;
    if denom != 0.0 then (bidSize - askSize) / denom else 0.0
  }

  /** For non-negative sizes the imbalance lies in [-1, 1], with the sign of
      the larger side. */
  lemma {:induction false} ImbalanceBounded(bidSize: real, askSize: real)
    requires bidSize >= 0.0 && askSize >= 0.0
    ensures -1.0 <= Imbalance(bidSize, askSize) <= 1.0
    ensures bidSize > askSize ==> Imbalance(bidSize, askSize) > 0.0
    ensures bidSize < askSize ==> Imbalance(bidSize, askSize) < 0.0
  {
    var d := bidSize + askSize;
    if d != 0.0 {
      QuotientBounds(bidSize - askSize, d);
    }
  }

  /** `x / d` for `|x| <= d` lies in [-1, 1] and has the sign of `x`. */
  lemma {:induction false} QuotientBounds(x: real, d: real)
    requires d > 0.0 && -d <= x <= d
    ensures -1.0 <= x / d <= 1.0
    ensures x > 0.0 ==> x / d > 0.0
    ensures x < 0.0 ==> x / d < 0.0
  {
    var q := x / d;
    assert q * d == x;
  }

  /** `_estimate_queue_position`: 0 without an own quantity; otherwise the
      own quantity against the bid size (buy) or ask size (sell), capped at
      1, and 1 when that size is not positive. */
  function QueuePosition(bidSize: real, askSize: real, qty: real): (r: real)
    ensures r <= 1.0
    ensures qty == 0.0 ==> r == 0.0
    ensures qty > 0.0 && bidSize <= 0.0 ==> r == 1.0
    ensures qty < 0.0 && askSize <= 0.0 ==> r == 1.0
    ensures qty > 0.0 && bidSize > 0.0 ==> r == Min(1.0, qty / bidSize)
    ensures qty < 0.0 && askSize > 0.0 ==> r == Min(1.0, qty / askSize)
  {
    if qty == 0.0 then 0.0
    else
      var ref := if qty > 0.0 then bidSize else askSize;
      if ref <= 0.0 then 1.0 else Min(1.0, qty / ref)
  }

  /** A buy order's queue position lies in (0, 1]. */
  lemma {:induction false} BuyQueuePositionInUnit(bidSize: real, askSize: real, qty: real)
    requires qty > 0.0
    ensures 0.0 < QueuePosition(bidSize, askSize, qty) <= 1.0
  {
    if bidSize > 0.0 {
      assert qty / bidSize > 0.0;
    }
  }

  /** The liquidity of one ladder entry: bid plus ask for a dict entry (each
      read as `float(x or 0.0)`), `float(v)` for anything else; `None` when
      a conversion raises and the entry is skipped. */
  function LevelLiquidity(v: Value): (r: Option<real>)
    ensures v.Num? ==> r == Some(v.n)
    ensures !v.Num? && !v.Dict? ==> r.None?
    ensures v.Dict? ==>
              var bid, ask := ToRealOrZero(GetOr(v.fields, "bid", Num(0.0))), ToRealOrZero(GetOr(v.fields, "ask", Num(0.0)));
              && (r.Some? <==> bid.Some? && ask.Some?)
              && (r.Some? ==> r.value == bid.value + ask.value)
    ensures v.Dict? && "bid" !in v.fields && "ask" !in v.fields ==> r == Some(0.0)
  {
    match v
    case Dict(f) =>
      (match (ToRealOrZero(GetOr(f, "bid", Num(0.0))), ToRealOrZero(GetOr(f, "ask", Num(0.0))))
       case (Some(b), Some(a)) => Some(b + a)
       case _ => None)
    case _ => ToReal(v)
  }

  /** The rebuilt liquidity map: the entries whose liquidity can be read. */
  function Normalize(ladder: map<string, Value>): (m: map<string, real>)
    ensures m.Keys <= ladder.Keys
    ensures forall k :: k in ladder && LevelLiquidity(ladder[k]).Some? ==> k in m
    ensures forall k :: k in m ==> Some(m[k]) == LevelLiquidity(ladder[k])
  {
    map k | k in ladder && LevelLiquidity(ladder[k]).Some? :: LevelLiquidity(ladder[k]).value
  }

  /** The loop that rebuilds the liquidity map, one ladder entry at a time. */
  method NormalizeLadder(ladder: map<string, Value>) returns (m: map<string, real>)
    ensures m == Normalize(ladder)
  {
    var todo := ladder.Keys;
    m := map[];
    while todo != {}
      invariant todo <= ladder.Keys
      invariant m == Normalize(map k | k in ladder.Keys - todo :: ladder[k])
      decreases |todo|
    {
      var k :| k in todo;
      var l := LevelLiquidity(ladder[k]);
      if l.Some? {
        m := m[k := l.value];
      }
      todo := todo - {k};
    }
    assert (map k | k in ladder.Keys - todo :: ladder[k]) == ladder;
  }

  /** The fields `on_dom` converts, each `float(... or 0.0)`. */
  datatype DomFields = DomFields(bidSize: real, askSize: real, myOrderQty: real)

  function ParseDom(p: Payload): (r: Option<DomFields>)
    ensures "bid_size" !in p && "bid_qty" !in p && r.Some? ==> r.value.bidSize == 0.0
    ensures "ask_size" !in p && "ask_qty" !in p && r.Some? ==> r.value.askSize == 0.0
    ensures "my_order_qty" !in p && r.Some? ==> r.value.myOrderQty == 0.0
  {
    var bs := ToRealOrZero(GetOr(p, "bid_size", GetOr(p, "bid_qty", Num(0.0))));
    var asz := ToRealOrZero(GetOr(p, "ask_size", GetOr(p, "ask_qty", Num(0.0))));
    var q := ToRealOrZero(GetOr(p, "my_order_qty", Num(0.0)));
    if bs.Some? && asz.Some? && q.Some? then Some(DomFields(bs.value, asz.value, q.value)) else None
  }

  /** The record after its quote fields are set (before the ladder is read). */
  function WithQuote(st: DepthState, p: Payload, f: DomFields): DepthState
  {
    st.(bid := if Get(p, "bid") != Null then Get(p, "bid") else st.bid,
        ask := if Get(p, "ask") != Null then Get(p, "ask") else st.ask,
        bidSize := f.bidSize, askSize := f.askSize,
        imbalance := Imbalance(f.bidSize, f.askSize))
  }

  /** `on_dom` on one symbol's record. A failed size conversion raises
      before the record is touched; a ladder that is not a dict raises after
      the quote fields were set. */
  function OnDom(st: DepthState, p: Payload): (r: Outcome<DepthState>)
    ensures ParseDom(p).None? ==> r == Raised(st)
    ensures r.Ok? <==> ParseDom(p).Some? && GetOr(p, "ladder", Dict(map[])).Dict?
  {
    match ParseDom(p)
    case None => Raised(st)
    case Some(f) =>
      var st1 := WithQuote(st, p, f);
      match GetOr(p, "ladder", Dict(map[]))
      case Dict(ladder) =>
        Ok(st1.(liquidityMap := Normalize(ladder),
                queuePosition := QueuePosition(f.bidSize, f.askSize, f.myOrderQty)))
      case _ => Raised(st1)
  }

  /** A successful update keeps a price that is absent from the payload,
      replaces both sizes, recomputes the imbalance from them, and rebuilds
      the liquidity map from the ladder alone. */
  lemma {:induction false} OnDomEffect(st: DepthState, p: Payload)
    requires OnDom(st, p).Ok?
    ensures var r := OnDom(st, p).value; var f := ParseDom(p).value;
            && ("bid" !in p ==> r.bid == st.bid)
            && ("ask" !in p ==> r.ask == st.ask)
            && ("bid" in p && p["bid"] != Null ==> r.bid == p["bid"])
            && ("ask" in p && p["ask"] != Null ==> r.ask == p["ask"])
            && r.bidSize == f.bidSize && r.askSize == f.askSize
            && r.imbalance == Imbalance(f.bidSize, f.askSize)
            && r.queuePosition == QueuePosition(f.bidSize, f.askSize, f.myOrderQty)
            && r.liquidityMap == Normalize(GetOr(p, "ladder", Dict(map[])).fields)
  {
  }

  /** The record's imbalance stays in [-1, 1] whenever sizes are non-negative. */
  lemma {:induction false} OnDomImbalanceBounded(st: DepthState, p: Payload)
    requires ParseDom(p).Some? && GetOr(p, "ladder", Dict(map[])).Dict?
    requires ParseDom(p).value.bidSize >= 0.0 && ParseDom(p).value.askSize >= 0.0
    ensures OnDom(st, p).Ok? && -1.0 <= OnDom(st, p).value.imbalance <= 1.0
  {
    ImbalanceBounded(ParseDom(p).value.bidSize, ParseDom(p).value.askSize);
  }

  class DepthEngine {
    var state: map<string, DepthState>

    constructor ()
      ensures state == map[]
    {
      state := map[];
    }

    function StateOf(sym: string): DepthState
      reads this
    {
      if sym in state then state[sym] else NewDepthState()
    }

    /** `on_dom`: a new symbol's record is stored only when the handler
      completes; an existing record keeps whatever was set before a raise. */
    method OnDomEvent(e: Event) returns (r: Option<DepthState>)
      modifies this
      ensures r.Some? <==> OnDom(old(StateOf(e.symbol)), e.payload).Ok?
      ensures r.Some? ==> (r.value == OnDom(old(StateOf(e.symbol)), e.payload).value &&
                           state == old(state)[e.symbol := r.value])
      ensures r.None? && e.symbol in old(state) ==>
                state == old(state)[e.symbol := OnDom(old(StateOf(e.symbol)), e.payload).partial]
      ensures r.None? && e.symbol !in old(state) ==> state == old(state)
      ensures state == StoreOutcome(old(state), e.symbol, OnDom(old(StateOf(e.symbol)), e.payload))
    {
      var f := ParseDom(e.payload);
      if f.None? {
        return None;
      }
      var st := WithQuote(StateOf(e.symbol), e.payload, f.value);
      var ladder := GetOr(e.payload, "ladder", Dict(map[]));
      if !ladder.Dict? {
        if e.symbol in state {
          state := state[e.symbol := st];
        }
        return None;
      }
      var liq := NormalizeLadder(ladder.fields);
      st := st.(liquidityMap := liq);
      st := st.(queuePosition := QueuePosition(st.bidSize, st.askSize, f.value.myOrderQty));
      state := state[e.symbol := st];
      r := Some(st);
    }
  }
}
