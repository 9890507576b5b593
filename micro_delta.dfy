/** The delta part of the microstructure engine: buy and sell volume,
    cumulative delta and the count of repeated prints, per symbol. */
module MicroDelta {
  import opened Common

  datatype DeltaState = DeltaState(buy: real, sell: real, cumulative: real, zeroPrints: nat, lastPrice: real)

  function NewDeltaState(): (st: DeltaState)
    ensures st.buy == 0.0 && st.sell == 0.0 && st.cumulative == 0.0 && st.zeroPrints == 0 && st.lastPrice == 0.0
  {
    DeltaState(0.0, 0.0, 0.0, 0, 0.0)
  }

  /** `float(price or last or 0.0)` */
  function TradePrice(p: Payload): (r: Option<real>)
    ensures Truthy(Get(p, "price")) ==> r == ToReal(Get(p, "price"))
    ensures !Truthy(Get(p, "price")) && Truthy(Get(p, "last")) ==> r == ToReal(Get(p, "last"))
    ensures !Truthy(Get(p, "price")) && !Truthy(Get(p, "last")) ==> r == Some(0.0)
  {
    ToReal(Or(Or(Get(p, "price"), Get(p, "last")), Num(0.0)))
  }

  /** `float(size, else qty, else 0.0, or 0.0)` */
  function TradeSize(p: Payload): (r: Option<real>)
    ensures "size" !in p && "qty" !in p ==> r == Some(0.0)
    ensures "size" in p ==> r == ToRealOrZero(p["size"])
    ensures "size" !in p && "qty" in p ==> r == ToRealOrZero(p["qty"])
  {
    ToRealOrZero(GetOr(p, "size", GetOr(p, "qty", Num(0.0))))
  }

  /** `side or aggressor` */
  function TradeSide(p: Payload): Value
  {
    Or(Get(p, "side"), Get(p, "aggressor"))
  }

  predicate IsBuy(side: Value) { side == Str("buy") || side == Str("B") }
  predicate IsSell(side: Value) { side == Str("sell") || side == Str("S") }

  /** The record after the zero-print check and the last-price update. */
  function Printed(st: DeltaState, price: real): DeltaState
  {
    st.(zeroPrints := if st.lastPrice != 0.0 && price == st.lastPrice then st.zeroPrints + 1 else st.zeroPrints,
        lastPrice := price)
  }

  /** `on_trade` on one symbol's record. A failed conversion raises before
      the record is touched; a `mid` that is neither `None` nor a number
      makes the comparison raise after the print was counted. */
  function OnTrade(st: DeltaState, p: Payload): (r: Outcome<DeltaState>)
    ensures TradePrice(p).None? || TradeSize(p).None? ==> r == Raised(st)
    ensures r.Ok? ==> r.value.cumulative == r.value.buy - r.value.sell
    ensures r.Ok? ==> r.value.lastPrice == TradePrice(p).value
  {
    match (TradePrice(p), TradeSize(p))
    case (Some(price), Some(size)) =>
      var st1 := Printed(st, price);
      var side := TradeSide(p);
      var booked :=
        if IsBuy(side) then Some(st1.(buy := st1.buy + size))
        else if IsSell(side) then Some(st1.(sell := st1.sell + size))
        else match Get(p, "mid")
          case Null => Some(st1)
          case Num(mid) => Some(if price >= mid then st1.(buy := st1.buy + size) else st1.(sell := st1.sell + size))
          case _ => None;
      (match booked
       case Some(b) => Ok(b.(cumulative := b.buy - b.sell))
       case None => Raised(st1))
    case _ => Raised(st)
  }

  /** The side decides which counter grows: buy/B and sell/S directly,
      otherwise the price against the mid, and nothing without a mid. */
  lemma {:induction false} OnTradeBooking(st: DeltaState, p: Payload)
    requires OnTrade(st, p).Ok?
    ensures var r, size, price := OnTrade(st, p).value, TradeSize(p).value, TradePrice(p).value;
            var side, mid := TradeSide(p), Get(p, "mid");
            && (IsBuy(side) ==> r.buy == st.buy + size && r.sell == st.sell)
            && (IsSell(side) ==> r.sell == st.sell + size && r.buy == st.buy)
            && (!IsBuy(side) && !IsSell(side) && mid.Num? && price >= mid.n ==> r.buy == st.buy + size && r.sell == st.sell)
            && (!IsBuy(side) && !IsSell(side) && mid.Num? && price < mid.n ==> r.sell == st.sell + size && r.buy == st.buy)
            && (!IsBuy(side) && !IsSell(side) && mid == Null ==> r.buy == st.buy && r.sell == st.sell)
  {
  }

  /** A repeated print is counted iff the previous price was non-zero and
      equals the new one; the count is updated even when booking raises. */
  lemma {:induction false} ZeroPrintCounting(st: DeltaState, p: Payload)
    requires TradePrice(p).Some? && TradeSize(p).Some?
    ensures var r := match OnTrade(st, p) case Ok(x) => x case Raised(x) => x;
            && (r.zeroPrints == st.zeroPrints + 1 <==> st.lastPrice != 0.0 && TradePrice(p).value == st.lastPrice)
            && (r.zeroPrints == st.zeroPrints || r.zeroPrints == st.zeroPrints + 1)
            && r.lastPrice == TradePrice(p).value
  {
  }

  class Engine {
    var state: map<string, DeltaState>

    constructor ()
      ensures state == map[]
    {
      state := map[];
    }

    function StateOf(sym: string): DeltaState
      reads this
    {
      if sym in state then state[sym] else NewDeltaState()
    }

    /** `on_trade`: a new symbol's record is stored only when the handler
      completes; an existing one keeps what was set before a raise. */
    method OnTradeEvent(e: Event) returns (r: Option<DeltaState>)
      modifies this
      ensures r.Some? <==> OnTrade(old(StateOf(e.symbol)), e.payload).Ok?
      ensures r.Some? ==> (r.value == OnTrade(old(StateOf(e.symbol)), e.payload).value &&
                           state == old(state)[e.symbol := r.value])
      ensures r.None? && e.symbol in old(state) ==>
                state == old(state)[e.symbol := OnTrade(old(StateOf(e.symbol)), e.payload).partial]
      ensures r.None? && e.symbol !in old(state) ==> state == old(state)
      ensures state == StoreOutcome(old(state), e.symbol, OnTrade(old(StateOf(e.symbol)), e.payload))
    {
      var o := OnTrade(StateOf(e.symbol), e.payload);
      match o
      case Ok(st) =>
        state := state[e.symbol := st];
        r := Some(st);
      case Raised(st) =>
        if e.symbol in state {
          state := state[e.symbol := st];
        }
        r := None;
    }
  }
}
