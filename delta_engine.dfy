/** The delta engine: per-symbol buy, sell and total volume accumulated from
    trade events, plus the last traded price. */
module DeltaEngine {
  import opened Common
  import opened State

  /** The three fields a trade handler reads. */
  datatype Trade = Trade(price: real, size: real, aggressor: Value)

  /** `float(payload.get("price", 0.0))`, `float(payload.get("size", 0.0))`
      and `payload.get("aggressor", "unknown")`: `None` when either
      conversion would raise. */
  function ParseTrade(p: Payload): (r: Option<Trade>)
    ensures r.Some? <==> GetOr(p, "price", Num(0.0)).Num? && GetOr(p, "size", Num(0.0)).Num?
    ensures r.Some? ==> r.value.aggressor == GetOr(p, "aggressor", Str("unknown"))
    ensures r.Some? && "price" !in p ==> r.value.price == 0.0
    ensures r.Some? && "size" !in p ==> r.value.size == 0.0
  {
    match (ToReal(GetOr(p, "price", Num(0.0))), ToReal(GetOr(p, "size", Num(0.0))))
    case (Some(price), Some(size)) => Some(Trade(price, size, GetOr(p, "aggressor", Str("unknown"))))
    case _ => None
  }

  /** The counters after one trade. */
  function AddTrade(bar: DeltaBar, t: Trade): DeltaBar
  {
    DeltaBar(
      if t.aggressor == Str("buy") then bar.buys + t.size else bar.buys,
      if t.aggressor == Str("sell") then bar.sells + t.size else bar.sells,
      bar.volume + t.size)
  }

  /** `on_trade` on the symbol's state once the fields are read. */
  function OnTradeState(st: SymbolState, t: Trade): SymbolState
  {
    st.(deltaBar := AddTrade(st.deltaBar, t), lastPrice := Some(t.price))
  }

  /** Every trade adds its size to the volume and sets the last price; only
      the side named by the aggressor grows, and nothing else changes. */
  lemma {:induction false} TradeEffect(st: SymbolState, t: Trade)
    ensures OnTradeState(st, t).deltaBar.volume == st.deltaBar.volume + t.size
    ensures OnTradeState(st, t).lastPrice == Some(t.price)
    ensures t.aggressor == Str("buy") ==> OnTradeState(st, t).deltaBar.buys == st.deltaBar.buys + t.size
    ensures t.aggressor != Str("buy") ==> OnTradeState(st, t).deltaBar.buys == st.deltaBar.buys
    ensures t.aggressor == Str("sell") ==> OnTradeState(st, t).deltaBar.sells == st.deltaBar.sells + t.size
    ensures t.aggressor != Str("sell") ==> OnTradeState(st, t).deltaBar.sells == st.deltaBar.sells
    ensures OnTradeState(st, t).dom == st.dom && OnTradeState(st, t).tape == st.tape
  {
  }

  /** Buys and sells never exceed the volume. */
  predicate Balanced(bar: DeltaBar)
  {
    bar.buys + bar.sells <= bar.volume
  }

  /** A trade of non-negative size keeps the counters balanced. */
  lemma {:induction false} TradeKeepsBalance(bar: DeltaBar, t: Trade)
    requires Balanced(bar) && t.size >= 0.0
    ensures Balanced(AddTrade(bar, t))
  {
  }

  function AddTrades(bar: DeltaBar, ts: seq<Trade>): DeltaBar
    decreases |ts|
  {
    if ts == [] then bar else AddTrades(AddTrade(bar, ts[0]), ts[1..])
  }

  /** From a balanced bar, any run of non-negative trades keeps it balanced
      and never lowers the volume. */
  lemma {:induction false} TradesKeepBalance(bar: DeltaBar, ts: seq<Trade>)
    requires Balanced(bar)
    requires forall i :: 0 <= i < |ts| ==> ts[i].size >= 0.0
    ensures Balanced(AddTrades(bar, ts))
    ensures AddTrades(bar, ts).volume >= bar.volume
    decreases |ts|
  {
    if ts != [] {
      TradeKeepsBalance(bar, ts[0]);
      TradesKeepBalance(AddTrade(bar, ts[0]), ts[1..]);
    }
  }

  /** The `delta_bar` payload: the counters and the last price (`None` is
      `Null`). */
  function DeltaPayload(st: SymbolState): Payload
  {
    map["buys" := Num(st.deltaBar.buys), "sells" := Num(st.deltaBar.sells),
        "volume" := Num(st.deltaBar.volume),
        "last_price" := match st.lastPrice case Some(x) => Num(x) case None => Null]
  }

  class Engine {
    var state: map<string, SymbolState>

    constructor ()
      ensures state == map[]
    {
      state := map[];
    }

    function StateOf(sym: string): SymbolState
      reads this
    {
      if sym in state then state[sym] else NewSymbolState()
    }

    /** `on_trade`: the symbol's state is created first; `ok` is false when
      price or size cannot be converted, and then nothing else changes. */
    method OnTrade(e: Event) returns (ok: bool)
      modifies this
      ensures ok <==> ParseTrade(e.payload).Some?
      ensures ok ==> state == old(state)[e.symbol := OnTradeState(old(StateOf(e.symbol)), ParseTrade(e.payload).value)]
      ensures !ok ==> state == old(state)[e.symbol := old(StateOf(e.symbol))]
    {
      var st := StateOf(e.symbol);
      state := state[e.symbol := st];
      var t := ParseTrade(e.payload);
      if t.None? {
        return false;
      }
      state := state[e.symbol := OnTradeState(st, t.value)];
      ok := true;
    }

    /** `emit_delta(symbol)` at wall-clock time `now`: reports the counters
      and leaves them as they were (the symbol's state is created if new). */
    method EmitDelta(symbol: string, now: real) returns (evt: Event)
      modifies this
      ensures state == old(state)[symbol := old(StateOf(symbol))]
      ensures evt == Event("delta_bar", now, "delta_engine", symbol, DeltaPayload(old(StateOf(symbol))))
    {
      var st := StateOf(symbol);
      state := state[symbol := st];
      evt := Event("delta_bar", now, "delta_engine", symbol, DeltaPayload(st));
    }
  }

  /** A buy of 10 then a sell of 5 on one symbol. */
  method BuySellScenario() returns (buys: real, sells: real, volume: real)
    ensures buys == 10.0 && sells == 5.0 && volume == 15.0
  {
    var eng := new Engine();
    var ok := eng.OnTrade(Event("trade", 0.0, "test", "ES",
      map["price" := Num(100.0), "size" := Num(10.0), "aggressor" := Str("buy")]));
    ok := eng.OnTrade(Event("trade", 1.0, "test", "ES",
      map["price" := Num(100.25), "size" := Num(5.0), "aggressor" := Str("sell")]));
    var bar := eng.StateOf("ES").deltaBar;
    buys, sells, volume := bar.buys, bar.sells, bar.volume;
  }
}
