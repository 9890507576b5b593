/** Normalisation of Interactive Brokers callbacks into bus events: the IB
    side and operation codes, the mid and spread of a quote, the normalised
    records, and one builder per event kind. Every event built here carries
    source "ibkr". Timestamps are epoch seconds; where the source reads the
    wall clock for a missing time, the clock reading is the parameter `now`. */
module IbkrEvents {
  import opened Common
  import DomEngine
  import DeltaEngine
  import State

  /** The fixed source value of every event built here. */
  const Source: string := "ibkr"

  datatype EventKind = TickKind | TradeKind | DomDeltaKind | DomSnapshotKind

  /** The kind's wire value, the event type of the built event. */
  function KindValue(k: EventKind): (v: string)
    ensures k == TickKind <==> v == "tick"
    ensures k == TradeKind <==> v == "trade"
    ensures k == DomDeltaKind <==> v == "dom_delta"
    ensures k == DomSnapshotKind <==> v == "dom_snapshot"
  {
    match k
    case TickKind => "tick"
    case TradeKind => "trade"
    case DomDeltaKind => "dom_delta"
    case DomSnapshotKind => "dom_snapshot"
  }

  datatype DomSide = Bid | Ask

  function SideValue(s: DomSide): string
  {
    if s == Bid then "bid" else "ask"
  }

  /** `DOMSide.from_ib_side`: IB's code 1 is the bid; every other code,
      0 included, is read as the ask. */
  function FromIbSide(side: int): (s: DomSide)
    ensures s == Bid <==> side == 1
  {
    if side == 1 then Bid else Ask
  }

  /** IB's own code for a side (0 = ask, 1 = bid). */
  function IbSideCode(s: DomSide): (c: int)
    ensures c == 0 || c == 1
  {
    if s == Bid then 1 else 0
  }

  datatype DomOperation = Insert | Update | Delete

  function OperationValue(op: DomOperation): string
  {
    match op
    case Insert => "insert"
    case Update => "update"
    case Delete => "delete"
  }

  /** `DOMOperation.from_ib_op`: 0 inserts, 1 updates, every other code
      deletes. */
  function FromIbOp(op: int): (r: DomOperation)
    ensures r == Insert <==> op == 0
    ensures r == Update <==> op == 1
    ensures r == Delete <==> op != 0 && op != 1
  {
    if op == 0 then Insert
    else if op == 1 then Update
    else Delete
  }

  /** IB's own code for an operation (0 insert, 1 update, 2 delete). */
  function IbOpCode(op: DomOperation): (c: int)
    ensures 0 <= c <= 2
  {
    match op
    case Insert => 0
    case Update => 1
    case Delete => 2
  }

  /** Decoding IB's code for a side or an operation gives back what was
      encoded. */
  lemma {:induction false} IbCodesRoundTrip(s: DomSide, op: DomOperation)
    ensures FromIbSide(IbSideCode(s)) == s
    ensures FromIbOp(IbOpCode(op)) == op
  {
  }

  datatype AggressorSide = BuyAggressor | SellAggressor | UnknownAggressor

  function AggressorValue(a: AggressorSide): string
  {
    match a
    case BuyAggressor => "buy"
    case SellAggressor => "sell"
    case UnknownAggressor => "unknown"
  }

  /** `NormalizedTick.compute_mid`: the point halfway between bid and ask,
      or `None` when either is missing. */
  function ComputeMid(bid: Option<real>, ask: Option<real>): (m: Option<real>)
    ensures m.Some? <==> bid.Some? && ask.Some?
    ensures m.Some? ==> m.value - bid.value == ask.value - m.value
  {
    if bid.None? || ask.None? then None else Some((bid.value + ask.value) / 2.0)
  }

  /** `NormalizedTick.compute_spread`: what the ask adds to the bid, or
      `None` when either is missing. */
  function ComputeSpread(bid: Option<real>, ask: Option<real>): (s: Option<real>)
    ensures s.Some? <==> bid.Some? && ask.Some?
    ensures s.Some? ==> bid.value + s.value == ask.value
  {
    if bid.None? || ask.None? then None else Some(ask.value - bid.value)
  }

  /** Mid and spread agree: the mid sits half a spread above the bid and
      half a spread below the ask, inside the quote when it is not crossed. */
  lemma {:induction false} MidSpreadConsistent(bid: real, ask: real)
    ensures var m, s := ComputeMid(Some(bid), Some(ask)).value, ComputeSpread(Some(bid), Some(ask)).value;
            && m == bid + s / 2.0 && m == ask - s / 2.0
            && (bid <= ask ==> s >= 0.0 && bid <= m <= ask)
  {
  }

  /** A normalised quote or last-trade tick. */
  datatype NormalizedTick = NormalizedTick(
    symbol: string, ts: real,
    bid: Option<real>, ask: Option<real>, bidSize: Option<real>, askSize: Option<real>,
    last: Option<real>, lastSize: Option<real>,
    mid: Option<real>, spread: Option<real>,
    raw: Option<map<string, string>>)

  /** `NormalizedTick.from_bid_ask`: the quote with its mid and spread, no
      last trade. */
  function FromBidAsk(symbol: string, ts: real, bid: Option<real>, ask: Option<real>,
                      bidSize: Option<real>, askSize: Option<real>, raw: Option<map<string, string>>): (t: NormalizedTick)
    ensures t.symbol == symbol && t.ts == ts && t.raw == raw
    ensures t.bid == bid && t.ask == ask && t.bidSize == bidSize && t.askSize == askSize
    ensures t.last.None? && t.lastSize.None?
    ensures t.mid == ComputeMid(bid, ask) && t.spread == ComputeSpread(bid, ask)
  {
    NormalizedTick(symbol, ts, bid, ask, bidSize, askSize, None, None,
                   ComputeMid(bid, ask), ComputeSpread(bid, ask), raw)
  }

  /** `NormalizedTick.from_last`: only the last price and size; no quote,
      no mid and no spread. */
  function FromLast(symbol: string, ts: real, last: real, lastSize: real, raw: Option<map<string, string>>): (t: NormalizedTick)
    ensures t.symbol == symbol && t.ts == ts && t.raw == raw
    ensures t.last == Some(last) && t.lastSize == Some(lastSize)
    ensures t.bid.None? && t.ask.None? && t.bidSize.None? && t.askSize.None?
    ensures t.mid.None? && t.spread.None?
  {
    NormalizedTick(symbol, ts, None, None, None, None, Some(last), Some(lastSize), None, None, raw)
  }

  /** A normalised trade. */
  datatype NormalizedTrade = NormalizedTrade(
    symbol: string, ts: real, price: real, size: real, aggressor: AggressorSide,
    exchange: Option<string>, specialConditions: Option<string>, raw: Option<map<string, string>>)

  /** One level of the book. */
  datatype DepthLevel = DepthLevel(
    symbol: string, ts: real, side: DomSide, level: int, price: real, size: real,
    marketMaker: Option<string>, isSmartDepth: Option<bool>, raw: Option<map<string, string>>)

  /** One incremental update of the book. */
  datatype DomDelta = DomDelta(
    symbol: string, ts: real, operation: DomOperation, level: int, side: DomSide,
    price: Option<real>, size: Option<real>,
    marketMaker: Option<string>, isSmartDepth: Option<bool>, raw: Option<map<string, string>>)

  /** A full book. */
  datatype DomSnapshot = DomSnapshot(
    symbol: string, ts: real, bids: seq<DepthLevel>, asks: seq<DepthLevel>, raw: Option<map<string, string>>)

  function OptNum(x: Option<real>): (v: Value)
    ensures x.None? <==> v == Null
    ensures x.Some? ==> v == Num(x.value)
  {
    if x.Some? then Num(x.value) else Null
  }

  function OptStr(x: Option<string>): (v: Value)
    ensures x.None? <==> v == Null
    ensures x.Some? ==> v == Str(x.value)
  {
    if x.Some? then Str(x.value) else Null
  }

  /** A boolean as Python compares it: `True == 1`, `False == 0`. */
  function OptBool(x: Option<bool>): (v: Value)
    ensures x.None? <==> v == Null
    ensures x.Some? ==> v == Num(if x.value then 1.0 else 0.0)
  {
    if x.None? then Null else if x.value then Num(1.0) else Num(0.0)
  }

  function RawValue(raw: Option<map<string, string>>): (v: Value)
    ensures raw.None? <==> v == Null
    ensures raw.Some? ==> v.Dict? && v.fields.Keys == raw.value.Keys
    ensures raw.Some? ==> forall k :: k in raw.value ==> v.fields[k] == Str(raw.value[k])
  {
    if raw.None? then Null else Dict(map k | k in raw.value :: Str(raw.value[k]))
  }

  /** `tick.model_dump()` */
  function TickDump(t: NormalizedTick): (p: Payload)
    ensures p.Keys == {"symbol", "ts", "bid", "ask", "bid_size", "ask_size", "last", "last_size", "mid", "spread", "raw"}
    ensures p["bid"] == OptNum(t.bid) && p["ask"] == OptNum(t.ask) && p["last"] == OptNum(t.last)
    ensures p["mid"] == OptNum(t.mid) && p["spread"] == OptNum(t.spread)
  {
    map["symbol" := Str(t.symbol), "ts" := Num(t.ts),
        "bid" := OptNum(t.bid), "ask" := OptNum(t.ask),
        "bid_size" := OptNum(t.bidSize), "ask_size" := OptNum(t.askSize),
        "last" := OptNum(t.last), "last_size" := OptNum(t.lastSize),
        "mid" := OptNum(t.mid), "spread" := OptNum(t.spread), "raw" := RawValue(t.raw)]
  }

  /** `trade.model_dump()` */
  function TradeDump(t: NormalizedTrade): (p: Payload)
    ensures p.Keys == {"symbol", "ts", "price", "size", "aggressor", "exchange", "special_conditions", "raw"}
    ensures p["price"] == Num(t.price) && p["size"] == Num(t.size) && p["aggressor"] == Str(AggressorValue(t.aggressor))
  {
    map["symbol" := Str(t.symbol), "ts" := Num(t.ts), "price" := Num(t.price), "size" := Num(t.size),
        "aggressor" := Str(AggressorValue(t.aggressor)), "exchange" := OptStr(t.exchange),
        "special_conditions" := OptStr(t.specialConditions), "raw" := RawValue(t.raw)]
  }

  /** `level.model_dump()`, as nested in a snapshot. */
  function LevelDump(l: DepthLevel): (p: Payload)
    ensures p.Keys == {"symbol", "ts", "side", "level", "price", "size", "market_maker", "is_smart_depth", "raw"}
    ensures p["side"] == Str(SideValue(l.side)) && p["level"] == Num(l.level as real)
  {
    map["symbol" := Str(l.symbol), "ts" := Num(l.ts), "side" := Str(SideValue(l.side)),
        "level" := Num(l.level as real), "price" := Num(l.price), "size" := Num(l.size),
        "market_maker" := OptStr(l.marketMaker), "is_smart_depth" := OptBool(l.isSmartDepth),
        "raw" := RawValue(l.raw)]
  }

  /** `dom_delta.model_dump()` */
  function DeltaDump(d: DomDelta): (p: Payload)
    ensures p.Keys == {"symbol", "ts", "operation", "level", "side", "price", "size", "market_maker", "is_smart_depth", "raw"}
    ensures p["operation"] == Str(OperationValue(d.operation)) && p["side"] == Str(SideValue(d.side))
    ensures p["level"] == Num(d.level as real) && p["price"] == OptNum(d.price) && p["size"] == OptNum(d.size)
    ensures p["market_maker"] == OptStr(d.marketMaker)
  {
    map["symbol" := Str(d.symbol), "ts" := Num(d.ts), "operation" := Str(OperationValue(d.operation)),
        "level" := Num(d.level as real), "side" := Str(SideValue(d.side)),
        "price" := OptNum(d.price), "size" := OptNum(d.size),
        "market_maker" := OptStr(d.marketMaker), "is_smart_depth" := OptBool(d.isSmartDepth),
        "raw" := RawValue(d.raw)]
  }

  /** The levels of one side of a snapshot, each dumped. */
  function LevelsDump(ls: seq<DepthLevel>): (v: seq<Value>)
    ensures |v| == |ls|
    ensures forall i :: 0 <= i < |ls| ==> v[i] == Dict(LevelDump(ls[i]))
  {
    if ls == [] then [] else LevelsDump(ls[..|ls| - 1]) + [Dict(LevelDump(ls[|ls| - 1]))]
  }

  /** `snapshot.model_dump()` */
  function SnapshotDump(s: DomSnapshot): (p: Payload)
    ensures p.Keys == {"symbol", "ts", "bids", "asks", "raw"}
    ensures p["bids"] == List(LevelsDump(s.bids)) && p["asks"] == List(LevelsDump(s.asks))
  {
    map["symbol" := Str(s.symbol), "ts" := Num(s.ts), "bids" := List(LevelsDump(s.bids)),
        "asks" := List(LevelsDump(s.asks)), "raw" := RawValue(s.raw)]
  }

  /** `_build_market_event`: the payload wrapped in an event of the kind,
      from source "ibkr". */
  function MarketEvent(kind: EventKind, symbol: string, ts: real, payload: Payload): (e: Event)
    ensures e.eventType == KindValue(kind) && e.source == Source && e.symbol == symbol
    ensures e.ts == ts && e.payload == payload
  {
    Event(KindValue(kind), ts, Source, symbol, payload)
  }

  /** `build_tick_from_bid_ask`: a "tick" carrying the quote, its mid and
      its spread, and no last trade. */
  function BuildTickFromBidAsk(symbol: string, time: real, bidPrice: real, askPrice: real,
                               bidSize: real, askSize: real, raw: Option<map<string, string>>): (e: Event)
    ensures e.eventType == "tick" && e.source == "ibkr" && e.symbol == symbol && e.ts == time
    ensures e.payload.Keys == {"symbol", "ts", "bid", "ask", "bid_size", "ask_size", "last", "last_size", "mid", "spread", "raw"}
    ensures e.payload["bid"] == Num(bidPrice) && e.payload["ask"] == Num(askPrice)
    ensures e.payload["mid"].Num? && e.payload["mid"].n - bidPrice == askPrice - e.payload["mid"].n
    ensures e.payload["spread"] == Num(askPrice - bidPrice)
    ensures e.payload["last"] == Null
  {
    MarketEvent(TickKind, symbol, time,
      TickDump(FromBidAsk(symbol, time, Some(bidPrice), Some(askPrice), Some(bidSize), Some(askSize), raw)))
  }

  /** `build_trade_from_last`: a "trade" with price, size and aggressor. */
  function BuildTradeFromLast(symbol: string, time: real, price: real, size: real, aggressor: AggressorSide,
                              exchange: Option<string>, specialConditions: Option<string>,
                              raw: Option<map<string, string>>): (e: Event)
    ensures e.eventType == "trade" && e.source == "ibkr" && e.symbol == symbol && e.ts == time
    ensures e.payload.Keys == {"symbol", "ts", "price", "size", "aggressor", "exchange", "special_conditions", "raw"}
    ensures e.payload["price"] == Num(price) && e.payload["size"] == Num(size)
    ensures e.payload["aggressor"] == Str(AggressorValue(aggressor))
    ensures e.payload["exchange"] == OptStr(exchange)
  {
    MarketEvent(TradeKind, symbol, time,
      TradeDump(NormalizedTrade(symbol, time, price, size, aggressor, exchange, specialConditions, raw)))
  }

  /** `build_tick_from_last`: a "tick" with only the last trade; bid, ask,
      mid and spread are all `None`. */
  function BuildTickFromLast(symbol: string, time: real, lastPrice: real, lastSize: real,
                             raw: Option<map<string, string>>): (e: Event)
    ensures e.eventType == "tick" && e.source == "ibkr" && e.symbol == symbol && e.ts == time
    ensures e.payload.Keys == {"symbol", "ts", "bid", "ask", "bid_size", "ask_size", "last", "last_size", "mid", "spread", "raw"}
    ensures e.payload["last"] == Num(lastPrice) && e.payload["last_size"] == Num(lastSize)
    ensures e.payload["bid"] == Null && e.payload["ask"] == Null
    ensures e.payload["mid"] == Null && e.payload["spread"] == Null
  {
    MarketEvent(TickKind, symbol, time, TickDump(FromLast(symbol, time, lastPrice, lastSize, raw)))
  }

  /** `build_dom_delta_from_l2`: a "dom_delta" at level `position`, with the
      side and operation decoded from IB's codes; a missing time is the
      clock reading `now`. */
  function BuildDomDeltaFromL2(symbol: string, time: Option<real>, now: real, position: int,
                               marketMaker: Option<string>, operation: int, side: int,
                               price: real, size: real, isSmartDepth: Option<bool>,
                               raw: Option<map<string, string>>): (e: Event)
    ensures e.eventType == "dom_delta" && e.source == "ibkr" && e.symbol == symbol
    ensures e.payload.Keys == {"symbol", "ts", "operation", "level", "side", "price", "size", "market_maker", "is_smart_depth", "raw"}
    ensures time.Some? ==> e.ts == time.value
    ensures time.None? ==> e.ts == now
    ensures e.payload["level"] == Num(position as real)
    ensures e.payload["side"] == Str(if side == 1 then "bid" else "ask")
    ensures e.payload["operation"] == Str(if operation == 0 then "insert" else if operation == 1 then "update" else "delete")
    ensures e.payload["price"] == Num(price) && e.payload["size"] == Num(size)
    ensures e.payload["market_maker"] == OptStr(marketMaker)
  {
    var ts := if time.None? then now else time.value;
    MarketEvent(DomDeltaKind, symbol, ts,
      DeltaDump(DomDelta(symbol, ts, FromIbOp(operation), position, FromIbSide(side), Some(price), Some(size),
                         marketMaker, isSmartDepth, raw)))
  }

  /** `build_dom_snapshot`: a "dom_snapshot" with every level of each side,
      in the order given; a missing time is the clock reading `now`. */
  function BuildDomSnapshot(symbol: string, ts: Option<real>, now: real, bids: seq<DepthLevel>, asks: seq<DepthLevel>,
                            raw: Option<map<string, string>>): (e: Event)
    ensures e.eventType == "dom_snapshot" && e.source == "ibkr" && e.symbol == symbol
    ensures e.payload.Keys == {"symbol", "ts", "bids", "asks", "raw"}
    ensures ts.Some? ==> e.ts == ts.value
    ensures ts.None? ==> e.ts == now
    ensures e.payload["bids"].List? && |e.payload["bids"].items| == |bids|
    ensures e.payload["asks"].List? && |e.payload["asks"].items| == |asks|
    ensures forall i :: 0 <= i < |bids| ==> e.payload["bids"].items[i] == Dict(LevelDump(bids[i]))
    ensures forall i :: 0 <= i < |asks| ==> e.payload["asks"].items[i] == Dict(LevelDump(asks[i]))
  {
    var tsFinal := if ts.None? then now else ts.value;
    MarketEvent(DomSnapshotKind, symbol, tsFinal, SnapshotDump(DomSnapshot(symbol, tsFinal, bids, asks, raw)))
  }

  /** `build_from_ib_tick_by_tick_bid_ask`: the plain tick, with the attribute
      objects' `repr` texts as its raw record and nothing else changed. */
  function BuildFromIbTickByTickBidAsk(symbol: string, time: real, bidPrice: real, askPrice: real,
                                       bidSize: real, askSize: real, bidAttribs: string, askAttribs: string): (e: Event)
    ensures var plain := BuildTickFromBidAsk(symbol, time, bidPrice, askPrice, bidSize, askSize, None);
            && e == plain.(payload := plain.payload["raw" := Dict(map["bid_attribs" := Str(bidAttribs), "ask_attribs" := Str(askAttribs)])])
  {
    var raw := map["bid_attribs" := bidAttribs, "ask_attribs" := askAttribs];
    assert RawValue(Some(raw)) == Dict(map["bid_attribs" := Str(bidAttribs), "ask_attribs" := Str(askAttribs)]);
    TickRawSwap(FromBidAsk(symbol, time, Some(bidPrice), Some(askPrice), Some(bidSize), Some(askSize), None), Some(raw));
    BuildTickFromBidAsk(symbol, time, bidPrice, askPrice, bidSize, askSize, Some(raw))
  }

  /** A tick's dump differs from the same tick's with another raw record
      only under "raw". */
  lemma {:induction false} TickRawSwap(t: NormalizedTick, raw: Option<map<string, string>>)
    ensures TickDump(t.(raw := raw)) == TickDump(t)["raw" := RawValue(raw)]
  {
  }

  /** A delta's dump differs from the same delta's with another raw record
      only under "raw". */
  lemma {:induction false} DeltaRawSwap(d: DomDelta, raw: Option<map<string, string>>)
    ensures DeltaDump(d.(raw := raw)) == DeltaDump(d)["raw" := RawValue(raw)]
  {
  }

  /** `build_from_ib_tick_by_tick_all_last`: the plain trade, with the
      attribute object's `repr` text as its raw record. */
  function BuildFromIbTickByTickAllLast(symbol: string, time: real, price: real, size: real, tickAttribLast: string,
                                        exchange: Option<string>, specialConditions: Option<string>,
                                        aggressor: AggressorSide): (e: Event)
    ensures var plain := BuildTradeFromLast(symbol, time, price, size, aggressor, exchange, specialConditions, None);
            && e == plain.(payload := plain.payload["raw" := Dict(map["tick_attrib_last" := Str(tickAttribLast)])])
  {
    var raw := map["tick_attrib_last" := tickAttribLast];
    assert RawValue(Some(raw)) == Dict(map["tick_attrib_last" := Str(tickAttribLast)]);
    BuildTradeFromLast(symbol, time, price, size, aggressor, exchange, specialConditions, Some(raw))
  }

  /** `build_from_ib_update_mkt_depth_l2`: the plain delta, with the market
      maker also recorded as the raw record. */
  function BuildFromIbUpdateMktDepthL2(symbol: string, position: int, marketMaker: string, operation: int, side: int,
                                       price: real, size: real, isSmartDepth: bool, time: Option<real>, now: real): (e: Event)
    ensures var plain := BuildDomDeltaFromL2(symbol, time, now, position, Some(marketMaker), operation, side, price, size, Some(isSmartDepth), None);
            && e == plain.(payload := plain.payload["raw" := Dict(map["market_maker" := Str(marketMaker)])])
  {
    var raw := map["market_maker" := marketMaker];
    assert RawValue(Some(raw)) == Dict(map["market_maker" := Str(marketMaker)]);
    var ts := if time.None? then now else time.value;
    DeltaRawSwap(DomDelta(symbol, ts, FromIbOp(operation), position, FromIbSide(side), Some(price), Some(size),
                          Some(marketMaker), Some(isSmartDepth), None), Some(raw));
    BuildDomDeltaFromL2(symbol, time, now, position, Some(marketMaker), operation, side, price, size, Some(isSmartDepth), Some(raw))
  }

  /** An IB insert or update, once built, makes the DOM engine store price,
      size and market maker at `position` on the side IB's code names, and
      leaves the other side alone. */
  lemma {:induction false} DomDeltaUpsertsBook(book: State.DomBook, symbol: string, time: Option<real>, now: real, position: int,
                            marketMaker: Option<string>, operation: int, side: int, price: real, size: real)
    requires book.Valid() && (operation == 0 || operation == 1)
    ensures var p := BuildDomDeltaFromL2(symbol, time, now, position, marketMaker, operation, side, price, size, None, None).payload;
            var r := DomEngine.ApplyDomDelta(book, p);
            && r.Some?
            && (side == 1 ==> r.value.bids.vals == book.bids.vals[position := State.DomLevel(Num(price), Num(size), OptStr(marketMaker))]
                              && r.value.asks == book.asks)
            && (side != 1 ==> r.value.asks.vals == book.asks.vals[position := State.DomLevel(Num(price), Num(size), OptStr(marketMaker))]
                              && r.value.bids == book.bids)
  {
    var p := BuildDomDeltaFromL2(symbol, time, now, position, marketMaker, operation, side, price, size, None, None).payload;
    assert DomEngine.LevelOf(p) == Some(position);
    DomEngine.UpsertStoresLevel(book, p);
  }

  /** An IB delete (any code but 0 and 1), once built, removes the level at
      `position` on that side of the DOM engine's book. */
  lemma {:induction false} DomDeltaDeletesLevel(book: State.DomBook, symbol: string, time: Option<real>, now: real, position: int,
                             marketMaker: Option<string>, operation: int, side: int, price: real, size: real)
    requires book.Valid() && operation != 0 && operation != 1
    ensures var p := BuildDomDeltaFromL2(symbol, time, now, position, marketMaker, operation, side, price, size, None, None).payload;
            var r := DomEngine.ApplyDomDelta(book, p);
            && r.Some?
            && (side == 1 ==> r.value.bids.vals == book.bids.vals - {position})
            && (side != 1 ==> r.value.asks.vals == book.asks.vals - {position})
  {
    var p := BuildDomDeltaFromL2(symbol, time, now, position, marketMaker, operation, side, price, size, None, None).payload;
    assert DomEngine.LevelOf(p) == Some(position);
    DomEngine.DeleteRemovesLevel(book, p);
  }

  /** The delta engine reads back from a built trade exactly the price,
      size and aggressor it was built with. */
  lemma {:induction false} TradeReadByDeltaEngine(symbol: string, time: real, price: real, size: real, aggressor: AggressorSide,
                               exchange: Option<string>, specialConditions: Option<string>, raw: Option<map<string, string>>)
    ensures DeltaEngine.ParseTrade(BuildTradeFromLast(symbol, time, price, size, aggressor, exchange, specialConditions, raw).payload)
            == Some(DeltaEngine.Trade(price, size, Str(AggressorValue(aggressor))))
  {
  }

  /** A quote of 1.1000/1.1002 gives mid 1.1001 and spread 0.0002; a
      level-2 update with side code 0 and operation 2 is an ask delete. */
  method BuildersScenario()
  {
    var t := BuildTickFromBidAsk("EURUSD", 10.0, 1.1000, 1.1002, 1.0, 2.0, None);
    assert t.payload["mid"] == Num(1.1001) && t.payload["spread"] == Num(0.0002);
    var d := BuildDomDeltaFromL2("ES", None, 5.0, 3, None, 2, 0, 100.0, 0.0, None, None);
    assert d.ts == 5.0 && d.payload["side"] == Str("ask") && d.payload["operation"] == Str("delete");
    var l := BuildTickFromLast("XAUUSD", 10.0, 2000.0, 1.0, None);
    assert l.eventType == "tick" && l.payload["mid"] == Null;
  }
}
