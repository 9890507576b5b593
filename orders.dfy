/** Order requests and order events as the execution layer sees them.
    Timestamps are not modelled. */
module Orders {
  import opened Common

  datatype OrderType = Market | Limit | Stop | StopLimit
  datatype OrderSide = Buy | Sell
  datatype OrderStatus = Ack | PartialFill | Fill | Reject | Cancel | Error

  /** The status's wire value. */
  function StatusValue(s: OrderStatus): (v: string)
    ensures s == Fill <==> v == "fill"
    ensures s == PartialFill <==> v == "partial_fill"
  {
    match s
    case Ack => "ack"
    case PartialFill => "partial_fill"
    case Fill => "fill"
    case Reject => "reject"
    case Cancel => "cancel"
    case Error => "error"
  }

  /** An immutable order request; `tif` defaults to "DAY" and the flags to
      false in the source. */
  datatype OrderRequest = OrderRequest(
    orderId: string,
    symbol: string,
    side: OrderSide,
    quantity: real,
    orderType: OrderType,
    limitPrice: Option<real>,
    stopPrice: Option<real>,
    tif: string,
    slippageBps: Option<real>,
    maxShowSize: Option<real>,
    postOnly: bool,
    reduceOnly: bool,
    dryRun: bool,
    routingHints: map<string, string>,
    metadata: map<string, string>)

  /** A request with every optional field at its default. */
  function NewOrder(orderId: string, symbol: string, side: OrderSide, quantity: real, orderType: OrderType): (o: OrderRequest)
    ensures o.orderId == orderId && o.symbol == symbol && o.side == side && o.quantity == quantity && o.orderType == orderType
    ensures o.limitPrice.None? && o.stopPrice.None? && o.tif == "DAY" && o.metadata == map[]
  {
    OrderRequest(orderId, symbol, side, quantity, orderType, None, None, "DAY", None, None, false, false, false, map[], map[])
  }

  /** An order lifecycle event. */
  datatype OrderEvent = OrderEvent(
    orderId: string,
    symbol: string,
    status: OrderStatus,
    filledQty: real,
    avgPrice: Option<real>,
    reason: Option<string>,
    raw: map<string, string>)

  /** Both models are declared frozen: assigning a field of an instance
      raises. */
  const OrderModelsFrozen: bool := true

  /** `evt.model_dump()`: the event's fields as a payload (the timestamp is
      not modelled). */
  function Dump(e: OrderEvent): (p: Payload)
    ensures p.Keys == {"order_id", "symbol", "status", "filled_qty", "avg_price", "reason", "raw"}
    ensures p["order_id"] == Str(e.orderId) && p["symbol"] == Str(e.symbol) && p["status"] == Str(StatusValue(e.status))
    ensures p["filled_qty"] == Num(e.filledQty)
    ensures p["avg_price"] == (if e.avgPrice.Some? then Num(e.avgPrice.value) else Null)
  {
    map["order_id" := Str(e.orderId), "symbol" := Str(e.symbol), "status" := Str(StatusValue(e.status)),
        "filled_qty" := Num(e.filledQty),
        "avg_price" := (if e.avgPrice.Some? then Num(e.avgPrice.value) else Null),
        "reason" := (if e.reason.Some? then Str(e.reason.value) else Null),
        "raw" := Dict(map k | k in e.raw :: Str(e.raw[k]))]
  }

  /** The bus event an order event travels in: type "order_event", the given
      source, the order's symbol, the dumped fields. */
  function OrderMessage(e: OrderEvent, source: string, ts: real): (m: Event)
    ensures m.eventType == "order_event" && m.source == source && m.symbol == e.symbol && m.payload == Dump(e)
  {
    Event("order_event", ts, source, e.symbol, Dump(e))
  }
}
