/** Mapping of order requests onto Interactive Brokers order and contract
    records. A price field the mapping never assigns keeps IB's "unset"
    marker, modelled as `None`. */
module IbkrOrders {
  import opened Common
  import opened Orders

  /** The fields of an IB contract that the mapping sets. */
  datatype IbContract = IbContract(symbol: string, secType: string, exchange: string, currency: string)

  /** The fields of an IB order that the mapping sets; `orderId` is left
      for the IB client to assign. */
  datatype IbOrder = IbOrder(
    orderId: Option<int>,
    totalQuantity: real,
    action: string,
    orderType: string,
    lmtPrice: Option<real>,
    auxPrice: Option<real>,
    tif: string,
    outsideRth: bool,
    transmit: bool,
    eTradeOnly: bool,
    firmQuoteOnly: bool)

  /** `build_fx_contract`: a cash pair on IDEALPRO, quoted in USD. */
  function BuildFxContract(symbol: string): (c: IbContract)
    ensures c.symbol == symbol
    ensures c.secType == "CASH" && c.exchange == "IDEALPRO" && c.currency == "USD"
  {
    IbContract(symbol, "CASH", "IDEALPRO", "USD")
  }

  /** `float(price or 0.0)`: a missing or zero price is sent as 0. */
  function PriceOrZero(p: Option<real>): (r: real)
    ensures p.Some? ==> r == p.value
    ensures p.None? ==> r == 0.0
  {
    if p.Some? then p.value else 0.0
  }

  /** IB's order-type code for an order type. */
  function IbTypeCode(t: OrderType): string
  {
    match t
    case Market => "MKT"
    case Limit => "LMT"
    case Stop => "STP"
    case StopLimit => "STP LMT"
  }

  /** `to_ib_order`. */
  function ToIbOrder(req: OrderRequest): (o: IbOrder)
    ensures o.action == "BUY" <==> req.side == Buy
    ensures o.action == "SELL" <==> req.side == Sell
    ensures req.orderType == Market <==> o.orderType == "MKT"
    ensures req.orderType == Limit <==> o.orderType == "LMT"
    ensures req.orderType == Stop <==> o.orderType == "STP"
    ensures req.orderType == StopLimit <==> o.orderType == "STP LMT"
    ensures req.orderType in {Limit, StopLimit} ==> o.lmtPrice == Some(PriceOrZero(req.limitPrice))
    ensures req.orderType !in {Limit, StopLimit} ==> o.lmtPrice.None?
    ensures req.orderType in {Stop, StopLimit} ==> o.auxPrice == Some(PriceOrZero(req.stopPrice))
    ensures req.orderType !in {Stop, StopLimit} ==> o.auxPrice.None?
    ensures o.totalQuantity == req.quantity && o.tif == req.tif
    ensures o.orderId.None? && o.outsideRth && o.transmit && !o.eTradeOnly && !o.firmQuoteOnly
  {
    var lmt := if req.orderType == Limit || req.orderType == StopLimit then Some(PriceOrZero(req.limitPrice)) else None;
    var aux := if req.orderType == Stop || req.orderType == StopLimit then Some(PriceOrZero(req.stopPrice)) else None;
    IbOrder(None, req.quantity, if req.side == Buy then "BUY" else "SELL", IbTypeCode(req.orderType),
            lmt, aux, req.tif, true, true, false, false)
  }

  /** Reading an IB action and order-type code back. */
  function SideOfAction(action: string): (s: Option<OrderSide>)
  {
    if action == "BUY" then Some(Buy) else if action == "SELL" then Some(Sell) else None
  }

  function TypeOfCode(code: string): (t: Option<OrderType>)
  {
    if code == "MKT" then Some(Market)
    else if code == "LMT" then Some(Limit)
    else if code == "STP" then Some(Stop)
    else if code == "STP LMT" then Some(StopLimit)
    else None
  }

  /** The IB order keeps everything needed to recover the request's side,
      type, quantity, time in force and (non-zero) prices. */
  lemma {:induction false} ToIbOrderRecoverable(req: OrderRequest)
    ensures var o := ToIbOrder(req);
            && SideOfAction(o.action) == Some(req.side)
            && TypeOfCode(o.orderType) == Some(req.orderType)
            && o.totalQuantity == req.quantity && o.tif == req.tif
            && (req.orderType in {Limit, StopLimit} && req.limitPrice.Some? ==> o.lmtPrice == req.limitPrice)
            && (req.orderType in {Stop, StopLimit} && req.stopPrice.Some? ==> o.auxPrice == req.stopPrice)
  {
  }

  /** A limit buy without a limit price is sent as a limit at 0; a stop
      sell carries its stop as the auxiliary price and no limit. */
  method IbOrderScenario()
  {
    var lmt := ToIbOrder(NewOrder("o1", "EURUSD", Buy, 2.0, Limit));
    assert lmt.orderType == "LMT" && lmt.lmtPrice == Some(0.0) && lmt.action == "BUY";
    var stp := ToIbOrder(NewOrder("o2", "EURUSD", Sell, 1.0, Stop).(stopPrice := Some(1.05)));
    assert stp.orderType == "STP" && stp.auxPrice == Some(1.05) && stp.lmtPrice.None? && stp.action == "SELL";
  }
}
