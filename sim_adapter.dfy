/** The simulated execution adapter: every order sent is acknowledged and,
    with the configured probability, filled at once in full. The random
    draw (`random.random()`, in [0, 1)) and the wall clock are parameters. */
module SimExecution {
  import opened Common
  import opened Orders

  const Source: string := "execution_sim"

  /** `order.limit_price or order.stop_price or 0.0` */
  function FillPrice(o: OrderRequest): (p: real)
    ensures o.limitPrice.Some? && o.limitPrice.value != 0.0 ==> p == o.limitPrice.value
    ensures !(o.limitPrice.Some? && o.limitPrice.value != 0.0) && o.stopPrice.Some? ==> p == o.stopPrice.value
    ensures !(o.limitPrice.Some? && o.limitPrice.value != 0.0) && o.stopPrice.None? ==> p == 0.0
  {
    if o.limitPrice.Some? && o.limitPrice.value != 0.0 then o.limitPrice.value
    else if o.stopPrice.Some? && o.stopPrice.value != 0.0 then o.stopPrice.value
    else 0.0
  }

  function AckOf(o: OrderRequest): OrderEvent
  {
    OrderEvent(o.orderId, o.symbol, Ack, 0.0, None, None, map[])
  }

  function FillOf(o: OrderRequest): OrderEvent
  {
    OrderEvent(o.orderId, o.symbol, Fill, o.quantity, Some(FillPrice(o)), None, map[])
  }

  /** The events `send` publishes for a draw against the fill probability. */
  function SendEvents(o: OrderRequest, fillProbability: real, draw: real): (r: seq<OrderEvent>)
    ensures 1 <= |r| <= 2
    ensures r[0].status == Ack && r[0].orderId == o.orderId && r[0].filledQty == 0.0
    ensures |r| == 2 <==> draw <= fillProbability
    ensures |r| == 2 ==> r[1].status == Fill && r[1].orderId == o.orderId && r[1].filledQty == o.quantity
                         && r[1].avgPrice == Some(FillPrice(o))
    ensures forall i :: 0 <= i < |r| ==> r[i].symbol == o.symbol
  {
    [AckOf(o)] + (if draw <= fillProbability then [FillOf(o)] else [])
  }

  /** The bus events carrying order events, all at time `now`. */
  function Messages(evts: seq<OrderEvent>, now: real): (r: seq<Event>)
    ensures |r| == |evts|
    ensures forall i :: 0 <= i < |r| ==> r[i] == OrderMessage(evts[i], Source, now)
  {
    if evts == [] then [] else [OrderMessage(evts[0], Source, now)] + Messages(evts[1..], now)
  }

  /** A certain fill probability fills every order: any draw from [0, 1)
      passes it. */
  lemma {:induction false} CertainFill(o: OrderRequest, fillProbability: real, draw: real)
    requires fillProbability >= 1.0 && 0.0 <= draw < 1.0
    ensures |SendEvents(o, fillProbability, draw)| == 2
  {
  }

  /** A zero fill probability fills only on the zero draw. */
  lemma {:induction false} NeverFillsAtZero(o: OrderRequest, draw: real)
    requires 0.0 < draw < 1.0
    ensures SendEvents(o, 0.0, draw) == [AckOf(o)]
  {
  }

  class SimAdapter {
    const fillProbability: real
    var orders: map<string, OrderRequest>
    /** Every event published on the bus, in order. */
    var published: seq<Event>

    constructor (fillProbability: real)
      ensures this.fillProbability == fillProbability && orders == map[] && published == []
    {
      this.fillProbability := fillProbability;
      orders := map[];
      published := [];
    }

    /** `send` with the draw `draw` at time `now`: the order is stored, the
      ack published and, when the draw is within the probability, the fill. */
    method Send(order: OrderRequest, draw: real, now: real)
      modifies this
      ensures orders == old(orders)[order.orderId := order]
      ensures published == old(published) + Messages(SendEvents(order, fillProbability, draw), now)
    {
      orders := orders[order.orderId := order];
      published := published + [OrderMessage(AckOf(order), Source, now)];
      if draw <= fillProbability {
        published := published + [OrderMessage(FillOf(order), Source, now)];
      }
      assert Messages(SendEvents(order, fillProbability, draw), now)[1..] == Messages(SendEvents(order, fillProbability, draw)[1..], now);
    }

    /** The symbol a cancel is reported under: the stored order's, or "". */
    function CancelSymbol(orderId: string): (s: string)
      reads this
      ensures orderId in orders ==> s == orders[orderId].symbol
      ensures orderId !in orders ==> s == ""
    {
      if orderId in orders then orders[orderId].symbol else ""
    }

    /** `cancel`: one cancel event; the stored orders are left as they are. */
    method Cancel(orderId: string, now: real)
      modifies this
      ensures orders == old(orders)
      ensures published == old(published) + [OrderMessage(OrderEvent(orderId, old(CancelSymbol(orderId)), OrderStatus.Cancel, 0.0, None, None, map[]), Source, now)]
    {
      published := published + [OrderMessage(OrderEvent(orderId, CancelSymbol(orderId), OrderStatus.Cancel, 0.0, None, None, map[]), Source, now)];
    }

    /** `replace`: the new order is stored under the old id, then sent (and
      so also stored under its own id). */
    method Replace(orderId: string, newOrder: OrderRequest, draw: real, now: real)
      modifies this
      ensures orders == old(orders)[orderId := newOrder][newOrder.orderId := newOrder]
      ensures published == old(published) + Messages(SendEvents(newOrder, fillProbability, draw), now)
    {
      orders := orders[orderId := newOrder];
      Send(newOrder, draw, now);
    }
  }

  /** A limit order sent with certain fill: an ack, then a fill of the whole
      quantity at the limit price. */
  method CertainFillScenario(draw: real, now: real)
    requires 0.0 <= draw < 1.0
  {
    var adapter := new SimAdapter(1.0);
    var o := NewOrder("o1", "ES", Buy, 1.0, Limit).(limitPrice := Some(100.0));
    adapter.Send(o, draw, now);
    CertainFill(o, 1.0, draw);
    assert |adapter.published| == 2;
    assert adapter.published[0].payload["status"] == Str("ack");
    assert adapter.published[1].payload["status"] == Str("fill");
    assert adapter.published[1].payload["avg_price"] == Num(100.0);
    assert adapter.published[1].source == "execution_sim";
  }
}
