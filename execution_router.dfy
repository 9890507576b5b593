/** The execution router: keeps the orders it has routed, by id, and
    delegates each request to its adapter. The adapter is any object with
    `send`, `cancel` and `replace`; the router's view of it is the sequence
    of calls it makes. Order events it is asked to publish go on the bus
    with source "execution". */
module ExecutionRouting {
  import opened Common
  import opened Orders
  import Text

  /** A call made on the adapter. */
  datatype AdapterCall =
    | Send(order: OrderRequest)
    | CancelOrder(orderId: string)
    | ReplaceOrder(orderId: string, newOrder: OrderRequest)

  const Source: string := "execution"

  class ExecutionRouter {
    /** The execution mode, upper-cased ("SIM" by default in the source). */
    const mode: string
    var orders: map<string, OrderRequest>
    /** Every call made on the adapter, in order. */
    var calls: seq<AdapterCall>
    /** Every event this router published on the bus, in order. */
    var published: seq<Event>

    constructor (mode: string)
      ensures this.mode == Text.Upper(mode)
      ensures orders == map[] && calls == [] && published == []
    {
      this.mode := Text.Upper(mode);
      orders := map[];
      calls := [];
      published := [];
    }

    /** `submit`: the order is recorded under its id, then sent. */
    method Submit(order: OrderRequest)
      modifies this
      ensures orders == old(orders)[order.orderId := order]
      ensures calls == old(calls) + [Send(order)]
      ensures published == old(published)
    {
      orders := orders[order.orderId := order];
      calls := calls + [Send(order)];
    }

    /** `cancel`: delegated; the recorded orders are left as they are. */
    method Cancel(orderId: string)
      modifies this
      ensures orders == old(orders) && published == old(published)
      ensures calls == old(calls) + [CancelOrder(orderId)]
    {
      calls := calls + [CancelOrder(orderId)];
    }

    /** `replace`: the new order is recorded under the old id, then the
      replacement is delegated. */
    method Replace(orderId: string, newOrder: OrderRequest)
      modifies this
      ensures orders == old(orders)[orderId := newOrder]
      ensures calls == old(calls) + [ReplaceOrder(orderId, newOrder)]
      ensures published == old(published)
    {
      orders := orders[orderId := newOrder];
      calls := calls + [ReplaceOrder(orderId, newOrder)];
    }

    /** `publish_order_event`: one "order_event" with source "execution",
      the event's symbol and its fields as payload, stamped with the order
      event's own timestamp `evtTimestamp` (the `timestamp` field of the
      order event, which the `OrderEvent` datatype does not carry). */
    method PublishOrderEvent(evt: OrderEvent, evtTimestamp: real)
      modifies this
      ensures published == old(published) + [OrderMessage(evt, Source, evtTimestamp)]
      ensures published[|published| - 1].ts == evtTimestamp
      ensures orders == old(orders) && calls == old(calls)
    {
      published := published + [OrderMessage(evt, Source, evtTimestamp)];
    }
  }

  /** The mode is stored upper-cased whatever case it was given in, so a
      lower-case "sim" and "SIM" select the same mode. */
  lemma {:induction false} ModeCaseInsensitive()
    ensures Text.Upper("sim") == "SIM" && Text.Upper("SIM") == "SIM" && Text.Upper("MT5") == "MT5"
  {
    assert Text.Upper("sim") == [Text.UpperChar('s')] + Text.Upper("im");
  }

  /** A submitted order is found under its id with its own symbol; a
    cancel changes no record, and a replacement's record sits under the id
    it replaced. */
  method RoutingScenario(o: OrderRequest, other: OrderRequest)
    requires o.orderId == "o1" && o.symbol == "EXEC_SYMBOL" && other.orderId == "o2"
  {
    var router := new ExecutionRouter("SIM");
    router.Submit(o);
    assert router.orders["o1"].symbol == "EXEC_SYMBOL";
    router.Cancel("o1");
    assert router.orders == map["o1" := o];
    router.Replace("o1", other);
    assert router.orders["o1"] == other && "o2" !in router.orders;
    assert router.calls == [Send(o), CancelOrder("o1"), ReplaceOrder("o1", other)];
  }
}
