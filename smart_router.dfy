/** The smart order router: slices an order, stamps each child with its
    queue-time estimate and submits the children through the execution
    router; it also counts fills from the order events on the bus. */
module SmartRouting {
  import opened Common
  import opened Orders
  import Slicing
  import QueueTime
  import ExecMetrics
  import ExecutionRouting
  import EventBus
  import SimExecution

  const EtaKey: string := "eta_sec"
  const DefaultQueuePosition: real := 0.5
  const DefaultClip: real := 1.0

  /** The child with its estimated queue time added to its metadata. */
  function WithEta(child: OrderRequest, queuePosition: real): OrderRequest
  {
    var eta := QueueTime.EstimateQueueTime(child, queuePosition, QueueTime.DefaultFillRate);
    child.(metadata := child.metadata[EtaKey := SixDecimals(eta)])
  }

  /** Every child stamped with its queue-time estimate. */
  function Stamped(children: seq<OrderRequest>, queuePosition: real): (r: seq<OrderRequest>)
    ensures |r| == |children|
    ensures forall i :: 0 <= i < |r| ==> r[i] == WithEta(children[i], queuePosition)
  {
    if children == [] then []
    else Stamped(children[..|children| - 1], queuePosition) + [WithEta(children[|children| - 1], queuePosition)]
  }

  function Ids(orders: seq<OrderRequest>): (r: seq<string>)
    ensures |r| == |orders|
  {
    if orders == [] then [] else Ids(orders[..|orders| - 1]) + [orders[|orders| - 1].orderId]
  }

  /** The adapter calls of submitting `orders` one after the other. */
  function Sends(orders: seq<OrderRequest>): (r: seq<ExecutionRouting.AdapterCall>)
    ensures |r| == |orders|
  {
    if orders == [] then [] else Sends(orders[..|orders| - 1]) + [ExecutionRouting.Send(orders[|orders| - 1])]
  }

  /** The execution router's records after submitting `orders` in turn. */
  function Stored(records: map<string, OrderRequest>, orders: seq<OrderRequest>): map<string, OrderRequest>
  {
    if orders == [] then records
    else Stored(records, orders[..|orders| - 1])[orders[|orders| - 1].orderId := orders[|orders| - 1]]
  }

  /** Submitting one more order appends its id, its send call and its
      record. */
  lemma {:induction false} AppendOne(records: map<string, OrderRequest>, done: seq<OrderRequest>, o: OrderRequest)
    ensures Ids(done + [o]) == Ids(done) + [o.orderId]
    ensures Sends(done + [o]) == Sends(done) + [ExecutionRouting.Send(o)]
    ensures Stored(records, done + [o]) == Stored(records, done)[o.orderId := o]
  {
    assert (done + [o])[..|done|] == done;
  }

  /** Stamping keeps each child's id, quantity and every other field, and
      adds exactly the `eta_sec` entry to its metadata. */
  lemma {:induction false} StampedChildren(children: seq<OrderRequest>, queuePosition: real)
    ensures forall i :: 0 <= i < |children| ==>
              && Stamped(children, queuePosition)[i].(metadata := children[i].metadata) == children[i]
              && Stamped(children, queuePosition)[i].metadata ==
                   children[i].metadata[EtaKey := SixDecimals(QueueTime.EstimateQueueTime(children[i], queuePosition, QueueTime.DefaultFillRate))]
    ensures Ids(Stamped(children, queuePosition)) == Ids(children)
  {
    var r := Stamped(children, queuePosition);
    IdsAt(r);
    IdsAt(children);
  }

  /** The ids are the orders' ids, position by position. */
  lemma {:induction false} IdsAt(orders: seq<OrderRequest>)
    ensures forall i :: 0 <= i < |orders| ==> Ids(orders)[i] == orders[i].orderId
  {
    if orders != [] {
      IdsAt(orders[..|orders| - 1]);
    }
  }

  /** The ids `route` returns for an order: the order's own id when it fits
      in one clip, otherwise `<id>-child-0`, `<id>-child-1`, … one per
      needed clip. */
  lemma {:induction false} RouteIds(order: OrderRequest, clip: real, queuePosition: real)
    requires order.quantity > clip ==> clip > 0.0
    ensures var ids := Ids(Stamped(Slicing.SliceSpec(order, clip), queuePosition));
            && (order.quantity <= clip ==> ids == [order.orderId])
            && (order.quantity > clip ==>
                  && |ids| == Slicing.ClipCount(order.quantity, clip)
                  && forall i :: 0 <= i < |ids| ==> ids[i] == order.orderId + "-child-" + NatToString(i))
  {
    var slices := Slicing.SliceSpec(order, clip);
    Slicing.SliceSpecShape(order, clip);
    StampedChildren(slices, queuePosition);
    IdsAt(slices);
    if order.quantity <= clip {
      assert Ids(slices) == Ids([]) + [order.orderId];
    }
  }

  /** `child.metadata = ...` on an order that may be frozen; `None` when the
      assignment raises. */
  function AssignMetadata(child: OrderRequest, metadata: map<string, string>, frozen: bool): (r: Option<OrderRequest>)
    ensures frozen <==> r.None?
    ensures r.Some? ==> r.value == child.(metadata := metadata)
  {
    if frozen then None else Some(child.(metadata := metadata))
  }

  /** The children `route`'s loop submits when the assignment may raise:
      `None` when it raises, before the child is submitted. */
  function StampAll(children: seq<OrderRequest>, queuePosition: real, frozen: bool): Option<seq<OrderRequest>>
  {
    if children == [] then Some([])
    else
      var last := children[|children| - 1];
      var eta := QueueTime.EstimateQueueTime(last, queuePosition, QueueTime.DefaultFillRate);
      match StampAll(children[..|children| - 1], queuePosition, frozen)
      case None => None
      case Some(done) =>
        match AssignMetadata(last, last.metadata[EtaKey := SixDecimals(eta)], frozen)
        case None => None
        case Some(c) => Some(done + [c])
  }

  /** On a model that allows the assignment, the loop stamps every child. */
  lemma {:induction false} UnfrozenStampsAll(children: seq<OrderRequest>, queuePosition: real)
    ensures StampAll(children, queuePosition, false) == Some(Stamped(children, queuePosition))
  {
    if children != [] {
      UnfrozenStampsAll(children[..|children| - 1], queuePosition);
    }
  }

  /** On the frozen model the first assignment raises, so no child is ever
      stamped. */
  lemma {:induction false} FrozenStampsNone(children: seq<OrderRequest>, queuePosition: real)
    requires children != []
    ensures StampAll(children, queuePosition, true).None?
  {
    if |children| > 1 {
      FrozenStampsNone(children[..|children| - 1], queuePosition);
    }
  }

  /** `route` as written: the ids it returns, or `None` when it raises. */
  function RouteAsWritten(order: OrderRequest, clip: real, queuePosition: real): Option<seq<string>>
    requires order.quantity > clip ==> clip > 0.0
  {
    match StampAll(Slicing.SliceSpec(order, clip), queuePosition, OrderModelsFrozen)
    case None => None
    case Some(children) => Some(Ids(children))
  }

  /** As written, `route` raises on the first child of every order, before
      anything is submitted: twelve units with a clip of five route no child
      where three ids are expected. */
  lemma {:induction false} AsWrittenRoutesNothing(order: OrderRequest, clip: real, queuePosition: real)
    requires order.quantity > clip ==> clip > 0.0
    ensures RouteAsWritten(order, clip, queuePosition).None?
  {
    Slicing.SliceSpecShape(order, clip);
    FrozenStampsNone(Slicing.SliceSpec(order, clip), queuePosition);
  }

  /** What `on_order_event` does with one bus event. */
  datatype FillHandling = Ignored | Failed | Recorded(slippageBps: real, latencyMs: real)

  /** Only fill and partial-fill statuses are recorded; slippage and latency
      default to 0, and a value `float()` rejects makes the handler raise. */
  function Handling(e: Event): (h: FillHandling)
    ensures h.Ignored? <==> Get(e.payload, "status") != Str("fill") && Get(e.payload, "status") != Str("partial_fill")
    ensures h.Recorded? ==> ToReal(GetOr(e.payload, "slippage_bps", Num(0.0))) == Some(h.slippageBps)
                            && ToReal(GetOr(e.payload, "latency_ms", Num(0.0))) == Some(h.latencyMs)
    ensures h.Failed? <==> !h.Ignored? && (!GetOr(e.payload, "slippage_bps", Num(0.0)).Num? || !GetOr(e.payload, "latency_ms", Num(0.0)).Num?)
  {
    var status := Get(e.payload, "status");
    if status != Str("fill") && status != Str("partial_fill") then Ignored
    else
      var slip := ToReal(GetOr(e.payload, "slippage_bps", Num(0.0)));
      var lat := ToReal(GetOr(e.payload, "latency_ms", Num(0.0)));
      if slip.None? || lat.None? then Failed else Recorded(slip.value, lat.value)
  }

  /** The events the simulated adapter publishes meet the filter as their
      status says: a fill is recorded with zero slippage and latency, an
      acknowledgement is not. */
  lemma {:induction false} SimEventsHandled(o: OrderRequest, now: real)
    ensures Handling(OrderMessage(SimExecution.FillOf(o), SimExecution.Source, now)) == Recorded(0.0, 0.0)
    ensures Handling(OrderMessage(SimExecution.AckOf(o), SimExecution.Source, now)).Ignored?
  {
  }

  /** The payload of a `router_action` event. */
  function RouterAction(orderId: string, newPrice: Option<real>, now: real): (e: Event)
    ensures e.eventType == "router_action" && e.source == "smart_router" && e.symbol == ""
    ensures e.payload.Keys == {"order_id", "action", "price"}
    ensures e.payload["order_id"] == Str(orderId) && e.payload["action"] == Str("cancel_replace")
  {
    Event("router_action", now, "smart_router", "",
          map["order_id" := Str(orderId), "action" := Str("cancel_replace"),
              "price" := if newPrice.Some? then Num(newPrice.value) else Null])
  }

  class SmartOrderRouter {
    const baseRouter: ExecutionRouting.ExecutionRouter
    const defaultClip: real
    const metrics: ExecMetrics.ExecutionMetrics
    /** Every event this router published itself, in order. */
    var published: seq<Event>

    ghost predicate Valid()
      reads this, metrics
    {
      metrics.Valid()
    }

    /** The constructor subscribes `on_order_event` (callback `cb`) to
      order events. */
    constructor (bus: EventBus.Bus, baseRouter: ExecutionRouting.ExecutionRouter, defaultClip: real, cb: EventBus.CallbackId)
      modifies bus
      ensures Valid() && fresh(metrics)
      ensures this.baseRouter == baseRouter && this.defaultClip == defaultClip && published == []
      ensures metrics.stats.order == [] && metrics.stats.vals == map[]
      ensures bus.subscribers == EventBus.SubscribeAll(old(bus.subscribers), ["order_event"], cb)
      ensures bus.queue == old(bus.queue) && bus.running == old(bus.running) && bus.calls == old(bus.calls)
    {
      this.baseRouter := baseRouter;
      this.defaultClip := defaultClip;
      metrics := new ExecMetrics.ExecutionMetrics();
      published := [];
      new;
      bus.Subscribe(EventBus.One("order_event"), cb);
    }

    /** `route`, with the children stamped as intended (see
      `RouteAsWritten` for the code as written): the slices are stamped and
      submitted in order and their ids returned in that order. */
    method Route(order: OrderRequest, queuePosition: real) returns (ids: seq<string>)
      requires order.quantity > defaultClip ==> defaultClip > 0.0
      modifies baseRouter
      ensures var children := Stamped(Slicing.SliceSpec(order, defaultClip), queuePosition);
              && ids == Ids(children)
              && baseRouter.calls == old(baseRouter.calls) + Sends(children)
              && baseRouter.orders == Stored(old(baseRouter.orders), children)
              && baseRouter.published == old(baseRouter.published)
    {
      var slices := Slicing.SliceOrder(order, defaultClip);
      var children := Stamped(slices, queuePosition);
      ids := SubmitAll(children);
    }

    /** Submits the children in order, returning their ids. */
    method SubmitAll(children: seq<OrderRequest>) returns (ids: seq<string>)
      modifies baseRouter
      ensures ids == Ids(children)
      ensures baseRouter.calls == old(baseRouter.calls) + Sends(children)
      ensures baseRouter.orders == Stored(old(baseRouter.orders), children)
      ensures baseRouter.published == old(baseRouter.published)
    {
      ids := [];
      var i := 0;
      while i < |children|
        invariant 0 <= i <= |children|
        invariant ids == Ids(children[..i])
        invariant baseRouter.calls == old(baseRouter.calls) + Sends(children[..i])
        invariant baseRouter.orders == Stored(old(baseRouter.orders), children[..i])
        invariant baseRouter.published == old(baseRouter.published)
      {
        assert children[..i + 1] == children[..i] + [children[i]];
        AppendOne(old(baseRouter.orders), children[..i], children[i]);
        ids := ids + [children[i].orderId];
        baseRouter.Submit(children[i]);
        i := i + 1;
      }
      assert children[..|children|] == children;
    }

    /** `on_order_event`: a fill or partial fill is recorded against the
      event's symbol; anything else, or a handler that raises, records
      nothing. */
    method OnOrderEvent(e: Event) returns (h: FillHandling)
      requires Valid()
      modifies metrics
      ensures Valid()
      ensures h == Handling(e)
      ensures h.Recorded? ==> metrics.stats == old(metrics.stats).Put(e.symbol, ExecMetrics.Record(old(metrics.StatsOf(e.symbol)), h.slippageBps, h.latencyMs))
      ensures h.Recorded? ==> ExecMetrics.FillsTotal(metrics.stats) == ExecMetrics.FillsTotal(old(metrics.stats)) + 1.0
      ensures !h.Recorded? ==> metrics.stats == old(metrics.stats)
    {
      h := Handling(e);
      if h.Recorded? {
        metrics.RecordFill(e.symbol, h.slippageBps, h.latencyMs);
      }
    }

    /** `cancel_replace` at time `now`: announces the action, then cancels;
      no replacement is ever submitted. */
    method CancelReplace(orderId: string, newPrice: Option<real>, now: real)
      modifies this, baseRouter
      ensures published == old(published) + [RouterAction(orderId, newPrice, now)]
      ensures baseRouter.calls == old(baseRouter.calls) + [ExecutionRouting.CancelOrder(orderId)]
      ensures baseRouter.orders == old(baseRouter.orders)
    {
      published := published + [RouterAction(orderId, newPrice, now)];
      baseRouter.Cancel(orderId);
    }

    /** `health`: one router, and the fills recorded over all symbols. */
    function Health(): (h: map<string, real>)
      reads this, metrics
      requires Valid()
      ensures h.Keys == {"routers", "fills"} && h["routers"] == 1.0
      ensures h["fills"] == ExecMetrics.FillsTotal(metrics.stats)
    {
      map["routers" := 1.0, "fills" := ExecMetrics.FillsTotal(metrics.stats)]
    }
  }

  /** `peg_order` on a model that may be frozen: for a mid peg of a priced
      limit order without a stop it assigns the limit price to itself. */
  function PegOrderAsWritten(order: OrderRequest, peg: string, frozen: bool): Option<OrderRequest>
  {
    if peg == "mid" && order.limitPrice.Some? && order.limitPrice.value != 0.0 && order.stopPrice.None?
    then (if frozen then None else Some(order.(limitPrice := order.limitPrice)))
    else Some(order)
  }

  /** As written, `peg_order` raises exactly for a mid peg of an order with
      a non-zero limit price and no stop. */
  lemma {:induction false} PegRaises(order: OrderRequest, peg: string)
    ensures PegOrderAsWritten(order, peg, OrderModelsFrozen).None? <==>
              peg == "mid" && order.limitPrice.Some? && order.limitPrice.value != 0.0 && order.stopPrice.None?
  {
  }

  /** As intended (the assignment allowed), `peg_order` returns the order
      unchanged for every peg. */
  lemma {:induction false} PegKeepsOrder(order: OrderRequest, peg: string)
    ensures PegOrderAsWritten(order, peg, false) == Some(order)
  {
  }

  /** Twelve units need three clips of five. */
  lemma {:induction false} TwelveByFiveClips()
    ensures Slicing.ClipCount(12.0, 5.0) == 3
  {
    assert Slicing.IsClipCount(3, 12.0, 5.0);
    Slicing.ClipCountUnique(Slicing.ClipCount(12.0, 5.0), 3, 12.0, 5.0);
  }

  /** Twelve units with a clip of five: three children submitted. */
  method TwelveByFiveRouteScenario()
  {
    var bus := new EventBus.Bus();
    var base := new ExecutionRouting.ExecutionRouter("SIM");
    var router := new SmartOrderRouter(bus, base, 5.0, 1);
    var order := NewOrder("o1", "ES", Buy, 12.0, Limit).(limitPrice := Some(100.0));
    var ids := router.Route(order, DefaultQueuePosition);
    RouteIds(order, 5.0, DefaultQueuePosition);
    TwelveByFiveClips();
    assert |ids| == 3;
  }
}
