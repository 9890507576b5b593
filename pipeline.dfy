/** The live runner's signal-to-order gate: a "signal" event becomes an
    order request, the risk engine rules on it, the decision is published,
    and only an approved order is submitted to the execution router. The
    generated order id and the wall clock are parameters. */
module Pipeline {
  import opened Common
  import opened Orders
  import opened Signals
  import Risk
  import Momentum
  import ExecutionRouting

  /** `payload.get(k, {})` as a receiver of `.get`: the nested fields, or
      `None` when the value found has no `.get` and Python raises. */
  function NestedDict(p: Payload, k: string): (r: Option<Payload>)
    ensures k !in p ==> r == Some(map[])
    ensures k in p ==> (r.Some? <==> p[k].Dict?)
    ensures k in p && p[k].Dict? ==> r == Some(p[k].fields)
  {
    match GetOr(p, k, Dict(map[]))
    case Dict(m) => Some(m)
    case _ => None
  }

  /** `features.get("mid") or payload.get("price") or payload.get("last")` */
  function LimitValue(p: Payload, features: Payload): (v: Value)
    ensures Truthy(Get(features, "mid")) ==> v == Get(features, "mid")
    ensures !Truthy(Get(features, "mid")) && Truthy(Get(p, "price")) ==> v == Get(p, "price")
    ensures !Truthy(Get(features, "mid")) && !Truthy(Get(p, "price")) ==> v == Get(p, "last")
  {
    Or(Or(Get(features, "mid"), Get(p, "price")), Get(p, "last"))
  }

  /** The signal's direction, "flat" when absent. */
  function Direction(p: Payload): Value
  {
    GetOr(p, "direction", Str("flat"))
  }

  /** `build_order_from_signal` with the generated id `orderId`: `None`
      where Python raises (features or metadata without `.get`, a quantity
      `float()` rejects, a limit price that is neither `None` nor a number). */
  function BuildOrderFromSignal(evt: Event, defaultQty: real, orderId: string): (r: Option<OrderRequest>)
    ensures r.Some? <==>
              && NestedDict(evt.payload, "features").Some?
              && NestedDict(evt.payload, "metadata").Some?
              && GetOr(NestedDict(evt.payload, "metadata").value, "qty", Num(defaultQty)).Num?
              && (LimitValue(evt.payload, NestedDict(evt.payload, "features").value).Null? ||
                  LimitValue(evt.payload, NestedDict(evt.payload, "features").value).Num?)
    ensures r.Some? ==>
              var o := r.value;
              var lim := LimitValue(evt.payload, NestedDict(evt.payload, "features").value);
              var md := NestedDict(evt.payload, "metadata").value;
              && o == NewOrder(orderId, evt.symbol, o.side, o.quantity, o.orderType).(limitPrice := o.limitPrice)
              && (o.side == Buy <==> Get(evt.payload, "direction") == Str("buy"))
              && (lim.Null? ==> o.limitPrice.None?)
              && (lim.Num? ==> o.limitPrice == Some(lim.n))
              && (o.orderType == Limit <==> Truthy(lim))
              && (o.orderType != Limit ==> o.orderType == Market)
              && ("qty" in md ==> md["qty"] == Num(o.quantity))
              && ("qty" !in md ==> o.quantity == defaultQty)
  {
    var p := evt.payload;
    var side := if Direction(p) == Str("buy") then Buy else Sell;
    match NestedDict(p, "features")
    case None => None
    case Some(features) =>
      var lim := LimitValue(p, features);
      match NestedDict(p, "metadata")
      case None => None
      case Some(md) =>
        match ToReal(GetOr(md, "qty", Num(defaultQty)))
        case None => None
        case Some(qty) =>
          if !(lim.Null? || lim.Num?) then None
          else
            var limitPrice := if lim.Num? then Some(lim.n) else None;
            Some(NewOrder(orderId, evt.symbol, side, qty, if Truthy(lim) then Limit else Market)
                   .(limitPrice := limitPrice))
  }

  /** A momentum signal, as published, becomes a limit order at the mid it
      saw, on its side, for the default quantity. */
  lemma {:induction false} MomentumSignalOrdersAtMid(sym: string, prev: real, mid: real, threshold: real, ts: real,
                                  defaultQty: real, orderId: string)
    requires Momentum.MoveSignal(sym, prev, mid, threshold).Some? && mid != 0.0
    ensures var s := Momentum.MoveSignal(sym, prev, mid, threshold).value;
            var r := BuildOrderFromSignal(SignalEvent(s, ts), defaultQty, orderId);
            && r.Some?
            && r.value.orderType == Limit && r.value.limitPrice == Some(mid)
            && (r.value.side == Buy <==> mid > prev)
            && r.value.quantity == defaultQty && r.value.symbol == sym
  {
    var s := Momentum.MoveSignal(sym, prev, mid, threshold).value;
    var p := SignalPayload(s);
    assert NestedDict(p, "features") == Some(p["features"].fields);
    assert Get(p["features"].fields, "mid") == Num(mid);
    assert NestedDict(p, "metadata") == Some(map[]);
  }

  /** A signal without a usable price (no mid, price or last) becomes a
      market order. */
  lemma {:induction false} NoPriceMeansMarket(evt: Event, defaultQty: real, orderId: string)
    requires "features" !in evt.payload && "metadata" !in evt.payload
    requires "price" !in evt.payload && "last" !in evt.payload
    ensures var r := BuildOrderFromSignal(evt, defaultQty, orderId);
            && r.Some? && r.value.orderType == Market && r.value.limitPrice.None? && r.value.quantity == defaultQty
  {
  }

  /** The risk decision as the bus carries it: order id, symbol, approval
      and the reasons' wire values (the limits dict is not modelled). */
  function ReasonValues(rs: seq<Risk.Reason>): (v: seq<Value>)
    ensures |v| == |rs|
    ensures forall i :: 0 <= i < |rs| ==> v[i] == Str(Risk.ReasonName(rs[i]))
  {
    if rs == [] then [] else ReasonValues(rs[..|rs| - 1]) + [Str(Risk.ReasonName(rs[|rs| - 1]))]
  }

  function DecisionEvent(d: Risk.RiskDecision, now: real): (e: Event)
    ensures e.eventType == "risk_decision" && e.source == "risk" && e.symbol == d.symbol
    ensures e.payload.Keys == {"order_id", "symbol", "approved", "reasons"}
    ensures e.payload["approved"] == Num(if d.approved then 1.0 else 0.0)
    ensures e.payload["reasons"] == List(ReasonValues(d.reasons))
  {
    Event("risk_decision", now, "risk", d.symbol,
          map["order_id" := Str(d.orderId), "symbol" := Str(d.symbol),
              "approved" := Num(if d.approved then 1.0 else 0.0), "reasons" := List(ReasonValues(d.reasons))])
  }

  /** One observable step of the gate, in the order it happens. */
  datatype Step = Published(event: Event) | Submitted(order: OrderRequest)

  class SignalPipeline {
    const risk: Risk.RiskEngine
    const router: ExecutionRouting.ExecutionRouter
    const defaultQty: real
    /** Every decision published and every order submitted, in order. */
    var trail: seq<Step>

    constructor (risk: Risk.RiskEngine, router: ExecutionRouting.ExecutionRouter, defaultQty: real)
      ensures this.risk == risk && this.router == router && this.defaultQty == defaultQty && trail == []
    {
      this.risk := risk;
      this.router := router;
      this.defaultQty := defaultQty;
      trail := [];
    }

    /** `on_signal` at time `now` with the generated id `orderId`: the
      decision is published first, and the order reaches the router iff the
      decision approves it. A signal that cannot become an order changes
      nothing. */
    method OnSignal(evt: Event, orderId: string, now: real) returns (d: Option<Risk.RiskDecision>)
      modifies this, risk, router
      ensures BuildOrderFromSignal(evt, defaultQty, orderId).None? ==>
                d.None? && trail == old(trail) && router.calls == old(router.calls) && router.orders == old(router.orders)
                && risk.history == old(risk.history) && risk.exposure == old(risk.exposure)
      ensures BuildOrderFromSignal(evt, defaultQty, orderId).Some? ==>
                var o := BuildOrderFromSignal(evt, defaultQty, orderId).value;
                && d.Some? && d.value.orderId == o.orderId && d.value.symbol == o.symbol
                && (d.value.approved <==> d.value.reasons == [])
                && d.value.reasons == Risk.Reasons(old(risk.killSwitchEngaged), risk.limits, old(risk.ExposureOf(o.symbol)), o,
                                                   Risk.Throttle(old(risk.HistoryOf(o.symbol)), now, risk.limits.throttleMax).1)
                && trail == old(trail) + [Published(DecisionEvent(d.value, now))]
                                       + (if d.value.approved then [Submitted(o)] else [])
                && router.calls == old(router.calls) + (if d.value.approved then [ExecutionRouting.Send(o)] else [])
                && router.orders == (if d.value.approved then old(router.orders)[o.orderId := o] else old(router.orders))
                && risk.history == old(risk.history)[o.symbol := Risk.Throttle(old(risk.HistoryOf(o.symbol)), now, risk.limits.throttleMax).0]
                && risk.exposure == (if d.value.approved then old(risk.exposure)[o.symbol := old(risk.ExposureOf(o.symbol)) + Risk.Signed(o)]
                                     else old(risk.exposure))
      ensures risk.killSwitchEngaged == old(risk.killSwitchEngaged)
      ensures router.published == old(router.published)
    {
      var built := BuildOrderFromSignal(evt, defaultQty, orderId);
      if built.None? {
        d := None;
        return;
      }
      var o := built.value;
      var decision := risk.Evaluate(o, now);
      trail := trail + [Published(DecisionEvent(decision, now))];
      if decision.approved {
        router.Submit(o);
        trail := trail + [Submitted(o)];
      }
      d := Some(decision);
    }
  }

  /** A buy signal carrying a mid of 100 and nothing else. */
  function BuyAtHundred(): Event
  {
    Event("signal", 0.0, "strategy", "ES", map["direction" := Str("buy"), "features" := Dict(map["mid" := Num(100.0)])])
  }

  lemma {:induction false} BuyAtHundredBuilds(orderId: string)
    ensures BuildOrderFromSignal(BuyAtHundred(), 1.0, orderId) == Some(NewOrder(orderId, "ES", Buy, 1.0, Limit).(limitPrice := Some(100.0)))
  {
    var p := BuyAtHundred().payload;
    assert NestedDict(p, "features") == Some(map["mid" := Num(100.0)]);
    assert NestedDict(p, "metadata") == Some(map[]);
  }

  /** A fresh gate over the whitelist ["ES"], after approving one buy at
      100: the decision is published, then the order submitted. */
  method ApprovedFirst() returns (gate: SignalPipeline)
    ensures fresh(gate) && fresh(gate.risk) && fresh(gate.router)
    ensures gate.defaultQty == 1.0 && gate.risk != gate.router as object
    ensures |gate.trail| == 2 && gate.trail[0].Published?
    ensures gate.trail[1] == Submitted(NewOrder("o1", "ES", Buy, 1.0, Limit).(limitPrice := Some(100.0)))
    ensures |gate.router.calls| == 1
  {
    var risk := new Risk.RiskEngine(Risk.Limits(["ES"], Some(10.0), Some(100.0), 30));
    var router := new ExecutionRouting.ExecutionRouter("sim");
    gate := new SignalPipeline(risk, router, 1.0);
    BuyAtHundredBuilds("o1");
    var d := gate.OnSignal(BuyAtHundred(), "o1", 0.0);
    assert d.Some? && d.value.approved;
  }

  /** An approved order is published then submitted; once the kill switch
      is engaged, the next one is only published. */
  method GateScenario()
  {
    var gate := ApprovedFirst();
    gate.risk.EngageKillSwitch();
    BuyAtHundredBuilds("o2");
    var d := gate.OnSignal(BuyAtHundred(), "o2", 1.0);
    assert d.Some? && !d.value.approved;
    assert |gate.trail| == 3 && gate.trail[2].Published?;
    assert |gate.router.calls| == 1;
  }
}
