/** The simple strategy: each delta update becomes a `strategy_signal`,
    buy or sell beyond the threshold and flat in between. */
module SimpleStrategy {
  import opened Common
  import EventBus

  /** The payload of a `strategy_signal` event, without its timestamp. */
  datatype StrategySignal = StrategySignal(symbol: string, direction: string, score: real, reason: string, delta: real)

  /** `delta or cumulative_delta or 0.0`, converted; 0 when `float()` raises. */
  function ParseDelta(p: Payload): (d: real)
    ensures Truthy(Get(p, "delta")) && Get(p, "delta").Num? ==> d == Get(p, "delta").n
    ensures Truthy(Get(p, "delta")) && ToReal(Get(p, "delta")).None? ==> d == 0.0
    ensures !Truthy(Get(p, "delta")) && Truthy(Get(p, "cumulative_delta")) ==>
              d == (if ToReal(Get(p, "cumulative_delta")).Some? then ToReal(Get(p, "cumulative_delta")).value else 0.0)
    ensures !Truthy(Get(p, "delta")) && !Truthy(Get(p, "cumulative_delta")) ==> d == 0.0
  {
    match ToReal(Or(Or(Get(p, "delta"), Get(p, "cumulative_delta")), Num(0.0)))
    case Some(x) => x
    case None => 0.0
  }

  /** The signal for a delta; `None` when the threshold is 0, where either
      branch divides by zero. */
  function Classify(sym: string, delta: real, threshold: real): (r: Option<StrategySignal>)
    ensures r.None? <==> threshold == 0.0
    ensures r.Some? ==> r.value.symbol == sym && r.value.delta == delta
    ensures r.Some? ==> (r.value.direction == "buy" <==> delta >= threshold)
    ensures r.Some? ==> (r.value.direction == "sell" <==> delta < threshold && delta <= -threshold)
    ensures r.Some? && r.value.direction == "buy" ==> r.value.reason == "delta_breakout" && r.value.score * threshold == delta
    ensures r.Some? && r.value.direction == "sell" ==> r.value.reason == "delta_breakdown" && r.value.score * threshold == delta
    ensures r.Some? && r.value.direction != "buy" && r.value.direction != "sell" ==>
              r.value.direction == "flat" && r.value.score == 0.0 && r.value.reason == "neutral"
  {
    if delta >= threshold then
      (if threshold == 0.0 then None else Some(StrategySignal(sym, "buy", delta / threshold, "delta_breakout", delta)))
    else if delta <= -threshold then
      (if threshold == 0.0 then None else Some(StrategySignal(sym, "sell", delta / threshold, "delta_breakdown", delta)))
    else if threshold == 0.0 then None
    else Some(StrategySignal(sym, "flat", 0.0, "neutral", delta))
  }

  /** With a positive threshold a buy scores at least 1 and a sell at most
      -1. */
  lemma {:induction false} ScoreBeyondOne(sym: string, delta: real, threshold: real)
    requires threshold > 0.0
    ensures var r := Classify(sym, delta, threshold).value;
            && (r.direction == "buy" ==> r.score >= 1.0)
            && (r.direction == "sell" ==> r.score <= -1.0)
  {
    var r := Classify(sym, delta, threshold).value;
    if r.direction == "buy" {
      assert r.score * threshold >= 1.0 * threshold;
    } else if r.direction == "sell" {
      assert r.score * threshold <= -1.0 * threshold;
    }
  }

  class SimpleStrategyEngine {
    /** The source's default is 50. */
    const deltaThreshold: real
    /** Every `strategy_signal` published, in order. */
    var published: seq<StrategySignal>

    /** `on_delta` (the callback `cb`) is subscribed to "delta_update". */
    constructor (bus: EventBus.Bus, deltaThreshold: real, cb: EventBus.CallbackId)
      modifies bus
      ensures this.deltaThreshold == deltaThreshold && published == []
      ensures bus.subscribers == EventBus.SubscribeAll(old(bus.subscribers), ["delta_update"], cb)
      ensures bus.queue == old(bus.queue) && bus.running == old(bus.running) && bus.calls == old(bus.calls)
    {
      this.deltaThreshold := deltaThreshold;
      published := [];
      new;
      bus.Subscribe(EventBus.One("delta_update"), cb);
    }

    /** `on_delta`: exactly one signal per update, flat ones included. */
    method OnDelta(e: Event) returns (r: Option<StrategySignal>)
      modifies this
      ensures r == Classify(e.symbol, ParseDelta(e.payload), deltaThreshold)
      ensures deltaThreshold != 0.0 ==> |published| == |old(published)| + 1
      ensures published == old(published) + Emitted(r)
    {
      r := Classify(e.symbol, ParseDelta(e.payload), deltaThreshold);
      published := published + Emitted(r);
    }
  }
}
