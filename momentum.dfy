/** The mid-price momentum strategy: per symbol, the last mid from tick
    events; a move of at least the threshold from a known mid becomes a buy
    or sell signal. */
module Momentum {
  import opened Common
  import opened Signals
  import EventBus

  /** `mid or price or last`, converted; `None` when it is `None` (ignored)
      or `float()` raises. */
  function TickMid(p: Payload): (r: Option<real>)
    ensures Truthy(Get(p, "mid")) ==> r == ToReal(Get(p, "mid"))
    ensures !Truthy(Get(p, "mid")) && Truthy(Get(p, "price")) ==> r == ToReal(Get(p, "price"))
    ensures !Truthy(Get(p, "mid")) && !Truthy(Get(p, "price")) && Get(p, "last") != Null ==> r == ToReal(Get(p, "last"))
    ensures !Truthy(Get(p, "mid")) && !Truthy(Get(p, "price")) && Get(p, "last") == Null ==> r.None?
  {
    var m := Or(Or(Get(p, "mid"), Get(p, "price")), Get(p, "last"));
    if m == Null then None else ToReal(m)
  }

  /** The signal for a move from `prev` to `mid`: none from an unknown (zero)
      mid or for a move smaller than the threshold; the score is the move and
      the confidence the move relative to the previous mid, capped at 1. */
  function MoveSignal(sym: string, prev: real, mid: real, threshold: real): (r: Option<Signal>)
    ensures r.Some? <==> prev != 0.0 && Abs(mid - prev) >= threshold
    ensures r.Some? ==> (r.value.direction == "buy" <==> mid > prev)
    ensures r.Some? ==> (r.value.direction == "sell" <==> mid <= prev)
    ensures r.Some? ==> r.value.score == mid - prev && r.value.symbol == sym
    ensures r.Some? ==> 0.0 <= r.value.confidence <= 1.0
    ensures r.Some? ==> r.value.features == map["mid" := mid, "prev_mid" := prev, "delta" := mid - prev]
  {
    if prev == 0.0 then None
    else
      var delta := mid - prev;
      if Abs(delta) < threshold then None
      else
        Some(Signal(sym, if delta > 0.0 then "buy" else "sell", delta,
                    Min(1.0, Abs(delta) / (Abs(prev) + 0.000001)),
                    map["mid" := mid, "prev_mid" := prev, "delta" := delta], map[]))
  }

  const SubscribedTypes: seq<string> := ["tick", "trade", "dom_delta", "dom_snapshot"]

  class MicroPriceMomentumStrategy {
    /** The source's default threshold is 0. */
    const threshold: real
    var lastMid: map<string, real>
    /** Every `signal` published, in order. */
    var published: seq<Signal>

    constructor (symbols: seq<string>, threshold: real)
      ensures this.threshold == threshold && published == []
      ensures lastMid == map s | s in symbols :: 0.0
    {
      this.threshold := threshold;
      lastMid := map s | s in symbols :: 0.0;
      published := [];
    }

    function PrevMid(sym: string): real
      reads this
    {
      if sym in lastMid then lastMid[sym] else 0.0
    }

    /** `on_event`: only ticks with a readable mid count; the mid is stored
      before any signal check. */
    method OnEvent(e: Event) returns (r: Option<Signal>)
      modifies this
      ensures e.eventType != "tick" || TickMid(e.payload).None? ==> r.None? && lastMid == old(lastMid)
      ensures e.eventType == "tick" && TickMid(e.payload).Some? ==>
                lastMid == old(lastMid)[e.symbol := TickMid(e.payload).value] &&
                r == MoveSignal(e.symbol, old(PrevMid(e.symbol)), TickMid(e.payload).value, threshold)
      ensures published == old(published) + Emitted(r)
    {
      if e.eventType != "tick" {
        return None;
      }
      var mid := TickMid(e.payload);
      if mid.None? {
        return None;
      }
      var prev := PrevMid(e.symbol);
      lastMid := lastMid[e.symbol := mid.value];
      r := MoveSignal(e.symbol, prev, mid.value, threshold);
      published := published + Emitted(r);
    }

    /** `on_start`: subscribes `on_event` to ticks, trades and DOM events. */
    method Start(bus: EventBus.Bus, cb: EventBus.CallbackId)
      modifies bus
      ensures bus.subscribers == EventBus.SubscribeAll(old(bus.subscribers), SubscribedTypes, cb)
      ensures bus.queue == old(bus.queue) && bus.running == old(bus.running) && bus.calls == old(bus.calls)
    {
      var i := 0;
      while i < |SubscribedTypes|
        invariant 0 <= i <= |SubscribedTypes|
        invariant EventBus.SubscribeAll(old(bus.subscribers), SubscribedTypes, cb) ==
                  EventBus.SubscribeAll(bus.subscribers, SubscribedTypes[i..], cb)
        invariant bus.queue == old(bus.queue) && bus.running == old(bus.running) && bus.calls == old(bus.calls)
      {
        assert SubscribedTypes[i..][0] == SubscribedTypes[i] && SubscribedTypes[i..][1..] == SubscribedTypes[i + 1..];
        bus.Subscribe(EventBus.One(SubscribedTypes[i]), cb);
        i := i + 1;
      }
    }
  }

  /** Mids 100 then 101 on a watched symbol with threshold 0: the first tick
      only records the mid, the second emits a buy scored 1. */
  method UpTickScenario()
  {
    var s := new MicroPriceMomentumStrategy(["TEST"], 0.0);
    var r1 := s.OnEvent(Event("tick", 0.0, "test", "TEST", map["mid" := Num(100.0)]));
    assert r1.None?;
    var r2 := s.OnEvent(Event("tick", 1.0, "test", "TEST", map["mid" := Num(101.0)]));
    assert r2.Some? && r2.value.direction == "buy" && r2.value.score == 1.0;
  }
}
