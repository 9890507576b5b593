/** The event bus as a sequential machine: a subscription table from event type
    to an ordered list of callback ids (with the wildcard "*"), a FIFO queue
    holding events and the shutdown sentinel, and a running flag. The worker
    thread becomes explicit dispatch steps; a callback that raises becomes a
    failure flag on the recorded call. */
module EventBus {
  import opened Common

  type CallbackId = nat

  const Wildcard: string := "*"

  /** What the queue holds: an event, or the `None` that `stop` enqueues. */
  datatype QueueItem = Sentinel | Item(event: Event)

  /** One callback invocation, and whether it raised. */
  datatype Call = Call(callback: CallbackId, event: Event, raised: bool)

  /** `subscribe` takes one event type or an iterable of them. */
  datatype Topic = One(eventType: string) | Many(eventTypes: seq<string>)

  /** Decides, for the model, which invocation raises. */
  type Raises = (CallbackId, Event) -> bool

  function Lookup(subs: map<string, seq<CallbackId>>, t: string): seq<CallbackId>
  {
    if t in subs then subs[t] else []
  }

  function TopicTypes(topic: Topic): (ts: seq<string>)
    ensures topic.One? ==> ts == [topic.eventType]
    ensures topic.Many? ==> ts == topic.eventTypes
  {
    match topic
    case One(t) => [t]
    case Many(ts) => ts
  }

  /** The table after appending `cb` under each of `ts`, in order. */
  function SubscribeAll(subs: map<string, seq<CallbackId>>, ts: seq<string>, cb: CallbackId): map<string, seq<CallbackId>>
    decreases |ts|
  {
    if ts == [] then subs
    else SubscribeAll(subs[ts[0] := Lookup(subs, ts[0]) + [cb]], ts[1..], cb)
  }

  function Count(ts: seq<string>, t: string): nat
  {
    if ts == [] then 0 else (if ts[0] == t then 1 else 0) + Count(ts[1..], t)
  }

  function Repeat(cb: CallbackId, n: nat): (r: seq<CallbackId>)
    ensures |r| == n && forall i :: 0 <= i < n ==> r[i] == cb
  {
    if n == 0 then [] else [cb] + Repeat(cb, n - 1)
  }

  /** Every list in the table gains `cb` once per occurrence of its type in
      `ts`, appended after the callbacks registered before. */
  lemma {:induction false} SubscribeAllLookup(subs: map<string, seq<CallbackId>>, ts: seq<string>, cb: CallbackId, t: string)
    ensures Lookup(SubscribeAll(subs, ts, cb), t) == Lookup(subs, t) + Repeat(cb, Count(ts, t))
    decreases |ts|
  {
    if ts != [] {
      var subs' := subs[ts[0] := Lookup(subs, ts[0]) + [cb]];
      SubscribeAllLookup(subs', ts[1..], cb, t);
      if ts[0] == t {
        assert Repeat(cb, Count(ts, t)) == [cb] + Repeat(cb, Count(ts[1..], t));
      }
    }
  }

  /** `subscribe("tick", cb)` appends `cb` to the "tick" list and to no other. */
  lemma {:induction false} SubscribeOneType(subs: map<string, seq<CallbackId>>, t: string, cb: CallbackId, u: string)
    ensures Lookup(SubscribeAll(subs, TopicTypes(One(t)), cb), u) ==
            if u == t then Lookup(subs, t) + [cb] else Lookup(subs, u)
  {
    SubscribeAllLookup(subs, [t], cb, u);
    assert Count([t], u) == if u == t then 1 else 0 by {
      assert [t][1..] == [];
    }
  }

  /** The callbacks an event of type `t` reaches: exact-type subscribers,
      then wildcard subscribers (both lists, so "*" itself sees them twice). */
  function Targets(subs: map<string, seq<CallbackId>>, t: string): seq<CallbackId>
  {
    Lookup(subs, t) + Lookup(subs, Wildcard)
  }

  function CallsFor(cbs: seq<CallbackId>, e: Event, raises: Raises): (r: seq<Call>)
    ensures |r| == |cbs|
    ensures forall i :: 0 <= i < |r| ==> r[i] == Call(cbs[i], e, raises(cbs[i], e))
  {
    if cbs == [] then [] else [Call(cbs[0], e, raises(cbs[0], e))] + CallsFor(cbs[1..], e, raises)
  }

  /** The calls made when the worker takes `item` off the queue. */
  function Delivered(subs: map<string, seq<CallbackId>>, item: QueueItem, raises: Raises): seq<Call>
  {
    match item
    case Sentinel => []
    case Item(e) => if e.eventType == "" then [] else CallsFor(Targets(subs, e.eventType), e, raises)
  }

  /** The calls made while the worker drains `items` in FIFO order. */
  function Deliveries(subs: map<string, seq<CallbackId>>, items: seq<QueueItem>, raises: Raises): seq<Call>
    decreases |items|
  {
    if items == [] then [] else Delivered(subs, items[0], raises) + Deliveries(subs, items[1..], raises)
  }

  /** The queue after `publish`: the event goes to the back while running and
      is dropped after `stop`. */
  function Enqueue(running: bool, queue: seq<QueueItem>, e: Event): (q: seq<QueueItem>)
    ensures running ==> q == queue + [Item(e)]
    ensures !running ==> q == queue
  {
    if running then queue + [Item(e)] else queue
  }

  /** Draining is FIFO: the calls for a queue are those for its front part
      followed by those for its back part. */
  lemma {:induction false} DeliveriesAppend(subs: map<string, seq<CallbackId>>, a: seq<QueueItem>, b: seq<QueueItem>, raises: Raises)
    ensures Deliveries(subs, a + b, raises) == Deliveries(subs, a, raises) + Deliveries(subs, b, raises)
    decreases |a|
  {
    if a == [] {
      assert a + b == b;
    } else {
      assert (a + b)[0] == a[0];
      assert (a + b)[1..] == a[1..] + b;
      DeliveriesAppend(subs, a[1..], b, raises);
      calc {
        Deliveries(subs, a + b, raises);
        Delivered(subs, a[0], raises) + Deliveries(subs, a[1..] + b, raises);
        Delivered(subs, a[0], raises) + (Deliveries(subs, a[1..], raises) + Deliveries(subs, b, raises));
        (Delivered(subs, a[0], raises) + Deliveries(subs, a[1..], raises)) + Deliveries(subs, b, raises);
      }
    }
  }

  /** Each event reaches its exact-type subscribers in registration order,
      then the wildcard subscribers in registration order, every one of them
      even when earlier ones raise. */
  lemma {:induction false} DeliveredOrder(subs: map<string, seq<CallbackId>>, e: Event, raises: Raises)
    requires e.eventType != ""
    ensures |Delivered(subs, Item(e), raises)| == |Lookup(subs, e.eventType)| + |Lookup(subs, Wildcard)|
    ensures forall i :: 0 <= i < |Lookup(subs, e.eventType)| ==>
              Delivered(subs, Item(e), raises)[i].callback == Lookup(subs, e.eventType)[i]
    ensures forall i :: 0 <= i < |Lookup(subs, Wildcard)| ==>
              Delivered(subs, Item(e), raises)[|Lookup(subs, e.eventType)| + i].callback == Lookup(subs, Wildcard)[i]
    ensures forall c :: c in Delivered(subs, Item(e), raises) ==> c.event == e
  {
  }

  /** An event whose type is empty is discarded: no callback runs. */
  lemma {:induction false} UntypedDiscarded(subs: map<string, seq<CallbackId>>, e: Event, raises: Raises)
    requires e.eventType == ""
    ensures Delivered(subs, Item(e), raises) == []
  {
  }

  function Strip(calls: seq<Call>): (r: seq<(CallbackId, Event)>)
    ensures |r| == |calls|
    ensures forall i :: 0 <= i < |r| ==> r[i] == (calls[i].callback, calls[i].event)
  {
    if calls == [] then [] else [(calls[0].callback, calls[0].event)] + Strip(calls[1..])
  }

  /** A raising callback stops neither later callbacks for the same event nor
      later events: which calls happen does not depend on which of them raise. */
  lemma {:induction false} FailuresDoNotChangeDeliveries(subs: map<string, seq<CallbackId>>, items: seq<QueueItem>, r1: Raises, r2: Raises)
    ensures Strip(Deliveries(subs, items, r1)) == Strip(Deliveries(subs, items, r2))
    decreases |items|
  {
    if items != [] {
      FailuresDoNotChangeDeliveries(subs, items[1..], r1, r2);
      var a1, a2 := Delivered(subs, items[0], r1), Delivered(subs, items[0], r2);
      var b1, b2 := Deliveries(subs, items[1..], r1), Deliveries(subs, items[1..], r2);
      assert Strip(a1) == Strip(a2);
      StripAppend(a1, b1);
      StripAppend(a2, b2);
    }
  }

  lemma {:induction false} StripAppend(a: seq<Call>, b: seq<Call>)
    ensures Strip(a + b) == Strip(a) + Strip(b)
  {
    assert Strip(a + b) == Strip(a) + Strip(b);
  }

  /** Events queued before `stop` are still dispatched: the sentinel adds no
      calls, so draining the stopped queue makes the calls of the events. */
  lemma {:induction false} StopKeepsQueuedDeliveries(subs: map<string, seq<CallbackId>>, queue: seq<QueueItem>, raises: Raises)
    ensures Deliveries(subs, queue + [Sentinel], raises) == Deliveries(subs, queue, raises)
  {
    DeliveriesAppend(subs, queue, [Sentinel], raises);
    assert Deliveries(subs, [Sentinel], raises) == [] by {
      assert [Sentinel][1..] == [];
    }
  }

  /** An event published after `stop` is never dispatched: whatever the
      queue held, draining it makes the same calls as without the publish. */
  lemma {:induction false} PublishAfterStopNeverDelivered(subs: map<string, seq<CallbackId>>, queue: seq<QueueItem>, e: Event, raises: Raises)
    ensures Deliveries(subs, Enqueue(false, queue, e), raises) == Deliveries(subs, queue, raises)
  {
  }

  class Bus {
    var subscribers: map<string, seq<CallbackId>>
    var queue: seq<QueueItem>
    var running: bool
    /** Every callback invocation so far, in order. */
    var calls: seq<Call>

    constructor ()
      ensures subscribers == map[] && queue == [] && running && calls == []
    {
      subscribers := map[];
      queue := [];
      running := true;
      calls := [];
    }

    method Subscribe(topic: Topic, cb: CallbackId)
      modifies this
      ensures subscribers == SubscribeAll(old(subscribers), TopicTypes(topic), cb)
      ensures queue == old(queue) && running == old(running) && calls == old(calls)
    {
      var ts := TopicTypes(topic);
      var i := 0;
      while i < |ts|
        invariant 0 <= i <= |ts|
        invariant SubscribeAll(old(subscribers), ts, cb) == SubscribeAll(subscribers, ts[i..], cb)
        invariant queue == old(queue) && running == old(running) && calls == old(calls)
      {
        assert ts[i..][0] == ts[i] && ts[i..][1..] == ts[i + 1..];
        subscribers := subscribers[ts[i] := Lookup(subscribers, ts[i]) + [cb]];
        i := i + 1;
      }
    }

    method Publish(e: Event)
      modifies this
      ensures queue == Enqueue(old(running), old(queue), e)
      ensures subscribers == old(subscribers) && running == old(running) && calls == old(calls)
    {
      if !running {
        return;
      }
      queue := queue + [Item(e)];
    }

    /** One turn of the worker loop: take the front item, if any, and run
      its callbacks. */
    method DispatchStep(raises: Raises)
      modifies this
      ensures old(queue) == [] ==> queue == [] && calls == old(calls)
      ensures old(queue) != [] ==> queue == old(queue)[1..] && calls == old(calls) + Delivered(subscribers, old(queue)[0], raises)
      ensures subscribers == old(subscribers) && running == old(running)
    {
      if queue == [] {
        return;
      }
      var item := queue[0];
      queue := queue[1..];
      if item.Sentinel? {
        return;
      }
      var e := item.event;
      if e.eventType == "" {
        return;
      }
      var callbacks := Lookup(subscribers, e.eventType) + Lookup(subscribers, Wildcard);
      var i := 0;
      while i < |callbacks|
        invariant 0 <= i <= |callbacks|
        invariant calls == old(calls) + CallsFor(callbacks[..i], e, raises)
        invariant queue == old(queue)[1..] && subscribers == old(subscribers) && running == old(running)
      {
        assert callbacks[..i + 1] == callbacks[..i] + [callbacks[i]];
        CallsForAppend(callbacks[..i], [callbacks[i]], e, raises);
        calls := calls + [Call(callbacks[i], e, raises(callbacks[i], e))];
        i := i + 1;
      }
      assert callbacks[..i] == callbacks;
    }

    /** The worker running until the queue is empty. */
    method Drain(raises: Raises)
      modifies this
      ensures queue == []
      ensures calls == old(calls) + Deliveries(subscribers, old(queue), raises)
      ensures subscribers == old(subscribers) && running == old(running)
    {
      ghost var subs, total := subscribers, calls + Deliveries(subscribers, queue, raises);
      while queue != []
        invariant subscribers == subs && running == old(running)
        invariant calls + Deliveries(subs, queue, raises) == total
        decreases |queue|
      {
        ghost var before, done := queue, calls;
        DispatchStep(raises);
        DrainStep(subs, before, done, calls, queue, raises);
      }
      assert Deliveries(subs, queue, raises) == [];
    }

    method Stop()
      modifies this
      ensures old(running) ==> !running && queue == old(queue) + [Sentinel]
      ensures !old(running) ==> !running && queue == old(queue)
      ensures subscribers == old(subscribers) && calls == old(calls)
    {
      if !running {
        return;
      }
      running := false;
      queue := queue + [Sentinel];
    }
  }

  lemma {:induction false} DrainStep(subs: map<string, seq<CallbackId>>, before: seq<QueueItem>, done: seq<Call>,
                  calls: seq<Call>, queue: seq<QueueItem>, raises: Raises)
    requires before != [] && queue == before[1..]
    requires calls == done + Delivered(subs, before[0], raises)
    ensures calls + Deliveries(subs, queue, raises) == done + Deliveries(subs, before, raises)
  {
    var d := Delivered(subs, before[0], raises);
    var rest := Deliveries(subs, queue, raises);
    assert Deliveries(subs, before, raises) == d + rest;
  }

  lemma {:induction false} CallsForAppend(a: seq<CallbackId>, b: seq<CallbackId>, e: Event, raises: Raises)
    ensures CallsFor(a + b, e, raises) == CallsFor(a, e, raises) + CallsFor(b, e, raises)
  {
  }

  /** A whole run: events published while running, then `stop`, then the
      worker drains; a later publish is dropped and a second `stop` is a
      no-op. Every queued event still reaches its subscribers. */
  method StopThenDrainScenario(e1: Event, e2: Event, late: Event, raises: Raises)
    returns (bus: Bus)
    ensures bus.queue == [] && !bus.running
    ensures bus.calls == Deliveries(bus.subscribers, [Item(e1), Item(e2)], raises)
  {
    bus := new Bus();
    bus.Publish(e1);
    bus.Publish(e2);
    bus.Stop();
    bus.Publish(late);
    bus.Stop();
    assert bus.queue == [Item(e1), Item(e2)] + [Sentinel];
    StopKeepsQueuedDeliveries(bus.subscribers, [Item(e1), Item(e2)], raises);
    bus.Drain(raises);
  }
}
