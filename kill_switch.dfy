/** The kill switch: once engaged it notifies every registered listener, in
    registration order, exactly once until it is reset. Listeners are
    identified by id; a raising listener is logged and skipped. */
module KillSwitches {
  type ListenerId = nat

  class KillSwitch {
    var engaged: bool
    var listeners: seq<ListenerId>
    /** Every listener call made so far, in order. */
    var calls: seq<ListenerId>

    constructor ()
      ensures !engaged && listeners == [] && calls == []
    {
      engaged := false;
      listeners := [];
      calls := [];
    }

    /** `register`: the listener goes to the end of the list. */
    method Register(fn: ListenerId)
      modifies this
      ensures listeners == old(listeners) + [fn]
      ensures engaged == old(engaged) && calls == old(calls)
    {
      listeners := listeners + [fn];
    }

    /** `engage`: a no-op when already engaged; otherwise every listener is
      called once, in order, whether or not an earlier one raised. */
    method Engage()
      modifies this
      ensures engaged && listeners == old(listeners)
      ensures old(engaged) ==> calls == old(calls)
      ensures !old(engaged) ==> calls == old(calls) + old(listeners)
    {
      if engaged {
        return;
      }
      engaged := true;
      var i := 0;
      while i < |listeners|
        invariant 0 <= i <= |listeners|
        invariant engaged && listeners == old(listeners)
        invariant calls == old(calls) + listeners[..i]
      {
        calls := calls + [listeners[i]];
        assert listeners[..i + 1] == listeners[..i] + [listeners[i]];
        i := i + 1;
      }
      assert listeners[..i] == listeners;
    }

    /** `reset`: the listeners stay registered. */
    method Reset()
      modifies this
      ensures !engaged && listeners == old(listeners) && calls == old(calls)
    {
      engaged := false;
    }
  }

  /** Engaging twice notifies once; after a reset, engaging notifies again. */
  method EngageResetScenario(a: ListenerId, b: ListenerId)
  {
    var k := new KillSwitch();
    k.Register(a);
    k.Register(b);
    k.Engage();
    k.Engage();
    assert k.calls == [a, b];
    k.Reset();
    k.Engage();
    assert k.calls == [a, b, a, b];
  }
}
