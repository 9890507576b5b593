/** IBKR connection health: when the last tick and the last DOM update were
    seen. The clock (`time.time()`) is the parameter `now`. */
module IbkrHealth {

  /** Stale only when both feeds are older than `maxAge`. */
  predicate StaleAt(lastTickTs: real, lastDomTs: real, now: real, maxAge: real)
  {
    now - lastTickTs > maxAge && now - lastDomTs > maxAge
  }

  class IBKRHealth {
    var lastTickTs: real
    var lastDomTs: real
    var reconnectAttempts: int

    constructor ()
      ensures lastTickTs == 0.0 && lastDomTs == 0.0 && reconnectAttempts == 0
    {
      lastTickTs := 0.0;
      lastDomTs := 0.0;
      reconnectAttempts := 0;
    }

    method RecordTick(now: real)
      modifies this
      ensures lastTickTs == now
      ensures lastDomTs == old(lastDomTs) && reconnectAttempts == old(reconnectAttempts)
    {
      lastTickTs := now;
    }

    method RecordDom(now: real)
      modifies this
      ensures lastDomTs == now
      ensures lastTickTs == old(lastTickTs) && reconnectAttempts == old(reconnectAttempts)
    {
      lastDomTs := now;
    }

    /** `is_stale` at time `now` (the source's default age is 5 s). */
    method IsStale(now: real, maxAge: real) returns (stale: bool)
      ensures stale <==> StaleAt(lastTickTs, lastDomTs, now, maxAge)
    {
      stale := (now - lastTickTs) > maxAge && (now - lastDomTs) > maxAge;
    }
  }

  /** Either feed seen within `maxAge` keeps the connection healthy. */
  lemma {:induction false} OneFreshFeedSuffices(lastTickTs: real, lastDomTs: real, now: real, maxAge: real)
    requires now - lastTickTs <= maxAge || now - lastDomTs <= maxAge
    ensures !StaleAt(lastTickTs, lastDomTs, now, maxAge)
  {
  }

  /** A fresh health record is stale exactly once the clock is past `maxAge`. */
  method FreshRecordScenario(now: real, maxAge: real)
  {
    var h := new IBKRHealth();
    var s := h.IsStale(now, maxAge);
    assert s <==> now > maxAge;
    h.RecordDom(now);
    s := h.IsStale(now, maxAge);
    assert maxAge >= 0.0 ==> !s;
    assert h.reconnectAttempts == 0;
  }
}
