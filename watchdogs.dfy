/** Heartbeat watchdogs: the last time each named component was seen, and
    whether it has gone quiet for too long. The clock is the parameter
    `now` (seconds). */
module Watchdog {

  /** `is_stale` on a table of last-seen times: a name never seen is stale,
      otherwise it is stale once strictly more than `maxStale` has passed. */
  predicate Stale(lastSeen: map<string, real>, maxStale: real, name: string, now: real)
  {
    name !in lastSeen || now - lastSeen[name] > maxStale
  }

  class Watchdogs {
    /** `timedelta(seconds=max_stale_seconds)`; 5 by default. */
    const maxStale: real
    var lastSeen: map<string, real>

    constructor (maxStaleSeconds: int)
      ensures maxStale == maxStaleSeconds as real && lastSeen == map[]
    {
      maxStale := maxStaleSeconds as real;
      lastSeen := map[];
    }

    /** `heartbeat` at time `now`: only this name's time changes. */
    method Heartbeat(name: string, now: real)
      modifies this
      ensures lastSeen == old(lastSeen)[name := now]
    {
      lastSeen := lastSeen[name := now];
    }

    /** `is_stale` at time `now`. */
    method IsStale(name: string, now: real) returns (stale: bool)
      ensures stale <==> Stale(lastSeen, maxStale, name, now)
      ensures name !in lastSeen ==> stale
    {
      if name !in lastSeen {
        return true;
      }
      stale := now - lastSeen[name] > maxStale;
    }
  }

  /** A heartbeat keeps its name fresh for exactly `maxStale` seconds (for a
      non-negative limit) and says nothing about any other name. */
  lemma {:induction false} HeartbeatFreshness(lastSeen: map<string, real>, maxStale: real, name: string, other: string, t: real, now: real)
    requires name != other
    ensures !Stale(lastSeen[name := t], maxStale, name, now) <==> now - t <= maxStale
    ensures Stale(lastSeen[name := t], maxStale, other, now) <==> Stale(lastSeen, maxStale, other, now)
  {
  }

  /** One second allowed: a heartbeat at 10 is fresh at 11 and stale just
      after; a name with no heartbeat is stale. */
  method WatchdogScenario()
  {
    var w := new Watchdogs(1);
    w.Heartbeat("feed", 10.0);
    var s1 := w.IsStale("feed", 11.0);
    var s2 := w.IsStale("feed", 11.5);
    var s3 := w.IsStale("ui", 10.0);
    assert !s1 && s2 && s3;
  }
}
