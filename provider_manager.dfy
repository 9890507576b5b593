/** The provider manager: a fixed registry of market-data providers, at most
    one of which is active. Providers are reduced to a started flag each;
    every start and stop call on them is recorded in order. */
module ProviderManager {
  import opened Common

  const Registry: set<string> := {"SIM", "IBKR", "CME", "BINANCE", "OKX"}

  /** A call the manager makes on a provider. */
  datatype ProviderCall = StartCall(name: string) | StopCall(name: string)

  /** What the manager and its providers amount to. */
  datatype Lifecycle = Lifecycle(active: Option<string>, started: set<string>)

  /** Every started provider is the active one, and the active one is
      registered. */
  predicate Consistent(s: Lifecycle)
  {
    && (forall n :: n in s.started ==> s.active == Some(n))
    && (s.active.Some? ==> s.active.value in Registry)
  }

  /** The calls `start(name)` makes on providers: stop the active one, then
      start the named one; nothing for an unknown name. */
  function StartCalls(s: Lifecycle, name: string): (calls: seq<ProviderCall>)
    ensures name !in Registry ==> calls == []
    ensures name in Registry && s.active.Some? ==> calls == [StopCall(s.active.value), StartCall(name)]
    ensures name in Registry && s.active.None? ==> calls == [StartCall(name)]
  {
    if name !in Registry then []
    else (if s.active.Some? then [StopCall(s.active.value)] else []) + [StartCall(name)]
  }

  function Apply(s: Lifecycle, c: ProviderCall): Lifecycle
  {
    match c
    case StartCall(n) => s.(started := s.started + {n})
    case StopCall(n) => s.(started := s.started - {n})
  }

  function ApplyAll(s: Lifecycle, cs: seq<ProviderCall>): Lifecycle
    decreases |cs|
  {
    if cs == [] then s else ApplyAll(Apply(s, cs[0]), cs[1..])
  }

  /** `start(name)`: `None` when the name is unknown (the source raises
      `ValueError`), otherwise the new lifecycle. */
  function Start(s: Lifecycle, name: string): (r: Option<Lifecycle>)
    ensures name !in Registry <==> r.None?
    ensures r.Some? ==> r.value.active == Some(name)
  {
    if name !in Registry then None
    else Some(ApplyAll(s, StartCalls(s, name)).(active := Some(name)))
  }

  /** `stop()`: stop the active provider and clear the active fields. */
  function Stop(s: Lifecycle): (r: Lifecycle)
    ensures r.active.None?
  {
    (if s.active.Some? then Apply(s, StopCall(s.active.value)) else s).(active := None)
  }

  /** `switch(name)` is `start(name)`. */
  function Switch(s: Lifecycle, name: string): Option<Lifecycle>
  {
    Start(s, name)
  }

  /** Starting keeps at most one provider running, and that one is the
      requested provider. */
  lemma {:induction false} StartConsistent(s: Lifecycle, name: string)
    requires Consistent(s)
    requires name in Registry
    ensures Start(s, name).Some?
    ensures Consistent(Start(s, name).value)
    ensures Start(s, name).value.started == {name}
  {
    StartCallsEffect(s, name);
    if s.active.Some? {
      assert s.started <= {s.active.value};
    } else {
      assert s.started == {};
    }
  }

  /** Replaying the calls of `start(name)` stops the active provider, then
      starts the named one. */
  lemma {:induction false} StartCallsEffect(s: Lifecycle, name: string)
    requires name in Registry
    ensures ApplyAll(s, StartCalls(s, name)).active == s.active
    ensures ApplyAll(s, StartCalls(s, name)).started ==
            (if s.active.Some? then s.started - {s.active.value} else s.started) + {name}
  {
    var calls := StartCalls(s, name);
    if s.active.Some? {
      var s1 := Apply(s, calls[0]);
      assert calls[1..] == [StartCall(name)];
      assert ApplyAll(s1, calls[1..]) == ApplyAll(Apply(s1, StartCall(name)), []);
    } else {
      assert ApplyAll(s, calls) == ApplyAll(Apply(s, StartCall(name)), []);
    }
  }

  /** Stopping leaves no provider running. */
  lemma {:induction false} StopConsistent(s: Lifecycle)
    requires Consistent(s)
    ensures Consistent(Stop(s))
    ensures Stop(s).started == {}
  {
    if s.active.Some? {
      assert s.started <= {s.active.value};
    } else {
      assert s.started == {};
    }
  }

  datatype Command = StartCmd(name: string) | StopCmd | SwitchCmd(name: string)

  /** One manager call; a failed start leaves everything as it was. */
  function Step(s: Lifecycle, c: Command): Lifecycle
  {
    match c
    case StopCmd => Stop(s)
    case StartCmd(n) => (match Start(s, n) case Some(t) => t case None => s)
    case SwitchCmd(n) => (match Switch(s, n) case Some(t) => t case None => s)
  }

  function Run(s: Lifecycle, cmds: seq<Command>): Lifecycle
    decreases |cmds|
  {
    if cmds == [] then s else Run(Step(s, cmds[0]), cmds[1..])
  }

  lemma {:induction false} StepConsistent(s: Lifecycle, c: Command)
    requires Consistent(s)
    ensures Consistent(Step(s, c))
  {
    match c
    case StopCmd => StopConsistent(s);
    case StartCmd(n) => if n in Registry { StartConsistent(s, n); }
    case SwitchCmd(n) => if n in Registry { StartConsistent(s, n); }
  }

  /** After any sequence of starts, switches and stops, at most one provider
      is started, and it is the active one. */
  lemma {:induction false} AtMostOneStarted(s: Lifecycle, cmds: seq<Command>)
    requires Consistent(s)
    ensures Consistent(Run(s, cmds))
    ensures forall a, b :: a in Run(s, cmds).started && b in Run(s, cmds).started ==> a == b
    decreases |cmds|
  {
    if cmds != [] {
      StepConsistent(s, cmds[0]);
      AtMostOneStarted(Step(s, cmds[0]), cmds[1..]);
    }
  }

  class Manager {
    var active: Option<string>
    var started: set<string>
    /** Every start/stop call made on a provider, in order. */
    var calls: seq<ProviderCall>

    function State(): Lifecycle
      reads this
    {
      Lifecycle(active, started)
    }

    constructor ()
      ensures active.None? && started == {} && calls == []
      ensures Consistent(State())
    {
      active := None;
      started := {};
      calls := [];
    }

    method StartProvider(name: string) returns (ok: bool)
      modifies this
      ensures ok <==> name in Registry
      ensures ok ==> Some(State()) == Start(old(State()), name)
      ensures ok ==> calls == old(calls) + StartCalls(old(State()), name)
      ensures !ok ==> State() == old(State()) && calls == old(calls)
    {
      if name !in Registry {
        return false;
      }
      if active.Some? {
        started := started - {active.value};
        calls := calls + [StopCall(active.value)];
      }
      active := Some(name);
      started := started + {name};
      calls := calls + [StartCall(name)];
      ok := true;
      StartCallsEffect(old(State()), name);
    }

    method StopProvider()
      modifies this
      ensures State() == Stop(old(State()))
      ensures calls == old(calls) + (if old(active).Some? then [StopCall(old(active).value)] else [])
    {
      if active.Some? {
        started := started - {active.value};
        calls := calls + [StopCall(active.value)];
      }
      active := None;
    }

    method SwitchProvider(name: string) returns (ok: bool)
      modifies this
      ensures ok <==> name in Registry
      ensures ok ==> Some(State()) == Switch(old(State()), name)
      ensures ok ==> calls == old(calls) + StartCalls(old(State()), name)
      ensures !ok ==> State() == old(State()) && calls == old(calls)
    {
      ok := StartProvider(name);
    }
  }

  /** Start SIM, switch to IBKR, stop: the active name follows each call and
      SIM is stopped before IBKR starts. */
  method SwitchScenario() returns (afterStart: Option<string>, afterSwitch: Option<string>, calls: seq<ProviderCall>)
    ensures afterStart == Some("SIM") && afterSwitch == Some("IBKR")
    ensures calls == [StartCall("SIM"), StopCall("SIM"), StartCall("IBKR"), StopCall("IBKR")]
  {
    var m := new Manager();
    var ok := m.StartProvider("SIM");
    afterStart := m.active;
    ok := m.SwitchProvider("IBKR");
    afterSwitch := m.active;
    m.StopProvider();
    calls := m.calls;
  }
}
