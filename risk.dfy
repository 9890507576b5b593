/** The pre-trade risk engine: a kill switch, a symbol whitelist, size and
    exposure limits and a per-symbol throttle over a sliding window. Every
    check runs and every failed one is reported, in a fixed order. The wall
    clock is the explicit parameter `now` (epoch seconds). */
module Risk {
  import opened Common
  import opened Orders

  /** The configured limits; `None` stands for the source's default of
      `float("inf")`, i.e. no limit. */
  datatype Limits = Limits(symbols: seq<string>, maxSize: Option<real>, maxExposure: Option<real>, throttleMax: int)

  /** The source's `throttle_max` default. */
  const DefaultThrottleMax: int := 30

  /** The throttle's window in seconds. */
  const ThrottleWindow: real := 60.0

  /** The reasons a decision can give, in their fixed order. */
  datatype Reason = KillSwitch | SymbolNotAllowed | SizeLimit | ExposureLimit | ThrottleExceeded

  /** The reason's wire value. */
  function ReasonName(r: Reason): string
  {
    match r
    case KillSwitch => "kill_switch"
    case SymbolNotAllowed => "symbol_not_allowed"
    case SizeLimit => "size_limit"
    case ExposureLimit => "exposure_limit"
    case ThrottleExceeded => "throttle_exceeded"
  }

  /** A risk decision; the generated id and timestamp are not modelled. */
  datatype RiskDecision = RiskDecision(orderId: string, symbol: string, approved: bool, reasons: seq<Reason>, limits: Limits)

  /** `x > limit` against an optional (possibly infinite) limit. */
  predicate Exceeds(x: real, limit: Option<real>)
  {
    limit.Some? && x > limit.value
  }

  predicate SymbolBlocked(l: Limits, sym: string) { |l.symbols| > 0 && sym !in l.symbols }
  predicate SizeBreached(l: Limits, o: OrderRequest) { Exceeds(o.quantity, l.maxSize) }

  /** The exposure check adds the quantity unsigned, whatever the side. */
  predicate ExposureBreached(l: Limits, current: real, o: OrderRequest) { Exceeds(Abs(current + o.quantity), l.maxExposure) }

  /** The timestamps still inside the window at `now`, in order. */
  function Prune(hist: seq<real>, now: real): (r: seq<real>)
    ensures |r| <= |hist|
    ensures forall t :: t in r <==> t in hist && now - t <= ThrottleWindow
  {
    if hist == [] then []
    else Prune(hist[..|hist| - 1], now) + (if now - hist[|hist| - 1] <= ThrottleWindow then [hist[|hist| - 1]] else [])
  }

  /** `_check_throttle`: the pruned history, with `now` recorded when fewer
      than `throttleMax` remain, and whether the order is allowed. */
  function Throttle(hist: seq<real>, now: real, throttleMax: int): (r: (seq<real>, bool))
    ensures r.1 <==> |Prune(hist, now)| < throttleMax
    ensures r.1 ==> r.0 == Prune(hist, now) + [now]
    ensures !r.1 ==> r.0 == Prune(hist, now)
  {
    var kept := Prune(hist, now);
    if |kept| < throttleMax then (kept + [now], true) else (kept, false)
  }

  /** `reasons.append(r)` when the check failed. */
  function Note(reasons: seq<Reason>, failed: bool, r: Reason): (rs: seq<Reason>)
    ensures forall x :: x in rs <==> x in reasons || (failed && x == r)
    ensures rs == [] <==> reasons == [] && !failed
  {
    if failed then reasons + [r] else reasons
  }

  /** The reasons, in the order kill switch, whitelist, size, exposure,
      throttle. */
  function Reasons(kill: bool, l: Limits, current: real, o: OrderRequest, throttleOk: bool): seq<Reason>
  {
    var r1 := Note([], kill, KillSwitch);
    var r2 := Note(r1, SymbolBlocked(l, o.symbol), SymbolNotAllowed);
    var r3 := Note(r2, SizeBreached(l, o), SizeLimit);
    var r4 := Note(r3, ExposureBreached(l, current, o), ExposureLimit);
    Note(r4, !throttleOk, ThrottleExceeded)
  }

  /** The position of each reason in the fixed order. */
  function Rank(r: Reason): nat
  {
    match r
    case KillSwitch => 0
    case SymbolNotAllowed => 1
    case SizeLimit => 2
    case ExposureLimit => 3
    case ThrottleExceeded => 4
  }

  predicate Ordered(rs: seq<Reason>)
  {
    forall i, j :: 0 <= i < j < |rs| ==> Rank(rs[i]) < Rank(rs[j])
  }

  /** Appending a reason ranked above every reason so far keeps the order. */
  lemma {:induction false} NoteKeepsOrder(reasons: seq<Reason>, failed: bool, r: Reason)
    requires Ordered(reasons)
    requires forall x :: x in reasons ==> Rank(x) < Rank(r)
    ensures Ordered(Note(reasons, failed, r))
  {
    if failed {
      var rs := reasons + [r];
      forall i, j | 0 <= i < j < |rs|
        ensures Rank(rs[i]) < Rank(rs[j])
      {
        if j == |reasons| {
          assert rs[i] in reasons;
        }
      }
    }
  }

  /** Every failed check is reported, nothing else is, and the order is
      approved exactly when no check failed. */
  lemma {:induction false} ReasonsComplete(kill: bool, l: Limits, current: real, o: OrderRequest, throttleOk: bool)
    ensures var rs := Reasons(kill, l, current, o, throttleOk);
            && (KillSwitch in rs <==> kill)
            && (SymbolNotAllowed in rs <==> SymbolBlocked(l, o.symbol))
            && (SizeLimit in rs <==> SizeBreached(l, o))
            && (ExposureLimit in rs <==> ExposureBreached(l, current, o))
            && (ThrottleExceeded in rs <==> !throttleOk)
            && (rs == [] <==> !kill && !SymbolBlocked(l, o.symbol) && !SizeBreached(l, o) && !ExposureBreached(l, current, o) && throttleOk)
  {
  }

  /** The reasons come in the fixed order, without repetition. */
  lemma {:induction false} ReasonsInOrder(kill: bool, l: Limits, current: real, o: OrderRequest, throttleOk: bool)
    ensures Ordered(Reasons(kill, l, current, o, throttleOk))
  {
    var r1 := Note([], kill, KillSwitch);
    var r2 := Note(r1, SymbolBlocked(l, o.symbol), SymbolNotAllowed);
    var r3 := Note(r2, SizeBreached(l, o), SizeLimit);
    var r4 := Note(r3, ExposureBreached(l, current, o), ExposureLimit);
    NoteKeepsOrder([], kill, KillSwitch);
    NoteKeepsOrder(r1, SymbolBlocked(l, o.symbol), SymbolNotAllowed);
    NoteKeepsOrder(r2, SizeBreached(l, o), SizeLimit);
    NoteKeepsOrder(r3, ExposureBreached(l, current, o), ExposureLimit);
    NoteKeepsOrder(r4, !throttleOk, ThrottleExceeded);
  }

  /** The signed change an approved order makes to the exposure. */
  function Signed(o: OrderRequest): (q: real)
    ensures o.side == Buy ==> q == o.quantity
    ensures o.side == Sell ==> q == -o.quantity
  {
    if o.side == Buy then o.quantity else -o.quantity
  }

  class RiskEngine {
    const limits: Limits
    var killSwitchEngaged: bool
    var exposure: map<string, real>
    var history: map<string, seq<real>>

    constructor (limits: Limits)
      ensures this.limits == limits && !killSwitchEngaged && exposure == map[] && history == map[]
    {
      this.limits := limits;
      killSwitchEngaged := false;
      exposure := map[];
      history := map[];
    }

    method EngageKillSwitch()
      modifies this
      ensures killSwitchEngaged && exposure == old(exposure) && history == old(history)
    {
      killSwitchEngaged := true;
    }

    method ResetKillSwitch()
      modifies this
      ensures !killSwitchEngaged && exposure == old(exposure) && history == old(history)
    {
      killSwitchEngaged := false;
    }

    function ExposureOf(sym: string): real
      reads this
    {
      if sym in exposure then exposure[sym] else 0.0
    }

    function HistoryOf(sym: string): seq<real>
      reads this
    {
      if sym in history then history[sym] else []
    }

    /** `evaluate` at time `now`. The throttle records `now` whenever it
      allows the order, even when another check rejects it; the exposure
      moves by the signed quantity only on approval. */
    method Evaluate(o: OrderRequest, now: real) returns (d: RiskDecision)
      modifies this
      ensures var (hist, ok) := Throttle(old(HistoryOf(o.symbol)), now, limits.throttleMax);
              && history == old(history)[o.symbol := hist]
              && d == RiskDecision(o.orderId, o.symbol, d.approved,
                                   Reasons(old(killSwitchEngaged), limits, old(ExposureOf(o.symbol)), o, ok), limits)
      ensures d.approved <==> d.reasons == []
      ensures d.approved ==> exposure == old(exposure)[o.symbol := old(ExposureOf(o.symbol)) + Signed(o)]
      ensures !d.approved ==> exposure == old(exposure)
      ensures killSwitchEngaged == old(killSwitchEngaged)
    {
      var reasons: seq<Reason> := [];
      var approved := true;
      if killSwitchEngaged {
        approved := false;
        reasons := reasons + [KillSwitch];
      }
      assert reasons == Note([], old(killSwitchEngaged), KillSwitch) && (approved <==> reasons == []);
      ghost var r1 := reasons;
      if |limits.symbols| > 0 && o.symbol !in limits.symbols {
        approved := false;
        reasons := reasons + [SymbolNotAllowed];
      }
      assert reasons == Note(r1, SymbolBlocked(limits, o.symbol), SymbolNotAllowed) && (approved <==> reasons == []);
      ghost var r2 := reasons;
      if Exceeds(o.quantity, limits.maxSize) {
        approved := false;
        reasons := reasons + [SizeLimit];
      }
      assert reasons == Note(r2, SizeBreached(limits, o), SizeLimit) && (approved <==> reasons == []);
      ghost var r3 := reasons;
      var current := ExposureOf(o.symbol);
      if Exceeds(Abs(current + o.quantity), limits.maxExposure) {
        approved := false;
        reasons := reasons + [ExposureLimit];
      }
      assert reasons == Note(r3, ExposureBreached(limits, current, o), ExposureLimit) && (approved <==> reasons == []);
      ghost var r4 := reasons;
      var (hist, ok) := Throttle(HistoryOf(o.symbol), now, limits.throttleMax);
      history := history[o.symbol := hist];
      if !ok {
        approved := false;
        reasons := reasons + [ThrottleExceeded];
      }
      assert reasons == Note(r4, !ok, ThrottleExceeded) && (approved <==> reasons == []);
      d := RiskDecision(o.orderId, o.symbol, approved, reasons, limits);
      if approved {
        exposure := exposure[o.symbol := current + Signed(o)];
      }
    }
  }

  /** A sell that would flatten a long position is still checked as if it
      added to it: with exposure 1.5 and a limit of 2, selling 1 is rejected
      although the position would drop to 0.5. */
  lemma {:induction false} SellCheckedUnsigned(l: Limits, o: OrderRequest)
    requires l.maxExposure == Some(2.0) && o.side == Sell && o.quantity == 1.0
    ensures ExposureBreached(l, 1.5, o) && Abs(1.5 + Signed(o)) <= 2.0
  {
  }

  /** A buy of 5 then of 6 at the same instant, with a one-order throttle:
      the first passes, the second is rejected for size and throttle, and a
      third for the throttle. */
  method LimitsAndThrottleScenario()
  {
    var l := Limits(["TEST"], Some(5.0), Some(10.0), 1);
    var r := new RiskEngine(l);
    var d1 := r.Evaluate(NewOrder("o", "TEST", Buy, 5.0, Market), 0.0);
    assert d1.approved;
    var d2 := r.Evaluate(NewOrder("o", "TEST", Buy, 6.0, Market), 0.0);
    assert !d2.approved && SizeLimit in d2.reasons;
    var d3 := r.Evaluate(NewOrder("o", "TEST", Buy, 1.0, Market), 0.0);
    assert !d3.approved && ThrottleExceeded in d3.reasons;
  }

  /** Buys of 1.5 then 1 against an exposure limit of 2: the second is
      rejected for exposure. */
  method ExposureScenario()
  {
    var l := Limits(["TEST"], Some(10.0), Some(2.0), 10);
    var r := new RiskEngine(l);
    var d1 := r.Evaluate(NewOrder("o", "TEST", Buy, 1.5, Market), 0.0);
    assert d1.approved;
    var d2 := r.Evaluate(NewOrder("o", "TEST", Buy, 1.0, Market), 0.0);
    assert !d2.approved && ExposureLimit in d2.reasons;
  }

  /** Once engaged, the kill switch rejects every order until reset. */
  method KillSwitchScenario(o: OrderRequest, now: real)
  {
    var r := new RiskEngine(Limits(["ES"], Some(1000.0), Some(2000.0), 5));
    r.EngageKillSwitch();
    var d := r.Evaluate(o, now);
    assert !d.approved && d.reasons[0] == KillSwitch;
  }
}
