/** The microstructure engine: routes DOM, trade and tick events to the depth,
    delta, tape, footprint and liquidity engines, composes their state into a
    snapshot, flattens it into features, and publishes it. */
module Microstructure {
  import opened Common
  import MicroDepth
  import MicroDelta
  import TapeAdvanced
  import FootprintAdvanced
  import Liquidity
  import EventBus

  /** `MicrostructureSnapshot`; `None` fields are `None` in the source too. */
  datatype Snapshot = Snapshot(
    symbol: string,
    timestamp: real,
    mid: Option<real>,
    bid: Option<real>,
    ask: Option<real>,
    bidSize: Option<real>,
    askSize: Option<real>,
    imbalance: Option<real>,
    queuePosition: Option<real>,
    liquidityMap: map<string, real>,
    delta: Option<real>,
    cumulativeDelta: Option<real>,
    zeroPrints: nat,
    aggressorSide: Option<string>,
    absorptionScore: real,
    footprint: FootprintAdvanced.Footprint,
    liquiditySignals: map<string, real>,
    features: map<string, real>,
    tags: seq<string>)

  // ---------------------------------------------------------------------
  // Feature extraction

  /** `x or 0.0` on an optional float. */
  function OrZero(o: Option<real>): (r: real)
    ensures o.None? ==> r == 0.0
    ensures o.Some? ==> r == o.value
  {
    if o.Some? then o.value else 0.0
  }

  const BaseKeys: set<string> := {"mid", "imbalance", "queue_position", "delta", "cumulative_delta", "absorption_score", "zero_prints"}

  function BaseFeatures(s: Snapshot): map<string, real>
  {
    map["mid" := OrZero(s.mid), "imbalance" := OrZero(s.imbalance),
        "queue_position" := OrZero(s.queuePosition), "delta" := OrZero(s.delta),
        "cumulative_delta" := OrZero(s.cumulativeDelta),
        "absorption_score" := s.absorptionScore, "zero_prints" := s.zeroPrints as real]
  }

  /** Prefixing is injective, so each source key gives its own feature key. */
  lemma {:induction false} PrefixInjective(p: string)
    ensures forall a, b :: p + a == p + b ==> a == b
  {
    forall a, b | p + a == p + b ensures a == b {
      assert a == (p + a)[|p|..];
    }
  }

  /** Each key of `m` under the prefix `p`. */
  function Prefixed(p: string, m: map<string, real>): map<string, real>
  {
    PrefixInjective(p);
    map k | k in m :: p + k := m[k]
  }

  lemma {:induction false} PrefixedUpdate(m: map<string, real>, k: string, v: real, p: string)
    ensures Prefixed(p, m[k := v]) == Prefixed(p, m)[p + k := v]
  {
    var a, b := Prefixed(p, m[k := v]), Prefixed(p, m)[p + k := v];
    PrefixedUpdateNew(m, k, v, p, a, b);
    PrefixedUpdateOld(m, k, v, p, a, b);
    assert a == b;
  }

  lemma {:induction false} PrefixedUpdateNew(m: map<string, real>, k: string, v: real, p: string,
                                             a: map<string, real>, b: map<string, real>)
    requires a == Prefixed(p, m[k := v]) && b == Prefixed(p, m)[p + k := v]
    ensures forall x :: x in a ==> x in b && a[x] == b[x]
  {
    PrefixInjective(p);
    forall x | x in a ensures x in b && a[x] == b[x] {
      var y :| y in m[k := v] && x == p + y;
      if y != k {
        assert y in m && x != p + k;
      }
    }
  }

  lemma {:induction false} PrefixedUpdateOld(m: map<string, real>, k: string, v: real, p: string,
                                             a: map<string, real>, b: map<string, real>)
    requires a == Prefixed(p, m[k := v]) && b == Prefixed(p, m)[p + k := v]
    ensures forall x :: x in b ==> x in a
  {
    forall x | x in b ensures x in a {
      if x != p + k {
        var y :| y in m && x == p + y;
        assert y in m[k := v];
      }
    }
  }

  /** One "liq_" feature per liquidity signal. */
  function LiqFeatures(m: map<string, real>): map<string, real>
  {
    Prefixed("liq_", m)
  }

  /** One "tag_" feature per tag. */
  function TagFeatures(tags: seq<string>): map<string, real>
  {
    map t | t in tags :: "tag_" + t := 1.0
  }

  /** `extract(snapshot)`: the flat feature dict. */
  function Features(s: Snapshot): map<string, real>
  {
    BaseFeatures(s) + LiqFeatures(s.liquiditySignals) + TagFeatures(s.tags)
  }

  /** No base key starts with "liq_" or "tag_". */
  lemma {:induction false} BaseKeysApart(s: Snapshot)
    ensures forall b :: b in BaseKeys ==> b !in LiqFeatures(s.liquiditySignals) && b !in TagFeatures(s.tags)
  {
    forall b | b in BaseKeys ensures b !in LiqFeatures(s.liquiditySignals) && b !in TagFeatures(s.tags) {
      forall k | k in s.liquiditySignals ensures "liq_" + k != b {
        assert ("liq_" + k)[3] == '_';
      }
      forall t | t in s.tags ensures "tag_" + t != b {
        assert ("tag_" + t)[3] == '_';
      }
    }
  }

  /** A "liq_" key is never a "tag_" key. */
  lemma {:induction false} NotTagKey(k: string, tags: seq<string>)
    ensures "liq_" + k !in TagFeatures(tags)
  {
    forall t | t in tags ensures "tag_" + t != "liq_" + k {
      assert ("tag_" + t)[0] == 't';
      assert ("liq_" + k)[0] == 'l';
    }
  }

  /** The base features read a missing value as 0 and the zero-print count
      as a float. */
  lemma {:induction false} BaseFeatureValues(s: Snapshot)
    ensures var f := Features(s);
            && f["mid"] == OrZero(s.mid) && f["imbalance"] == OrZero(s.imbalance)
            && f["queue_position"] == OrZero(s.queuePosition)
            && f["delta"] == OrZero(s.delta) && f["cumulative_delta"] == OrZero(s.cumulativeDelta)
            && f["absorption_score"] == s.absorptionScore
            && f["zero_prints"] == s.zeroPrints as real
  {
    FeaturesAtBase(s, "mid");
    FeaturesAtBase(s, "imbalance");
    FeaturesAtBase(s, "queue_position");
    FeaturesAtBase(s, "delta");
    FeaturesAtBase(s, "cumulative_delta");
    FeaturesAtBase(s, "absorption_score");
    FeaturesAtBase(s, "zero_prints");
  }

  /** A base key keeps its base value in the full feature map. */
  lemma {:induction false} FeaturesAtBase(s: Snapshot, b: string)
    requires b in BaseKeys
    ensures Features(s)[b] == BaseFeatures(s)[b]
  {
    BaseKeysApart(s);
  }

  /** The "liq_" feature of a signal carries the signal's value. */
  lemma {:induction false} LiqAt(m: map<string, real>, k: string)
    requires k in m
    ensures "liq_" + k in LiqFeatures(m) && LiqFeatures(m)["liq_" + k] == m[k]
  {
    PrefixInjective("liq_");
  }

  /** Every tag has its "tag_" feature, valued 1. */
  lemma {:induction false} TagAt(tags: seq<string>, t: string)
    requires t in tags
    ensures "tag_" + t in TagFeatures(tags) && TagFeatures(tags)["tag_" + t] == 1.0
  {
  }

  /** Each liquidity signal k appears as "liq_" + k with its value. */
  lemma {:induction false} LiqFeatureValues(s: Snapshot)
    ensures forall k :: k in s.liquiditySignals ==> Features(s)["liq_" + k] == s.liquiditySignals[k]
  {
    forall k | k in s.liquiditySignals ensures Features(s)["liq_" + k] == s.liquiditySignals[k] {
      NotTagKey(k, s.tags);
      LiqAt(s.liquiditySignals, k);
    }
  }

  /** Each tag t appears as "tag_" + t with value 1. */
  lemma {:induction false} TagFeatureValue(s: Snapshot, t: string)
    requires t in s.tags
    ensures Features(s)["tag_" + t] == 1.0
  {
    TagAt(s.tags, t);
    var front := BaseFeatures(s) + LiqFeatures(s.liquiditySignals);
    assert Features(s) == front + TagFeatures(s.tags);
  }

  /** The feature keys are the seven base keys, the "liq_" keys and the
      "tag_" keys, and nothing else. */
  lemma {:induction false} FeatureKeys(s: Snapshot)
    ensures Features(s).Keys == BaseKeys
                               + (set k | k in s.liquiditySignals :: "liq_" + k)
                               + (set t | t in s.tags :: "tag_" + t)
  {
    assert BaseFeatures(s).Keys == BaseKeys;
    assert LiqFeatures(s.liquiditySignals).Keys == (set k | k in s.liquiditySignals :: "liq_" + k);
    assert TagFeatures(s.tags).Keys == (set t | t in s.tags :: "tag_" + t);
  }

  /** The loops of `extract`: base keys first, then a key per liquidity
      signal, then a key per tag. */
  method Extract(s: Snapshot) returns (f: map<string, real>)
    ensures f == Features(s)
  {
    f := BaseFeatures(s);
    f := AddLiqFeatures(f, s.liquiditySignals);
    f := AddTagFeatures(f, s.tags);
  }

  /** The signal loop of `extract`: one "liq_" key per signal. */
  method AddLiqFeatures(front: map<string, real>, m: map<string, real>) returns (f: map<string, real>)
    ensures f == front + LiqFeatures(m)
  {
    f := front;
    var todo := m.Keys;
    LiqNone(m);
    while todo != {}
      invariant todo <= m.Keys
      invariant f == front + LiqFeatures(m - todo)
      decreases |todo|
    {
      var k :| k in todo;
      ghost var liq := LiqFeatures(m - todo);
      LiqStep(m, todo, k);
      UpdateUnion(front, liq, "liq_" + k, m[k]);
      f := f["liq_" + k := m[k]];
      todo := todo - {k};
    }
    LiqAll(m, todo);
  }

  lemma {:induction false} LiqNone(m: map<string, real>)
    ensures LiqFeatures(m - m.Keys) == map[]
  {
    assert m - m.Keys == map[];
  }

  lemma {:induction false} LiqAll(m: map<string, real>, todo: set<string>)
    requires todo == {}
    ensures LiqFeatures(m - todo) == LiqFeatures(m)
  {
    assert m - todo == m;
  }

  /** The tag loop of `extract`: one "tag_" key per tag, valued 1. */
  method AddTagFeatures(front: map<string, real>, tags: seq<string>) returns (f: map<string, real>)
    ensures f == front + TagFeatures(tags)
  {
    f := front;
    var i := 0;
    while i < |tags|
      invariant 0 <= i <= |tags|
      invariant f == front + TagFeatures(tags[..i])
    {
      TagStep(tags, i);
      UpdateUnion(front, TagFeatures(tags[..i]), "tag_" + tags[i], 1.0);
      f := f["tag_" + tags[i] := 1.0];
      i := i + 1;
    }
    assert tags[..|tags|] == tags;
  }

  /** Updating a union updates its right operand. */
  lemma {:induction false} UpdateUnion<K, V>(a: map<K, V>, b: map<K, V>, k: K, v: V)
    ensures (a + b)[k := v] == a + b[k := v]
  {
  }

  /** Moving one key out of `todo` adds its "liq_" feature. */
  lemma {:induction false} LiqStep(m: map<string, real>, todo: set<string>, k: string)
    requires k in todo && todo <= m.Keys
    ensures LiqFeatures(m - (todo - {k})) == LiqFeatures(m - todo)["liq_" + k := m[k]]
  {
    PrefixInjective("liq_");
    assert m - (todo - {k}) == (m - todo)[k := m[k]];
    PrefixedUpdate(m - todo, k, m[k], "liq_");
  }

  /** One more tag adds its "tag_" feature. */
  lemma {:induction false} TagStep(tags: seq<string>, i: nat)
    requires i < |tags|
    ensures TagFeatures(tags[..i + 1]) == TagFeatures(tags[..i])["tag_" + tags[i] := 1.0]
  {
    assert tags[..i + 1] == tags[..i] + [tags[i]];
  }

  // ---------------------------------------------------------------------
  // Snapshot composition

  /** `float(v) if v is not None else None`; the outer `None` means `float`
      raised. */
  function OptReal(v: Value): (r: Option<Option<real>>)
    ensures v == Null ==> r == Some(None)
    ensures v.Num? ==> r == Some(Some(v.n))
    ensures r.None? <==> v != Null && !v.Num?
  {
    match v
    case Null => Some(None)
    case Num(n) => Some(Some(n))
    case _ => None
  }

  /** The tick's `mid or price or last`; `None` without a tick. */
  function TickMid(tick: Option<Payload>): Value
  {
    match tick
    case None => Null
    case Some(p) => Or(Or(Get(p, "mid"), Get(p, "price")), Get(p, "last"))
  }

  /** The snapshot's mid: the tick's price when it has one, else the average
      of a truthy bid and ask, else `None`; the outer `None` means a
      conversion raised. */
  function MidOf(tick: Option<Payload>, bid: Value, ask: Value): (r: Option<Option<real>>)
    ensures TickMid(tick).Num? ==> r == Some(Some(TickMid(tick).n))
    ensures TickMid(tick) == Null && bid.Num? && ask.Num? && bid.n != 0.0 && ask.n != 0.0 ==>
              r == Some(Some((bid.n + ask.n) / 2.0))
    ensures TickMid(tick) == Null && (!Truthy(bid) || !Truthy(ask)) ==> r == Some(None)
  {
    var m := TickMid(tick);
    if m == Null && Truthy(bid) && Truthy(ask) then
      match (ToReal(bid), ToReal(ask))
      case (Some(b), Some(a)) => Some(Some((b + a) / 2.0))
      case _ => None
    else OptReal(m)
  }

  const SignalKeys: set<string> := {"iceberg", "spoof", "replenishment", "shift"}

  function SignalMap(l: Liquidity.Signals): (m: map<string, real>)
    ensures m.Keys == SignalKeys
    ensures m["iceberg"] == l.iceberg && m["spoof"] == l.spoof
    ensures m["replenishment"] == l.replenishment && m["shift"] == l.shift
  {
    map["iceberg" := l.iceberg, "spoof" := l.spoof, "replenishment" := l.replenishment, "shift" := l.shift]
  }

  /** `_build_snapshot` up to the constructor call, from the symbol's stored
      states (every handler returns the record it stores, so the handler's
      result and the stored record agree). `None` when a `float` raises. */
  function BuildBase(sym: string, now: real, depth: Option<MicroDepth.DepthState>,
                     delta: Option<MicroDelta.DeltaState>, tape: Option<TapeAdvanced.TapeStats>,
                     fp: FootprintAdvanced.Footprint, liq: Option<Liquidity.Signals>,
                     tick: Option<Payload>): Option<Snapshot>
  {
    var bid := if depth.Some? then depth.value.bid else Null;
    var ask := if depth.Some? then depth.value.ask else Null;
    match (MidOf(tick, bid, ask), OptReal(bid), OptReal(ask))
    case (Some(mid), Some(b), Some(a)) =>
      Some(Snapshot(
        sym, now, mid, b, a,
        if depth.Some? then Some(depth.value.bidSize) else None,
        if depth.Some? then Some(depth.value.askSize) else None,
        if depth.Some? then Some(depth.value.imbalance) else None,
        if depth.Some? then Some(depth.value.queuePosition) else None,
        if depth.Some? then depth.value.liquidityMap else map[],
        if delta.Some? then Some(delta.value.cumulative) else None,
        if delta.Some? then Some(delta.value.cumulative) else None,
        if delta.Some? then delta.value.zeroPrints else 0,
        None,
        if tape.Some? then tape.value.absorptionScore else 0.0,
        fp,
        if liq.Some? then SignalMap(liq.value) else map[],
        map[], []))
    case _ => None
  }

  /** A composed snapshot carries the symbol and time, both delta fields from
      the cumulative delta, zero prints only with a delta record, the four
      signal keys exactly when there is a liquidity record, and no tags. */
  lemma {:induction false} BuildBaseFields(sym: string, now: real, depth: Option<MicroDepth.DepthState>,
                        delta: Option<MicroDelta.DeltaState>, tape: Option<TapeAdvanced.TapeStats>,
                        fp: FootprintAdvanced.Footprint, liq: Option<Liquidity.Signals>,
                        tick: Option<Payload>)
    requires BuildBase(sym, now, depth, delta, tape, fp, liq, tick).Some?
    ensures var s := BuildBase(sym, now, depth, delta, tape, fp, liq, tick).value;
            && s.symbol == sym && s.timestamp == now && s.footprint == fp && s.tags == []
            && s.delta == s.cumulativeDelta
            && (delta.Some? ==> s.delta == Some(delta.value.cumulative) && s.zeroPrints == delta.value.zeroPrints)
            && (delta.None? ==> s.delta.None? && s.zeroPrints == 0)
            && (liq.Some? ==> s.liquiditySignals.Keys == SignalKeys)
            && (liq.None? ==> s.liquiditySignals == map[])
            && (depth.None? ==> s.bid.None? && s.ask.None? && s.imbalance.None? && s.liquidityMap == map[])
            && (tape.None? ==> s.absorptionScore == 0.0)
  {
  }

  /** The composed snapshot exists exactly when the mid and the stored bid
      and ask convert. */
  lemma {:induction false} BuildBaseDefined(sym: string, now: real, depth: Option<MicroDepth.DepthState>,
                         delta: Option<MicroDelta.DeltaState>, tape: Option<TapeAdvanced.TapeStats>,
                         fp: FootprintAdvanced.Footprint, liq: Option<Liquidity.Signals>,
                         tick: Option<Payload>)
    ensures var bid := if depth.Some? then depth.value.bid else Null;
            var ask := if depth.Some? then depth.value.ask else Null;
            BuildBase(sym, now, depth, delta, tape, fp, liq, tick).Some? <==>
              MidOf(tick, bid, ask).Some? && OptReal(bid).Some? && OptReal(ask).Some?
  {
  }

  /** `@dataclass(frozen=True)`: assigning a field of an instance raises. */
  const SnapshotFrozen: bool := true

  /** `snapshot.features = extract(snapshot)` on an instance that may be
      frozen; `None` when the assignment raises. */
  function AssignFeatures(s: Snapshot, frozen: bool): (r: Option<Snapshot>)
    ensures frozen <==> r.None?
    ensures r.Some? ==> r.value == s.(features := Features(s))
  {
    if frozen then None else Some(s.(features := Features(s)))
  }

  /** `_build_snapshot` as written: the features are assigned to the frozen
      snapshot. */
  function BuildSnapshotAsWritten(sym: string, now: real, depth: Option<MicroDepth.DepthState>,
                                  delta: Option<MicroDelta.DeltaState>, tape: Option<TapeAdvanced.TapeStats>,
                                  fp: FootprintAdvanced.Footprint, liq: Option<Liquidity.Signals>,
                                  tick: Option<Payload>): Option<Snapshot>
  {
    match BuildBase(sym, now, depth, delta, tape, fp, liq, tick)
    case None => None
    case Some(base) => AssignFeatures(base, SnapshotFrozen)
  }

  /** As written, no snapshot is ever built, so `on_event` raises on every
      handled event and nothing is published. */
  lemma {:induction false} AsWrittenNeverBuilds(sym: string, now: real, depth: Option<MicroDepth.DepthState>,
                             delta: Option<MicroDelta.DeltaState>, tape: Option<TapeAdvanced.TapeStats>,
                             fp: FootprintAdvanced.Footprint, liq: Option<Liquidity.Signals>,
                             tick: Option<Payload>)
    ensures BuildSnapshotAsWritten(sym, now, depth, delta, tape, fp, liq, tick).None?
  {
  }

  /** `_build_snapshot` as intended: the snapshot is built with its features
      (the `features` field does not feed `extract`, so building it first and
      then extracting gives the same result). */
  function BuildSnapshot(sym: string, now: real, depth: Option<MicroDepth.DepthState>,
                         delta: Option<MicroDelta.DeltaState>, tape: Option<TapeAdvanced.TapeStats>,
                         fp: FootprintAdvanced.Footprint, liq: Option<Liquidity.Signals>,
                         tick: Option<Payload>): (r: Option<Snapshot>)
    ensures r.Some? <==> BuildBase(sym, now, depth, delta, tape, fp, liq, tick).Some?
    ensures r.Some? ==> r.value == BuildBase(sym, now, depth, delta, tape, fp, liq, tick).value.(features := r.value.features)
    ensures r.Some? ==> r.value.features == Features(r.value)
  {
    match BuildBase(sym, now, depth, delta, tape, fp, liq, tick)
    case None => None
    case Some(base) => AssignFeatures(base, false)
  }

  /** A built snapshot carries the symbol, the time and its own features. */
  lemma {:induction false} BuildSnapshotShape(sym: string, now: real, depth: Option<MicroDepth.DepthState>,
                                              delta: Option<MicroDelta.DeltaState>, tape: Option<TapeAdvanced.TapeStats>,
                                              fp: FootprintAdvanced.Footprint, liq: Option<Liquidity.Signals>,
                                              tick: Option<Payload>)
    ensures var r := BuildSnapshot(sym, now, depth, delta, tape, fp, liq, tick);
            r.Some? ==> r.value.symbol == sym && r.value.timestamp == now && r.value.features == Features(r.value)
  {
    if BuildBase(sym, now, depth, delta, tape, fp, liq, tick).Some? {
      BuildBaseFields(sym, now, depth, delta, tape, fp, liq, tick);
    }
  }

  // ---------------------------------------------------------------------
  // The engine

  const HandledTypes: seq<string> := ["dom_snapshot", "dom_delta", "trade", "tick"]

  class Engine {
    const depth: MicroDepth.DepthEngine
    const delta: MicroDelta.Engine
    const tape: TapeAdvanced.Engine
    const footprint: FootprintAdvanced.Engine
    const liquidity: Liquidity.Engine
    /** Every snapshot published, in order. */
    var published: seq<Snapshot>

    /** The sub-engines with the source's default settings. */
    constructor ()
      ensures fresh(depth) && fresh(delta) && fresh(tape) && fresh(footprint) && fresh(liquidity)
      ensures depth.state == map[] && delta.state == map[] && tape.state == map[] && tape.history == map[]
      ensures footprint.footprints == map[] && liquidity.state == map[] && published == []
      ensures tape.windowSeconds == 5.0 && tape.absorptionThreshold == 1000.0
      ensures liquidity.icebergThreshold == 500.0 && liquidity.spoofRatio == 3.0
    {
      depth := new MicroDepth.DepthEngine();
      delta := new MicroDelta.Engine();
      tape := new TapeAdvanced.Engine(5.0, 1000.0);
      footprint := new FootprintAdvanced.Engine();
      liquidity := new Liquidity.Engine(500.0, 3.0);
      published := [];
    }

    /** The snapshot the engine would build for `sym` now from the stored
      states. */
    function Compose(sym: string, now: real, tick: Option<Payload>): Option<Snapshot>
      reads depth, delta, tape, footprint, liquidity
    {
      BuildSnapshot(sym, now,
                    if sym in depth.state then Some(depth.state[sym]) else None,
                    if sym in delta.state then Some(delta.state[sym]) else None,
                    if sym in tape.state then Some(tape.state[sym]) else None,
                    footprint.FootprintOf(sym),
                    if sym in liquidity.state then Some(liquidity.state[sym]) else None,
                    tick)
    }

    /** `_build_snapshot` then `_publish_snapshot`; nothing is published when
      building raises. */
    method PublishSnapshot(sym: string, now: real, tick: Option<Payload>) returns (r: Option<Snapshot>)
      modifies this
      ensures r == Compose(sym, now, tick)
      ensures r.Some? ==> r.value.symbol == sym && r.value.timestamp == now && r.value.features == Features(r.value)
      ensures published == old(published) + Emitted(r)
    {
      BuildSnapshotShape(sym, now,
                         if sym in depth.state then Some(depth.state[sym]) else None,
                         if sym in delta.state then Some(delta.state[sym]) else None,
                         if sym in tape.state then Some(tape.state[sym]) else None,
                         footprint.FootprintOf(sym),
                         if sym in liquidity.state then Some(liquidity.state[sym]) else None,
                         tick);
      r := Compose(sym, now, tick);
      published := published + Emitted(r);
    }

    /** The trade branch of `on_event`: delta, tape and footprint in turn,
      the first that raises ending the call. The footprint conversions are
      those the tape has already passed, so only delta and tape can stop it. */
    method OnTradeEvent(e: Event, now: real) returns (r: Option<Snapshot>)
      modifies this, delta, tape, footprint
      ensures delta.state == StoreOutcome(old(delta.state), e.symbol, MicroDelta.OnTrade(old(delta.StateOf(e.symbol)), e.payload))
      ensures var t := TapeAdvanced.Traded(old(tape.StatsOf(e.symbol)), old(tape.HistoryOf(e.symbol)), e.payload, now,
                                           tape.windowSeconds, tape.absorptionThreshold);
              && (MicroDelta.OnTrade(old(delta.StateOf(e.symbol)), e.payload).Raised? || t.None? ==>
                    r.None? && tape.state == old(tape.state) && tape.history == old(tape.history) && unchanged(footprint))
              && (MicroDelta.OnTrade(old(delta.StateOf(e.symbol)), e.payload).Ok? && t.Some? ==>
                    && tape.state == old(tape.state)[e.symbol := t.value.0]
                    && tape.history == old(tape.history)[e.symbol := t.value.1]
                    && footprint.footprints == old(footprint.footprints)[e.symbol :=
                         FootprintAdvanced.Book(old(footprint.FootprintOf(e.symbol)), MicroDelta.TradePrice(e.payload).value,
                                                MicroDelta.TradeSize(e.payload).value, MicroDelta.TradeSide(e.payload))]
                    && r == Compose(e.symbol, now, None))
      ensures published == old(published) + Emitted(r)
      ensures r.Some? ==> r.value.symbol == e.symbol && r.value.timestamp == now && r.value.features == Features(r.value)
    {
      r := None;
      var d := delta.OnTradeEvent(e);
      if d.None? {
        return;
      }
      var t := tape.OnTrade(e, now);
      if t.None? {
        return;
      }
      var f := footprint.OnTrade(e);
      if f.None? {
        return;
      }
      r := PublishSnapshot(e.symbol, now, None);
    }

    /** `on_event` at wall-clock time `now`: the event's handler updates its
      sub-engine, then a snapshot is built and published. A handler that
      raises ends the call (`None`) with the sub-engines as the handler left
      them; an event of another type changes nothing. */
    method OnEvent(e: Event, now: real) returns (r: Option<Snapshot>)
      modifies this, depth, delta, tape, footprint, liquidity
      ensures e.eventType !in HandledTypes ==>
                r.None? && published == old(published) &&
                unchanged(depth, delta, tape, footprint, liquidity)
      ensures e.eventType == "dom_snapshot" ==>
                && unchanged(delta, tape, footprint, liquidity)
                && depth.state == StoreOutcome(old(depth.state), e.symbol, MicroDepth.OnDom(old(depth.StateOf(e.symbol)), e.payload))
                && r == (if MicroDepth.OnDom(old(depth.StateOf(e.symbol)), e.payload).Ok? then Compose(e.symbol, now, None) else None)
      ensures e.eventType == "dom_delta" ==>
                var s := Liquidity.FromPayload(e.payload, liquidity.icebergThreshold, liquidity.spoofRatio);
                && unchanged(depth, delta, tape, footprint)
                && liquidity.state == (if s.Some? then old(liquidity.state)[e.symbol := s.value] else old(liquidity.state))
                && r == (if s.Some? then Compose(e.symbol, now, None) else None)
      ensures e.eventType == "trade" ==>
                var t := TapeAdvanced.Traded(old(tape.StatsOf(e.symbol)), old(tape.HistoryOf(e.symbol)), e.payload, now,
                                             tape.windowSeconds, tape.absorptionThreshold);
                && unchanged(depth, liquidity)
                && delta.state == StoreOutcome(old(delta.state), e.symbol, MicroDelta.OnTrade(old(delta.StateOf(e.symbol)), e.payload))
                && (MicroDelta.OnTrade(old(delta.StateOf(e.symbol)), e.payload).Raised? || t.None? ==>
                      r.None? && tape.state == old(tape.state) && tape.history == old(tape.history) && unchanged(footprint))
                && (MicroDelta.OnTrade(old(delta.StateOf(e.symbol)), e.payload).Ok? && t.Some? ==>
                      && tape.state == old(tape.state)[e.symbol := t.value.0]
                      && tape.history == old(tape.history)[e.symbol := t.value.1]
                      && footprint.footprints == old(footprint.footprints)[e.symbol :=
                           FootprintAdvanced.Book(old(footprint.FootprintOf(e.symbol)), MicroDelta.TradePrice(e.payload).value,
                                                  MicroDelta.TradeSize(e.payload).value, MicroDelta.TradeSide(e.payload))]
                      && r == Compose(e.symbol, now, None))
      ensures e.eventType == "tick" ==>
                unchanged(depth, delta, tape, footprint, liquidity) && r == Compose(e.symbol, now, Some(e.payload))
      ensures published == old(published) + Emitted(r)
      ensures r.Some? ==> r.value.symbol == e.symbol && r.value.timestamp == now && r.value.features == Features(r.value)
    {
      r := None;
      if e.eventType == "dom_snapshot" {
        var st := depth.OnDomEvent(e);
        if st.None? {
          return;
        }
        r := PublishSnapshot(e.symbol, now, None);
      } else if e.eventType == "dom_delta" {
        var sig := liquidity.OnDomDelta(e);
        if sig.None? {
          return;
        }
        r := PublishSnapshot(e.symbol, now, None);
      } else if e.eventType == "trade" {
        r := OnTradeEvent(e, now);
      } else if e.eventType == "tick" {
        r := PublishSnapshot(e.symbol, now, Some(e.payload));
      }
    }

    /** `start`: `on_event` (the callback `cb`) is subscribed to the four
      handled types, one at a time. */
    method Start(bus: EventBus.Bus, cb: EventBus.CallbackId)
      modifies bus
      ensures bus.subscribers == EventBus.SubscribeAll(old(bus.subscribers), HandledTypes, cb)
      ensures bus.queue == old(bus.queue) && bus.running == old(bus.running) && bus.calls == old(bus.calls)
    {
      var i := 0;
      while i < |HandledTypes|
        invariant 0 <= i <= |HandledTypes|
        invariant EventBus.SubscribeAll(old(bus.subscribers), HandledTypes, cb) ==
                  EventBus.SubscribeAll(bus.subscribers, HandledTypes[i..], cb)
        invariant bus.queue == old(bus.queue) && bus.running == old(bus.running) && bus.calls == old(bus.calls)
      {
        assert HandledTypes[i..][0] == HandledTypes[i] && HandledTypes[i..][1..] == HandledTypes[i + 1..];
        bus.Subscribe(EventBus.One(HandledTypes[i]), cb);
        i := i + 1;
      }
    }
  }
}
