/** The liquidity map engine: per symbol, the resting size at each price of
    the latest DOM snapshot and a bounded history of snapshots and trades;
    every event publishes the resting map and the history length. */
module LiquidityMap {
  import opened Common

  /** `{"bid": ..., "ask": ...}` at one price. */
  datatype Resting = Resting(bid: real, ask: real)

  /** One history entry: a snapshot's resting map or a trade's payload. */
  datatype Entry = DomEntry(ts: real, resting: map<real, Resting>) | TradeEntry(ts: real, trade: Payload)

  datatype LiqState = LiqState(resting: map<real, Resting>, history: seq<Entry>)

  /** The payload of a `liquidity_update` event. */
  datatype Update = Update(symbol: string, resting: map<real, Resting>, historyLen: nat)

  /** `deque(maxlen=50)` */
  const HistoryCap: nat := 50

  function NewState(): (st: LiqState)
    ensures st.resting == map[] && st.history == []
  {
    LiqState(map[], [])
  }

  /** One DOM level: its price and sizes (0 when absent), or `None` when the
      level is skipped because reading it raises. */
  function ParseLevel(level: Value): (r: Option<(real, Resting)>)
    ensures !level.Dict? ==> r.None?
    ensures level.Dict? && r.Some? ==> ToReal(Get(level.fields, "price")) == Some(r.value.0)
    ensures level.Dict? && r.Some? && "bid_size" !in level.fields ==> r.value.1.bid == 0.0
    ensures level.Dict? && r.Some? && "ask_size" !in level.fields ==> r.value.1.ask == 0.0
  {
    match level
    case Dict(m) =>
      (match (ToReal(Get(m, "price")), ToReal(GetOr(m, "bid_size", Num(0.0))), ToReal(GetOr(m, "ask_size", Num(0.0))))
       case (Some(p), Some(b), Some(a)) => Some((p, Resting(b, a)))
       case _ => None)
    case _ => None
  }

  /** The items `for level in dom` visits, with `dom = payload.get("dom") or
      []`: a list's items; nothing usable from a dict or a string (every key
      or character is skipped); `None` for a non-zero number, which cannot be
      iterated and raises. */
  function DomItems(p: Payload): (r: Option<seq<Value>>)
    ensures !Truthy(Get(p, "dom")) ==> r == Some([])
    ensures Get(p, "dom").List? ==> r == Some(Get(p, "dom").items)
    ensures r.None? <==> Truthy(Get(p, "dom")) && Get(p, "dom").Num?
  {
    match Or(Get(p, "dom"), List([]))
    case List(items) => Some(items)
    case Num(_) => None
    case _ => Some([])
  }

  /** The resting map built from the levels in order; a later level at the
      same price overwrites an earlier one. */
  function RestingOf(levels: seq<Value>): map<real, Resting>
  {
    if levels == [] then map[]
    else
      var m := RestingOf(levels[..|levels| - 1]);
      match ParseLevel(levels[|levels| - 1])
      case Some((p, r)) => m[p := r]
      case None => m
  }

  /** A price is in the map exactly when some level parses to it. */
  lemma {:induction false} RestingKeys(levels: seq<Value>, p: real)
    ensures p in RestingOf(levels) <==>
              exists i :: 0 <= i < |levels| && ParseLevel(levels[i]).Some? && ParseLevel(levels[i]).value.0 == p
  {
    if levels != [] {
      var front := levels[..|levels| - 1];
      RestingKeys(front, p);
      forall i | 0 <= i < |front|
        ensures front[i] == levels[i]
      {
      }
    }
  }

  /** The sizes kept at a price are those of the last level at that price. */
  lemma {:induction false} LastLevelWins(levels: seq<Value>, i: nat)
    requires i < |levels| && ParseLevel(levels[i]).Some?
    requires forall j :: i < j < |levels| && ParseLevel(levels[j]).Some? ==> ParseLevel(levels[j]).value.0 != ParseLevel(levels[i]).value.0
    ensures var (p, r) := ParseLevel(levels[i]).value; p in RestingOf(levels) && RestingOf(levels)[p] == r
  {
    var front := levels[..|levels| - 1];
    if i < |levels| - 1 {
      forall j | i < j < |front| && ParseLevel(front[j]).Some?
        ensures ParseLevel(front[j]).value.0 != ParseLevel(front[i]).value.0
      {
        assert front[j] == levels[j];
      }
      LastLevelWins(front, i);
    }
  }

  /** The loop of `on_dom` that fills `liq_map`. */
  method BuildResting(levels: seq<Value>) returns (m: map<real, Resting>)
    ensures m == RestingOf(levels)
  {
    m := map[];
    var i := 0;
    while i < |levels|
      invariant 0 <= i <= |levels|
      invariant m == RestingOf(levels[..i])
    {
      assert levels[..i + 1][..i] == levels[..i];
      var parsed := ParseLevel(levels[i]);
      if parsed.Some? {
        m := m[parsed.value.0 := parsed.value.1];
      }
      i := i + 1;
    }
    assert levels[..i] == levels;
  }

  class Engine {
    var state: map<string, LiqState>
    /** Every `liquidity_update` published, in order. */
    var published: seq<Update>

    ghost predicate Valid()
      reads this
    {
      forall s :: s in state ==> |state[s].history| <= HistoryCap
    }

    constructor ()
      ensures state == map[] && published == [] && Valid()
    {
      state := map[];
      published := [];
    }

    function StateOf(sym: string): LiqState
      reads this
    {
      if sym in state then state[sym] else NewState()
    }

    /** `on_dom`: the resting map is replaced by this snapshot's levels, the
      snapshot joins the history and an update is published. A `dom` that
      cannot be iterated raises after the symbol's record was created. */
    method OnDom(e: Event) returns (u: Option<Update>)
      requires Valid()
      modifies this
      ensures Valid()
      ensures DomItems(e.payload).None? ==> u.None? && state == old(state)[e.symbol := old(StateOf(e.symbol))]
      ensures DomItems(e.payload).Some? ==>
                var resting := RestingOf(DomItems(e.payload).value);
                var history := Push(old(StateOf(e.symbol)).history, DomEntry(e.ts, resting), HistoryCap);
                state == old(state)[e.symbol := LiqState(resting, history)] &&
                u == Some(Update(e.symbol, resting, |history|))
      ensures published == old(published) + Emitted(u)
    {
      var items := DomItems(e.payload);
      var st := StateOf(e.symbol);
      if items.None? {
        state := state[e.symbol := st];
        return None;
      }
      var resting := BuildResting(items.value);
      st := LiqState(resting, Push(st.history, DomEntry(e.ts, resting), HistoryCap));
      state := state[e.symbol := st];
      u := Some(Update(e.symbol, resting, |st.history|));
      published := published + Emitted(u);
    }

    /** `on_trade`: the trade joins the history; the resting map is kept. */
    method OnTrade(e: Event) returns (u: Update)
      requires Valid()
      modifies this
      ensures Valid()
      ensures var history := Push(old(StateOf(e.symbol)).history, TradeEntry(e.ts, e.payload), HistoryCap);
              state == old(state)[e.symbol := LiqState(old(StateOf(e.symbol)).resting, history)] &&
              u == Update(e.symbol, old(StateOf(e.symbol)).resting, |history|)
      ensures published == old(published) + [u]
    {
      var st := StateOf(e.symbol);
      st := st.(history := Push(st.history, TradeEntry(e.ts, e.payload), HistoryCap));
      state := state[e.symbol := st];
      u := Update(e.symbol, st.resting, |st.history|);
      published := published + [u];
    }
  }
}
