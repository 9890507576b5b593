/** The spoofing detector: per symbol, a bounded history of parsed DOM
    ladders; each new ladder is compared level by level with the previous
    one, and size added far out of proportion to size removed on one side
    raises an alert. */
module Spoofing {
  import opened Common

  datatype Level = Level(price: real, bid: real, ask: real)

  /** The payload of a `spoof` alert. */
  datatype Alert = Alert(symbol: string, side: string, addedBid: real, addedAsk: real, removedBid: real, removedAsk: real)

  /** One ladder level, reading `bid_size` (else `bid`, else 0) and likewise
      for the ask; `None` when the level is skipped because reading it raises. */
  function ParseLevel(level: Value): (r: Option<Level>)
    ensures !level.Dict? ==> r.None?
    ensures r.Some? ==> ToReal(Get(level.fields, "price")) == Some(r.value.price)
    ensures r.Some? && "bid_size" in level.fields ==> ToReal(level.fields["bid_size"]) == Some(r.value.bid)
    ensures r.Some? && "bid_size" !in level.fields && "bid" !in level.fields ==> r.value.bid == 0.0
    ensures r.Some? && "ask_size" in level.fields ==> ToReal(level.fields["ask_size"]) == Some(r.value.ask)
    ensures r.Some? && "ask_size" !in level.fields && "ask" !in level.fields ==> r.value.ask == 0.0
  {
    match level
    case Dict(m) =>
      (match (ToReal(Get(m, "price")),
              ToReal(GetOr(m, "bid_size", GetOr(m, "bid", Num(0.0)))),
              ToReal(GetOr(m, "ask_size", GetOr(m, "ask", Num(0.0)))))
       case (Some(p), Some(b), Some(a)) => Some(Level(p, b, a))
       case _ => None)
    case _ => None
  }

  /** The levels kept from a list of items, in order. */
  function Parsed(items: seq<Value>): (r: seq<Level>)
    ensures |r| <= |items|
  {
    if items == [] then []
    else
      var front := Parsed(items[..|items| - 1]);
      match ParseLevel(items[|items| - 1])
      case Some(l) => front + [l]
      case None => front
  }

  /** `payload.get("dom") or payload.get("ladder") or []`, kept only when it
      is a list. */
  function Ladder(p: Payload): (r: seq<Value>)
    ensures Truthy(Get(p, "dom")) ==> r == (if Get(p, "dom").List? then Get(p, "dom").items else [])
    ensures !Truthy(Get(p, "dom")) && Truthy(Get(p, "ladder")) ==>
              r == (if Get(p, "ladder").List? then Get(p, "ladder").items else [])
    ensures !Truthy(Get(p, "dom")) && !Truthy(Get(p, "ladder")) ==> r == []
  {
    match Or(Or(Get(p, "dom"), Get(p, "ladder")), List([]))
    case List(items) => items
    case _ => []
  }

  /** The loop of `on_dom` that builds `levels`. */
  method ParseLevels(items: seq<Value>) returns (levels: seq<Level>)
    ensures levels == Parsed(items)
  {
    levels := [];
    var i := 0;
    while i < |items|
      invariant 0 <= i <= |items|
      invariant levels == Parsed(items[..i])
    {
      assert items[..i + 1][..i] == items[..i];
      var l := ParseLevel(items[i]);
      if l.Some? {
        levels := levels + [l.value];
      }
      i := i + 1;
    }
    assert items[..i] == items;
  }

  /** Two levels at the same price, to within 1e-6. */
  predicate Aligned(a: Level, b: Level)
  {
    Abs(a.price - b.price) < 0.000001
  }

  function SideSize(l: Level, bid: bool): real
  {
    if bid then l.bid else l.ask
  }

  /** Size added on one side over the `zip` of the two ladders, counting only
      pairs at the same price and only increases. Size removed is size added
      with the ladders swapped. */
  function Added(cur: seq<Level>, prev: seq<Level>, bid: bool): (r: real)
    ensures r >= 0.0
  {
    if cur == [] || prev == [] then 0.0
    else
      (if Aligned(cur[0], prev[0]) then Max(SideSize(cur[0], bid) - SideSize(prev[0], bid), 0.0) else 0.0)
      + Added(cur[1..], prev[1..], bid)
  }

  /** The net change on one side over the aligned pairs. */
  function Net(cur: seq<Level>, prev: seq<Level>, bid: bool): real
  {
    if cur == [] || prev == [] then 0.0
    else
      (if Aligned(cur[0], prev[0]) then SideSize(cur[0], bid) - SideSize(prev[0], bid) else 0.0)
      + Net(cur[1..], prev[1..], bid)
  }

  /** Added minus removed is the net change: every aligned pair contributes
      to exactly one of the two. */
  lemma {:induction false} AddedMinusRemoved(cur: seq<Level>, prev: seq<Level>, bid: bool)
    ensures Added(cur, prev, bid) - Added(prev, cur, bid) == Net(cur, prev, bid)
  {
    if cur != [] && prev != [] {
      AddedMinusRemoved(cur[1..], prev[1..], bid);
      assert Aligned(cur[0], prev[0]) == Aligned(prev[0], cur[0]);
    }
  }

  /** A ladder compared with itself shows nothing added. */
  lemma {:induction false} NothingAddedToSameLadder(l: seq<Level>, bid: bool)
    ensures Added(l, l, bid) == 0.0
  {
    if l != [] {
      NothingAddedToSameLadder(l[1..], bid);
    }
  }

  /** A side spoofs when size was added, and more than `ratio` times what
      was removed. */
  predicate Spoofs(added: real, removed: real, ratio: real)
  {
    added > removed * ratio && added > 0.0
  }

  /** The alert for the four flows: raised when either side spoofs,
      reporting the bid side when both do. */
  function Decide(sym: string, ab: real, aa: real, rb: real, ra: real, ratio: real): (a: Option<Alert>)
    ensures a.Some? <==> Spoofs(ab, rb, ratio) || Spoofs(aa, ra, ratio)
    ensures a.Some? ==> a.value.symbol == sym && a.value.addedBid == ab && a.value.addedAsk == aa
                        && a.value.removedBid == rb && a.value.removedAsk == ra
    ensures a.Some? ==> (a.value.side == "bid" <==> Spoofs(ab, rb, ratio))
    ensures a.Some? ==> (a.value.side == "ask" <==> !Spoofs(ab, rb, ratio))
  {
    if Spoofs(ab, rb, ratio) || Spoofs(aa, ra, ratio)
    then Some(Alert(sym, if Spoofs(ab, rb, ratio) then "bid" else "ask", ab, aa, rb, ra))
    else None
  }

  /** The alert for a ladder against the previous one. */
  function Check(sym: string, cur: seq<Level>, prev: seq<Level>, ratio: real): Option<Alert>
  {
    Decide(sym, Added(cur, prev, true), Added(cur, prev, false), Added(prev, cur, true), Added(prev, cur, false), ratio)
  }

  /** What a history publishes after a ladder joined it: nothing until it
      holds two ladders, then the new ladder checked against the one before. */
  function Compare(sym: string, dq: seq<seq<Level>>, levels: seq<Level>, ratio: real): (a: Option<Alert>)
    ensures |dq| < 2 ==> a.None?
  {
    if |dq| < 2 then None else Check(sym, levels, dq[|dq| - 2], ratio)
  }

  /** An unchanged ladder never raises an alert. */
  lemma {:induction false} UnchangedLadderIsQuiet(sym: string, l: seq<Level>, ratio: real)
    ensures Check(sym, l, l, ratio).None?
  {
    NothingAddedToSameLadder(l, true);
    NothingAddedToSameLadder(l, false);
  }

  class Detector {
    /** `deque(maxlen=window)`; defaults in the source: window 10, ratio 3. */
    const window: nat
    const ratio: real
    var history: map<string, seq<seq<Level>>>
    /** Every alert published, in order. */
    var published: seq<Alert>

    ghost predicate Valid()
      reads this
    {
      forall s :: s in history ==> |history[s]| <= window
    }

    constructor (window: nat, ratio: real)
      ensures this.window == window && this.ratio == ratio
      ensures history == map[] && published == [] && Valid()
    {
      this.window := window;
      this.ratio := ratio;
      history := map[];
      published := [];
    }

    function HistoryOf(sym: string): seq<seq<Level>>
      reads this
    {
      if sym in history then history[sym] else []
    }

    /** `on_dom`: the parsed ladder joins the symbol's history; with a
      previous ladder in the history the two are compared. */
    method OnDom(e: Event) returns (a: Option<Alert>)
      requires Valid()
      modifies this
      ensures Valid()
      ensures history == old(history)[e.symbol := Push(old(HistoryOf(e.symbol)), Parsed(Ladder(e.payload)), window)]
      ensures a == Compare(e.symbol, history[e.symbol], Parsed(Ladder(e.payload)), ratio)
      ensures published == old(published) + Emitted(a)
    {
      var levels := ParseLevels(Ladder(e.payload));
      var dq := Push(HistoryOf(e.symbol), levels, window);
      history := history[e.symbol := dq];
      a := Compare(e.symbol, dq, levels, ratio);
      published := published + Emitted(a);
    }
  }

  /** The previous ladder compared with is the one the symbol's last
      snapshot produced. */
  lemma {:induction false} ComparedWithPrevious(hist: seq<seq<Level>>, levels: seq<Level>, window: nat)
    requires hist != [] && |hist| <= window && |Push(hist, levels, window)| >= 2
    ensures Push(hist, levels, window)[|Push(hist, levels, window)| - 2] == hist[|hist| - 1]
  {
  }

  /** A bid that grows at an unchanged price and ask, with nothing removed,
      raises a bid alert whatever the ratio. */
  lemma {:induction false} BidGrowthAlerts(sym: string, p: real, b1: real, b2: real, ask: real, ratio: real)
    requires b2 > b1
    ensures Check(sym, [Level(p, b2, ask)], [Level(p, b1, ask)], ratio) == Some(Alert(sym, "bid", b2 - b1, 0.0, 0.0, 0.0))
  {
    var cur, prev := [Level(p, b2, ask)], [Level(p, b1, ask)];
    assert Added(cur, prev, true) == b2 - b1;
    assert Added(cur, prev, false) == 0.0;
    assert Added(prev, cur, true) == 0.0;
    assert Added(prev, cur, false) == 0.0;
  }

  /** A snapshot whose `dom` is one level given as a dict of numbers. */
  function OneLevelDom(p: real, b: real, a: real): Payload
  {
    map["dom" := List([Dict(map["price" := Num(p), "bid_size" := Num(b), "ask_size" := Num(a)])])]
  }

  /** Such a snapshot parses to that one level. */
  lemma {:induction false} OneLevelDomParses(p: real, b: real, a: real)
    ensures Parsed(Ladder(OneLevelDom(p, b, a))) == [Level(p, b, a)]
  {
    var l := Dict(map["price" := Num(p), "bid_size" := Num(b), "ask_size" := Num(a)]);
    assert Ladder(OneLevelDom(p, b, a)) == [l];
    assert [l][..0] == [];
    assert ParseLevel(l) == Some(Level(p, b, a));
  }

  /** Two one-level snapshots pushed into an empty two-ladder history: the
      second raises a bid alert when only its bid size grew. */
  lemma {:induction false} GrowthComparedAlerts(sym: string, p: real, b1: real, b2: real, ask: real, ratio: real)
    requires b2 > b1
    ensures var first, second := Parsed(Ladder(OneLevelDom(p, b1, ask))), Parsed(Ladder(OneLevelDom(p, b2, ask)));
            Compare(sym, Push([first], second, 2), second, ratio) == Some(Alert(sym, "bid", b2 - b1, 0.0, 0.0, 0.0))
  {
    OneLevelDomParses(p, b1, ask);
    OneLevelDomParses(p, b2, ask);
    SecondLevelAlerts(sym, p, b1, b2, ask, ratio);
  }

  lemma {:induction false} SecondLevelAlerts(sym: string, p: real, b1: real, b2: real, ask: real, ratio: real)
    requires b2 > b1
    ensures var first, second := [Level(p, b1, ask)], [Level(p, b2, ask)];
            Compare(sym, Push([first], second, 2), second, ratio) == Some(Alert(sym, "bid", b2 - b1, 0.0, 0.0, 0.0))
  {
    var first, second := [Level(p, b1, ask)], [Level(p, b2, ask)];
    assert Push([first], second, 2) == [first, second];
    BidGrowthAlerts(sym, p, b1, b2, ask, ratio);
  }

  /** A two-ladder detector with a ratio of 1.5 after its first snapshot:
      one level, nothing published. */
  method FirstLadder(p: real, b: real, ask: real) returns (d: Detector, a: Option<Alert>)
    ensures fresh(d) && d.Valid() && d.window == 2 && d.ratio == 1.5
    ensures d.history == map["ES" := [Parsed(Ladder(OneLevelDom(p, b, ask)))]] && a.None?
  {
    d := new Detector(2, 1.5);
    a := d.OnDom(Event("dom_snapshot", 0.0, "test", "ES", OneLevelDom(p, b, ask)));
  }

  /** A bid size at price `p` grows from `b1` to `b2` with the ask
      unchanged: with a two-ladder window and a ratio of 1.5 the first
      snapshot is quiet and the second raises a bid spoof alert with the
      growth added and nothing removed. */
  method BidBuildUpScenario(p: real, b1: real, b2: real, ask: real) returns (a1: Option<Alert>, a2: Option<Alert>)
    requires b2 > b1
    ensures a1.None?
    ensures a2 == Some(Alert("ES", "bid", b2 - b1, 0.0, 0.0, 0.0))
  {
    var d;
    d, a1 := FirstLadder(p, b1, ask);
    GrowthComparedAlerts("ES", p, b1, b2, ask, 1.5);
    a2 := d.OnDom(Event("dom_snapshot", 1.0, "test", "ES", OneLevelDom(p, b2, ask)));
  }
}
