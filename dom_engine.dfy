/** The DOM engine: one ladder per symbol, maintained from `dom_delta`
    events, and snapshots of it. */
module DomEngine {
  import opened Common
  import opened State

  /** `int(payload.get("level", 0))`: `None` when `int()` would raise. */
  function LevelOf(p: Payload): (r: Option<int>)
    ensures "level" !in p ==> r == Some(0)
    ensures r.Some? <==> GetOr(p, "level", Num(0.0)).Num?
  {
    match GetOr(p, "level", Num(0.0))
    case Num(n) => Some(Trunc(n))
    case _ => None
  }

  /** The book after one `dom_delta` payload, or `None` when the level
      cannot be read (the book was already created by then). */
  function ApplyDomDelta(book: DomBook, p: Payload): (r: Option<DomBook>)
    requires book.Valid()
    ensures r.Some? <==> LevelOf(p).Some?
    ensures r.Some? ==> r.value.Valid()
    ensures r.Some? && Get(p, "side") != Str("bid") ==> r.value.bids == book.bids
    ensures r.Some? && Get(p, "side") == Str("bid") ==> r.value.asks == book.asks
  {
    match LevelOf(p)
    case None => None
    case Some(level) =>
      var isBid := Get(p, "side") == Str("bid");
      var side := if isBid then book.bids else book.asks;
      var op := Get(p, "operation");
      var side' :=
        if op == Str("insert") || op == Str("update") then
          side.Put(level, DomLevel(Get(p, "price"), Get(p, "size"), Get(p, "market_maker")))
        else if op == Str("delete") then side.Remove(level)
        else side;
      Some(if isBid then book.(bids := side') else book.(asks := side'))
  }

  /** The side of the book a payload addresses: "bid" means bids, anything
      else (including a missing side) means asks. */
  function Addressed(book: DomBook, p: Payload): OMap<int, DomLevel>
  {
    if Get(p, "side") == Str("bid") then book.bids else book.asks
  }

  /** Insert and update both store (price, size, market maker) at the level,
      overwriting what was there; no other level changes. */
  lemma {:induction false} UpsertStoresLevel(book: DomBook, p: Payload)
    requires book.Valid() && LevelOf(p).Some?
    requires Get(p, "operation") in {Str("insert"), Str("update")}
    ensures Addressed(ApplyDomDelta(book, p).value, p).vals ==
            Addressed(book, p).vals[LevelOf(p).value := DomLevel(Get(p, "price"), Get(p, "size"), Get(p, "market_maker"))]
  {
  }

  /** Delete removes the level and nothing else; deleting a level that is
      not there leaves the book as it was. */
  lemma {:induction false} DeleteRemovesLevel(book: DomBook, p: Payload)
    requires book.Valid() && LevelOf(p).Some?
    requires Get(p, "operation") == Str("delete")
    ensures Addressed(ApplyDomDelta(book, p).value, p).vals == Addressed(book, p).vals - {LevelOf(p).value}
    ensures LevelOf(p).value !in Addressed(book, p).vals ==> ApplyDomDelta(book, p) == Some(book)
  {
  }

  /** Any other operation leaves the book unchanged. */
  lemma {:induction false} UnknownOperationIgnored(book: DomBook, p: Payload)
    requires book.Valid() && LevelOf(p).Some?
    requires Get(p, "operation") !in {Str("insert"), Str("update"), Str("delete")}
    ensures ApplyDomDelta(book, p) == Some(book)
  {
  }

  /** A payload without "level" addresses level 0. */
  lemma {:induction false} MissingLevelIsZero(book: DomBook, p: Payload)
    requires book.Valid() && "level" !in p
    ensures ApplyDomDelta(book, p) == ApplyDomDelta(book, p["level" := Num(0.0)])
  {
  }

  class Engine {
    var books: map<string, DomBook>

    ghost predicate Valid()
      reads this
    {
      forall s :: s in books ==> books[s].Valid()
    }

    constructor ()
      ensures Valid() && books == map[]
    {
      books := map[];
    }

    /** The book of a symbol, or an empty one. */
    function BookOf(sym: string): (b: DomBook)
      reads this
      requires Valid()
      ensures b.Valid()
    {
      if sym in books then books[sym] else EmptyBook()
    }

    /** `on_dom_delta`: the symbol's book is created first, then updated;
      `ok` is false when the level cannot be read. */
    method OnDomDelta(e: Event) returns (ok: bool)
      requires Valid()
      modifies this
      ensures Valid()
      ensures ok <==> LevelOf(e.payload).Some?
      ensures ok ==> books == old(books)[e.symbol := ApplyDomDelta(old(BookOf(e.symbol)), e.payload).value]
      ensures !ok ==> books == old(books)[e.symbol := old(BookOf(e.symbol))]
    {
      var book := BookOf(e.symbol);
      books := books[e.symbol := book];
      var r := ApplyDomDelta(book, e.payload);
      if r.None? {
        return false;
      }
      books := books[e.symbol := r.value];
      ok := true;
    }

    /** `snapshot(symbol)`: the payload of the `dom_snapshot` event; an
      unseen symbol gives two empty lists and is not added. */
    method SnapshotOf(sym: string) returns (snap: DomSnapshot)
      requires Valid()
      ensures snap == Snapshot(BookOf(sym))
      ensures sym !in books ==> snap == DomSnapshot([], [])
    {
      snap := Snapshot(BookOf(sym));
    }
  }

  /** A side holding exactly two levels snapshots to two rows, the lower
      level first, each carrying its level's price and size. */
  lemma {:induction false} TwoLevelRows(side: OMap<int, DomLevel>, lo: int, hi: int)
    requires side.Valid() && |side.order| == 2 && lo < hi && lo in side.vals && hi in side.vals
    ensures var rows := SideSnapshot(side);
            && |rows| == 2 && rows[0].level == lo && rows[1].level == hi
            && rows[0].price == side.vals[lo].price && rows[0].size == side.vals[lo].size
            && rows[1].price == side.vals[hi].price && rows[1].size == side.vals[hi].size
  {
    var rows := SideSnapshot(side);
    var i :| 0 <= i < |rows| && rows[i].level == lo;
    var j :| 0 <= j < |rows| && rows[j].level == hi;
    assert i < j;
  }

  /** An insert or update on the bid side puts the level into the bids and
      leaves the asks alone. */
  lemma {:induction false} BidUpsert(book: DomBook, p: Payload, level: int)
    requires book.Valid() && LevelOf(p) == Some(level)
    requires Get(p, "side") == Str("bid") && Get(p, "operation") in {Str("insert"), Str("update")}
    ensures var r := ApplyDomDelta(book, p).value;
            && r.bids == book.bids.Put(level, DomLevel(Get(p, "price"), Get(p, "size"), Get(p, "market_maker")))
            && r.asks == book.asks
  {
  }

  /** Two bid deltas out of level order: an insert at level 3, then an
      update without a level, which addresses level 0. */
  method TwoBidDeltas() returns (eng: Engine)
    ensures fresh(eng) && eng.Valid() && "ES" in eng.books
    ensures eng.books["ES"].bids.order == [3, 0] && eng.books["ES"].asks.order == []
    ensures eng.books["ES"].bids.vals[0] == DomLevel(Num(100.0), Num(5.0), Null)
    ensures eng.books["ES"].bids.vals[3] == DomLevel(Num(99.0), Num(7.0), Null)
  {
    eng := new Engine();
    var p1 := map["side" := Str("bid"), "level" := Num(3.0), "operation" := Str("insert"), "price" := Num(99.0), "size" := Num(7.0)];
    BidUpsert(EmptyBook(), p1, 3);
    var ok := eng.OnDomDelta(Event("dom_delta", 0.0, "test", "ES", p1));
    var b1 := eng.books["ES"];
    var p2 := map["side" := Str("bid"), "operation" := Str("update"), "price" := Num(100.0), "size" := Num(5.0)];
    BidUpsert(b1, p2, 0);
    ok := eng.OnDomDelta(Event("dom_delta", 0.0, "test", "ES", p2));
  }

  /** Three deltas on one symbol: two bid inserts out of level order and an
      ask delete of an absent level. The snapshot lists the bids by level. */
  method LadderScenario() returns (snap: DomSnapshot)
    ensures |snap.bids| == 2 && snap.asks == []
    ensures snap.bids[0].level == 0 && snap.bids[1].level == 3
    ensures snap.bids[0].price == Num(100.0) && snap.bids[1].size == Num(7.0)
  {
    var eng := TwoBidDeltas();
    var bids := eng.books["ES"].bids;
    var p3 := map["side" := Str("ask"), "level" := Num(1.0), "operation" := Str("delete")];
    var ok := eng.OnDomDelta(Event("dom_delta", 0.0, "test", "ES", p3));
    assert eng.books["ES"].bids == bids && eng.books["ES"].asks.order == [];
    TwoLevelRows(bids, 0, 3);
    snap := eng.SnapshotOf("ES");
  }
}
