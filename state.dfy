/** The per-symbol state records of the core engines: a DOM ladder keyed by
    side and level, the delta bar, and the symbol state that bundles them. */
module State {
  import opened Common
  import opened Sorting

  /** One resting level. The fields hold whatever the event carried. */
  datatype DomLevel = DomLevel(price: Value, size: Value, marketMaker: Value)

  /** Bids and asks, each keyed by ladder level (dicts, so they remember
      the order levels were first written). */
  datatype DomBook = DomBook(bids: OMap<int, DomLevel>, asks: OMap<int, DomLevel>)
  {
    ghost predicate Valid()
    {
      bids.Valid() && asks.Valid()
    }
  }

  function EmptyBook(): (b: DomBook)
    ensures b.Valid() && b.bids.vals == map[] && b.asks.vals == map[]
  {
    DomBook(EmptyOMap(), EmptyOMap())
  }

  /** A snapshot row: the level's market maker is not reported. */
  datatype DomRow = DomRow(level: int, price: Value, size: Value)

  datatype DomSnapshot = DomSnapshot(bids: seq<DomRow>, asks: seq<DomRow>)

  function Rows(side: map<int, DomLevel>, levels: seq<int>): (rows: seq<DomRow>)
    requires forall i :: 0 <= i < |levels| ==> levels[i] in side
    ensures |rows| == |levels|
    ensures forall i :: 0 <= i < |rows| ==>
              rows[i] == DomRow(levels[i], side[levels[i]].price, side[levels[i]].size)
  {
    if levels == [] then []
    else
      [DomRow(levels[0], side[levels[0]].price, side[levels[0]].size)] + Rows(side, levels[1..])
  }

  /** `[{level, price, size} for level, l in sorted(side.items())]` */
  function SideSnapshot(side: OMap<int, DomLevel>): (rows: seq<DomRow>)
    requires side.Valid()
    ensures |rows| == |side.order|
    ensures forall i, j :: 0 <= i < j < |rows| ==> rows[i].level < rows[j].level
    ensures forall i :: 0 <= i < |rows| ==>
              rows[i].level in side.vals &&
              rows[i].price == side.vals[rows[i].level].price &&
              rows[i].size == side.vals[rows[i].level].size
    ensures forall l :: l in side.vals ==> exists i :: 0 <= i < |rows| && rows[i].level == l
  {
    SortedLevels(side);
    Rows(side.vals, SortInts(side.order))
  }

  /** Sorting the levels of a side lists every stored level exactly once. */
  lemma {:induction false} SortedLevels(side: OMap<int, DomLevel>)
    requires side.Valid()
    ensures forall i :: 0 <= i < |SortInts(side.order)| ==> SortInts(side.order)[i] in side.vals
    ensures forall l :: l in side.vals ==> exists i :: 0 <= i < |SortInts(side.order)| && SortInts(side.order)[i] == l
  {
    var levels := SortInts(side.order);
    forall i | 0 <= i < |levels| ensures levels[i] in side.vals {
      assert levels[i] in multiset(levels);
    }
    forall l | l in side.vals ensures exists i :: 0 <= i < |levels| && levels[i] == l {
      assert l in multiset(side.order);
      assert l in levels;
    }
  }

  /** `DOMState.snapshot()` */
  function Snapshot(book: DomBook): DomSnapshot
    requires book.Valid()
  {
    DomSnapshot(SideSnapshot(book.bids), SideSnapshot(book.asks))
  }

  /** The delta bar of a symbol. */
  datatype DeltaBar = DeltaBar(buys: real, sells: real, volume: real)

  /** The state a symbol starts with: an empty ladder, no last price, a zero
      delta bar and an empty tape. */
  datatype SymbolState = SymbolState(dom: DomBook, lastPrice: Option<real>, deltaBar: DeltaBar, tape: seq<Payload>)

  function NewSymbolState(): (st: SymbolState)
    ensures st.dom.Valid() && st.dom.bids.vals == map[] && st.dom.asks.vals == map[]
    ensures st.lastPrice.None? && st.tape == []
    ensures st.deltaBar.buys == 0.0 && st.deltaBar.sells == 0.0 && st.deltaBar.volume == 0.0
  {
    SymbolState(EmptyBook(), None, DeltaBar(0.0, 0.0, 0.0), [])
  }

  /** A book with no levels snapshots to two empty lists. */
  lemma {:induction false} EmptyBookSnapshot()
    ensures Snapshot(EmptyBook()) == DomSnapshot([], [])
  {
  }
}
