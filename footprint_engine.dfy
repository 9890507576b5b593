/** The footprint engine: per symbol, per traded price, the volume booked
    under each aggressor value. Prices and the keys of a cell are kept in
    the order they were first seen, as the source's dicts are. */
module FootprintEngine {
  import opened Common
  import opened DeltaEngine

  type Cell = OMap<Value, real>
  type Book = OMap<real, Cell>

  /** Python can use `None`, numbers and strings as dict keys; a list or a
      dict as aggressor makes `cell.get(aggressor)` raise. */
  predicate Hashable(v: Value)
  {
    !v.List? && !v.Dict?
  }

  /** A new price starts with zero buy, sell and unknown volume. */
  function NewCell(): (c: Cell)
    ensures c.Valid()
    ensures c.vals == map[Str("buy") := 0.0, Str("sell") := 0.0, Str("unknown") := 0.0]
    ensures forall k :: k in c.vals ==> c.vals[k] == 0.0 && Hashable(k)
  {
    OMap([Str("buy"), Str("sell"), Str("unknown")],
         map[Str("buy") := 0.0, Str("sell") := 0.0, Str("unknown") := 0.0])
  }

  ghost predicate BookValid(book: Book)
  {
    book.Valid() && forall p :: p in book.vals ==> book.vals[p].Valid()
  }

  /** The volume across all keys of a cell. */
  ghost function CellTotal(c: Cell): real
    requires c.Valid()
  {
    Total(c.order, c.vals)
  }

  /** `cell[k] = cell.get(k, 0.0) + size` */
  function AddToCell(c: Cell, k: Value, size: real): (r: Cell)
    requires c.Valid()
    ensures r.Valid()
    ensures r.vals == c.vals[k := (if k in c.vals then c.vals[k] else 0.0) + size]
  {
    c.Put(k, (if k in c.vals then c.vals[k] else 0.0) + size)
  }

  /** `book.setdefault(price, new cell)` */
  function WithCell(book: Book, price: real): (r: Book)
    requires BookValid(book)
    ensures BookValid(r) && price in r.vals
    ensures price in book.vals ==> r == book
    ensures price !in book.vals ==> r.vals == book.vals[price := NewCell()]
  {
    if price in book.vals then book else book.Put(price, NewCell())
  }

  /** The book after a parsed trade: the cell at the price is created if
      needed; the aggressor's volume grows when it can be a dict key. */
  function BookTrade(book: Book, t: Trade): (r: Book)
    requires BookValid(book)
    ensures BookValid(r)
  {
    var b := WithCell(book, t.price);
    if Hashable(t.aggressor) then b.Put(t.price, AddToCell(b.vals[t.price], t.aggressor, t.size)) else b
  }

  /** A trade changes only the cell at its price, and in that cell only the
      aggressor's volume, which grows by the trade size (from zero when the
      key is new). */
  lemma {:induction false} TradeTouchesOneKey(book: Book, t: Trade)
    requires BookValid(book) && Hashable(t.aggressor)
    ensures var c := WithCell(book, t.price).vals[t.price];
            BookTrade(book, t).vals ==
            WithCell(book, t.price).vals[t.price := AddToCell(c, t.aggressor, t.size)]
    ensures forall p :: p in book.vals && p != t.price ==> BookTrade(book, t).vals[p] == book.vals[p]
    ensures var c := WithCell(book, t.price).vals[t.price];
            BookTrade(book, t).vals[t.price].vals[t.aggressor] ==
            (if t.aggressor in c.vals then c.vals[t.aggressor] else 0.0) + t.size
    ensures forall k :: k in WithCell(book, t.price).vals[t.price].vals && k != t.aggressor ==>
              BookTrade(book, t).vals[t.price].vals[k] == WithCell(book, t.price).vals[t.price].vals[k]
  {
  }

  /** A trade on a new price books into a fresh zero cell. */
  lemma {:induction false} NewPriceStartsAtZero(book: Book, t: Trade)
    requires BookValid(book) && Hashable(t.aggressor) && t.price !in book.vals
    ensures t.price in BookTrade(book, t).vals
    ensures t.aggressor in NewCell().vals ==>
              BookTrade(book, t).vals[t.price].vals == NewCell().vals[t.aggressor := t.size]
  {
  }

  /** A trade payload without an aggressor is booked as "unknown". */
  lemma {:induction false} MissingAggressorIsUnknown(p: Payload)
    requires ParseTrade(p).Some? && "aggressor" !in p
    ensures ParseTrade(p).value.aggressor == Str("unknown")
    ensures Hashable(ParseTrade(p).value.aggressor)
  {
  }

  /** The total volume of the traded price's cell grows by exactly the trade size. */
  lemma {:induction false} CellTotalGrows(book: Book, t: Trade)
    requires BookValid(book) && Hashable(t.aggressor)
    ensures CellTotal(BookTrade(book, t).vals[t.price]) ==
            CellTotal(WithCell(book, t.price).vals[t.price]) + t.size
  {
    var c := WithCell(book, t.price).vals[t.price];
    AddToCellTotal(c, t.aggressor, t.size);
    assert BookTrade(book, t).vals[t.price] == AddToCell(c, t.aggressor, t.size);
  }

  lemma {:induction false} AddToCellTotal(c: Cell, k: Value, size: real)
    requires c.Valid()
    ensures CellTotal(AddToCell(c, k, size)) == CellTotal(c) + size
  {
    if k in c.vals {
      TotalUpdate(c.order, c.vals, k, c.vals[k] + size);
    } else {
      TotalAppend(c.order, c.vals, k, size);
    }
  }

  /** A fresh cell holds no volume. */
  lemma {:induction false} NewCellTotal()
    ensures CellTotal(NewCell()) == 0.0
  {
    var c := NewCell();
    assert c.order[1..][1..][1..] == [];
  }

  /** One snapshot entry: the price and the volume under each key of its cell. */
  datatype Row = Row(price: real, sides: map<Value, real>)

  function Rows(book: Book, prices: seq<real>): (rows: seq<Row>)
    requires forall i :: 0 <= i < |prices| ==> prices[i] in book.vals
    ensures |rows| == |prices|
    ensures forall i :: 0 <= i < |rows| ==> rows[i] == Row(prices[i], book.vals[prices[i]].vals)
  {
    if prices == [] then [] else [Row(prices[0], book.vals[prices[0]].vals)] + Rows(book, prices[1..])
  }

  /** `{"price": price, **sides}`: a row as the published dict. The cell's
      keys come second, so a cell key "price" (booked by an aggressor named
      "price") replaces the price. */
  function RowDict(r: Row): (d: map<Value, real>)
    ensures d.Keys == r.sides.Keys + {Str("price")}
    ensures forall k :: k in r.sides ==> d[k] == r.sides[k]
    ensures Str("price") !in r.sides ==> d[Str("price")] == r.price
  {
    map[Str("price") := r.price] + r.sides
  }

  /** A trade at a new price whose aggressor is "price" publishes that price's
      row with its size where the price should be. */
  lemma {:induction false} PriceAggressorHidesPrice(book: Book, t: Trade)
    requires BookValid(book) && t.aggressor == Str("price") && t.price !in book.vals
    ensures RowDict(Row(t.price, BookTrade(book, t).vals[t.price].vals))[Str("price")] == t.size
  {
    assert Str("price") !in NewCell().vals;
    assert BookTrade(book, t).vals[t.price].vals == NewCell().vals[Str("price") := t.size];
  }

  /** The `footprint_snapshot` contents: one row per price, in the order the
      prices were first traded, each holding its cell. */
  function Snapshot(book: Book): (rows: seq<Row>)
    requires BookValid(book)
    ensures |rows| == |book.vals|
    ensures forall i, j :: 0 <= i < j < |rows| ==> rows[i].price != rows[j].price
    ensures forall i :: 0 <= i < |rows| ==> rows[i].price in book.vals && rows[i].sides == book.vals[rows[i].price].vals
    ensures forall p :: p in book.vals ==> exists i :: 0 <= i < |rows| && rows[i].price == p
  {
    SnapshotRows(book);
    Rows(book, book.order)
  }

  lemma {:induction false} SnapshotRows(book: Book)
    requires BookValid(book)
    ensures var rows := Rows(book, book.order);
            && |rows| == |book.vals|
            && (forall i, j :: 0 <= i < j < |rows| ==> rows[i].price != rows[j].price)
            && (forall i :: 0 <= i < |rows| ==> rows[i].price in book.vals && rows[i].sides == book.vals[rows[i].price].vals)
            && (forall p :: p in book.vals ==> exists i :: 0 <= i < |rows| && rows[i].price == p)
  {
    DistinctCard(book.order, book.vals);
    var rows := Rows(book, book.order);
    forall p | p in book.vals ensures exists i :: 0 <= i < |rows| && rows[i].price == p {
      var i :| 0 <= i < |book.order| && book.order[i] == p;
      assert rows[i].price == p;
    }
  }

  /** A duplicate-free order listing exactly the keys has as many entries as keys. */
  lemma {:induction false} DistinctCard<K, V>(order: seq<K>, vals: map<K, V>)
    requires Distinct(order)
    requires forall k :: k in vals <==> k in order
    ensures |vals| == |order|
  {
    DistinctSetCard(order, vals.Keys);
    assert |vals| == |vals.Keys|;
  }

  lemma {:induction false} DistinctSetCard<K>(order: seq<K>, ks: set<K>)
    requires Distinct(order)
    requires forall k :: k in ks <==> k in order
    ensures |ks| == |order|
  {
    if order == [] {
      assert ks == {};
    } else {
      var k := order[|order| - 1];
      var rest := order[..|order| - 1];
      assert order == rest + [k];
      assert k !in rest;
      var rk := ks - {k};
      forall x ensures x in rk <==> x in rest {
        if x in rest { assert x in order; }
      }
      DistinctSetCard(rest, rk);
      assert ks == rk + {k};
    }
  }

  class Engine {
    var cells: map<string, Book>

    ghost predicate Valid()
      reads this
    {
      forall s :: s in cells ==> BookValid(cells[s])
    }

    constructor ()
      ensures Valid() && cells == map[]
    {
      cells := map[];
    }

    function BookOf(sym: string): (b: Book)
      reads this
      requires Valid()
      ensures BookValid(b)
    {
      if sym in cells then cells[sym] else EmptyOMap()
    }

    /** `on_trade`: fields are read first (a failed conversion changes
      nothing); then the book and the cell are created, then the
      aggressor's volume grows. `ok` is false when the handler raises. */
    method OnTrade(e: Event) returns (ok: bool)
      requires Valid()
      modifies this
      ensures Valid()
      ensures ok <==> ParseTrade(e.payload).Some? && Hashable(ParseTrade(e.payload).value.aggressor)
      ensures ParseTrade(e.payload).None? ==> cells == old(cells)
      ensures ParseTrade(e.payload).Some? ==>
                cells == old(cells)[e.symbol := BookTrade(old(BookOf(e.symbol)), ParseTrade(e.payload).value)]
    {
      var t := ParseTrade(e.payload);
      if t.None? {
        return false;
      }
      cells := cells[e.symbol := BookTrade(BookOf(e.symbol), t.value)];
      ok := Hashable(t.value.aggressor);
    }

    /** `snapshot(symbol)`: an unseen symbol gives no rows and is not added. */
    method SnapshotOf(symbol: string) returns (rows: seq<Row>)
      requires Valid()
      ensures rows == Snapshot(BookOf(symbol))
      ensures symbol !in cells ==> rows == []
    {
      rows := Snapshot(BookOf(symbol));
    }
  }

  /** Two trades at one price with different aggressors, on an empty book,
      give a single row booking each size under its own key. */
  lemma {:induction false} SamePriceOneRow(t1: Trade, t2: Trade)
    requires t1.price == t2.price && t1.aggressor != t2.aggressor
    requires t1.aggressor in NewCell().vals && t2.aggressor in NewCell().vals
    ensures Snapshot(BookTrade(BookTrade(EmptyOMap(), t1), t2)) ==
            [Row(t1.price, NewCell().vals[t1.aggressor := t1.size][t2.aggressor := t2.size])]
  {
    TwoTradesOnePrice(t1, t2);
    OnePriceSnapshot(BookTrade(BookTrade(EmptyOMap(), t1), t2), t1.price);
  }

  /** A book with one price snapshots to that price's row. */
  lemma {:induction false} OnePriceSnapshot(b: Book, p: real)
    requires BookValid(b) && b.order == [p]
    ensures Snapshot(b) == [Row(p, b.vals[p].vals)]
  {
    assert Snapshot(b) == Rows(b, [p]);
  }

  lemma {:induction false} TwoTradesOnePrice(t1: Trade, t2: Trade)
    requires t1.price == t2.price && t1.aggressor != t2.aggressor
    requires t1.aggressor in NewCell().vals && t2.aggressor in NewCell().vals
    ensures var b := BookTrade(BookTrade(EmptyOMap(), t1), t2);
            && b.order == [t1.price]
            && b.vals[t1.price].vals == NewCell().vals[t1.aggressor := t1.size][t2.aggressor := t2.size]
  {
    var b1 := BookTrade(EmptyOMap(), t1);
    FirstTradeOneRow(t1);
    assert b1.vals[t1.price].vals[t2.aggressor] == 0.0;
    SameRowAgain(b1, t2);
  }

  /** The first trade on an empty book leaves one price with a fresh cell
      holding its size. */
  lemma {:induction false} FirstTradeOneRow(t: Trade)
    requires t.aggressor in NewCell().vals
    ensures var b := BookTrade(EmptyOMap(), t);
            b.order == [t.price] && b.vals[t.price].vals == NewCell().vals[t.aggressor := t.size]
  {
    NewPriceStartsAtZero(EmptyOMap(), t);
  }

  /** A trade at the book's only price keeps it the only price. */
  lemma {:induction false} SameRowAgain(b: Book, t: Trade)
    requires BookValid(b) && b.order == [t.price] && Hashable(t.aggressor)
    requires t.aggressor in b.vals[t.price].vals && b.vals[t.price].vals[t.aggressor] == 0.0
    ensures var r := BookTrade(b, t);
            r.order == [t.price] && r.vals[t.price].vals == b.vals[t.price].vals[t.aggressor := t.size]
  {
    assert WithCell(b, t.price) == b;
  }

  /** A trade payload carrying a price, a size and an aggressor. */
  function TradeAt(price: real, size: real, aggressor: string): Payload
  {
    map["price" := Num(price), "size" := Num(size), "aggressor" := Str(aggressor)]
  }

  lemma {:induction false} TradeAtParses(price: real, size: real, aggressor: string)
    ensures ParseTrade(TradeAt(price, size, aggressor)) == Some(Trade(price, size, Str(aggressor)))
  {
    var p := TradeAt(price, size, aggressor);
    assert GetOr(p, "price", Num(0.0)) == Num(price) && GetOr(p, "size", Num(0.0)) == Num(size);
  }

  /** A buy of `b` and a sell of `s` at the same price give one row booking
      both. */
  method SamePriceScenario(price: real, b: real, s: real) returns (rows: seq<Row>)
    ensures |rows| == 1 && rows[0].price == price
    ensures rows[0].sides == NewCell().vals[Str("buy") := b][Str("sell") := s]
  {
    var eng := new Engine();
    var t1, t2 := Trade(price, b, Str("buy")), Trade(price, s, Str("sell"));
    TradeAtParses(price, b, "buy");
    TradeAtParses(price, s, "sell");
    SamePriceOneRow(t1, t2);
    var ok := eng.OnTrade(Event("trade", 0.0, "test", "ES", TradeAt(price, b, "buy")));
    ok := eng.OnTrade(Event("trade", 1.0, "test", "ES", TradeAt(price, s, "sell")));
    rows := eng.SnapshotOf("ES");
  }
}
