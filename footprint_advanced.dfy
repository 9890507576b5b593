/** The advanced footprint engine: per symbol and price, buy and sell volume;
    a trade without a clear side is split evenly. */
module FootprintAdvanced {
  import opened Common
  import MicroDelta

  datatype Cell = Cell(buy: real, sell: real)

  type Footprint = map<real, Cell>

  /** The cell a price starts from when first touched. */
  function CellAt(fp: Footprint, price: real): Cell
  {
    if price in fp then fp[price] else Cell(0.0, 0.0)
  }

  /** The footprint after a trade of `size` at `price` with `side`. */
  function Book(fp: Footprint, price: real, size: real, side: Value): (r: Footprint)
    ensures r.Keys == fp.Keys + {price}
  {
    var c := CellAt(fp, price);
    fp[price :=
      if side == Str("buy") then c.(buy := c.buy + size)
      else if side == Str("sell") then c.(sell := c.sell + size)
      else Cell(c.buy + size * 0.5, c.sell + size * 0.5)]
  }

  /** A buy grows only the buy volume, a sell only the sell volume, anything
      else both by half; in every case the cell's total grows by the size and
      other prices are untouched. */
  lemma {:induction false} BookEffect(fp: Footprint, price: real, size: real, side: Value)
    ensures var c, r := CellAt(fp, price), Book(fp, price, size, side)[price];
            && r.buy + r.sell == c.buy + c.sell + size
            && (side == Str("buy") ==> r.buy == c.buy + size && r.sell == c.sell)
            && (side == Str("sell") ==> r.sell == c.sell + size && r.buy == c.buy)
            && (side != Str("buy") && side != Str("sell") ==> r.buy - r.sell == c.buy - c.sell)
    ensures forall p :: p in fp && p != price ==> Book(fp, price, size, side)[p] == fp[p]
  {
  }

  /** `imbalance_heatmap`: each price's buy minus sell volume. */
  function Heatmap(fp: Footprint): (h: map<real, real>)
    ensures h.Keys == fp.Keys
    ensures forall p :: p in h ==> h[p] == fp[p].buy - fp[p].sell
  {
    map p | p in fp :: fp[p].buy - fp[p].sell
  }

  /** A split trade leaves the price's imbalance where it was; a buy raises it
      by the size and a sell lowers it by the size. */
  lemma {:induction false} HeatmapAfterTrade(fp: Footprint, price: real, size: real, side: Value)
    ensures var before := CellAt(fp, price).buy - CellAt(fp, price).sell;
            var after := Heatmap(Book(fp, price, size, side))[price];
            && (side == Str("buy") ==> after == before + size)
            && (side == Str("sell") ==> after == before - size)
            && (side != Str("buy") && side != Str("sell") ==> after == before)
  {
  }

  class Engine {
    var footprints: map<string, Footprint>

    constructor ()
      ensures footprints == map[]
    {
      footprints := map[];
    }

    function FootprintOf(sym: string): Footprint
      reads this
    {
      if sym in footprints then footprints[sym] else map[]
    }

    /** `on_trade`: prices and sizes are read as in the microstructure delta
      engine; `None` when a conversion raises, and nothing changes then. */
    method OnTrade(e: Event) returns (r: Option<Footprint>)
      modifies this
      ensures r.None? <==> MicroDelta.TradePrice(e.payload).None? || MicroDelta.TradeSize(e.payload).None?
      ensures r.None? ==> footprints == old(footprints)
      ensures r.Some? ==> r.value == Book(old(FootprintOf(e.symbol)), MicroDelta.TradePrice(e.payload).value,
                                          MicroDelta.TradeSize(e.payload).value, MicroDelta.TradeSide(e.payload))
      ensures r.Some? ==> footprints == old(footprints)[e.symbol := r.value]
    {
      var price, size := MicroDelta.TradePrice(e.payload), MicroDelta.TradeSize(e.payload);
      if price.None? || size.None? {
        return None;
      }
      var fp := Book(FootprintOf(e.symbol), price.value, size.value, MicroDelta.TradeSide(e.payload));
      footprints := footprints[e.symbol := fp];
      r := Some(fp);
    }

    /** `imbalance_heatmap(symbol)`: empty for an unseen symbol. */
    method ImbalanceHeatmap(symbol: string) returns (h: map<real, real>)
      ensures h == Heatmap(FootprintOf(symbol))
      ensures symbol !in footprints ==> h == map[]
    {
      h := Heatmap(FootprintOf(symbol));
    }
  }
}
