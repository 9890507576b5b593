/** The OHLC engine: per symbol and time bucket, open, high, low, close and
    volume from trades and quotes; each accepted price publishes the
    bucket's bar. */
module Ohlc {
  import opened Common

  /** One bucket's bar: its bucket number and the five values. */
  datatype Bar = Bar(t: int, o: real, h: real, l: real, c: real, v: real)

  /** The payload of a `chart_ohlc` event. */
  datatype Candle = Candle(symbol: string, time: int, open: real, high: real, low: real, close: real, volume: real)

  /** The shape every bar keeps: open and close lie between low and high. */
  predicate Ordered(b: Bar)
  {
    b.l <= b.o <= b.h && b.l <= b.c <= b.h
  }

  /** `_bucket_key`: `int(ts) // tf`. */
  function BucketOf(ts: real, tf: int): (b: int)
    requires tf != 0
    ensures tf > 0 ==> b * tf <= Trunc(ts) < b * tf + tf
  {
    FloorDiv(Trunc(ts), tf)
  }

  /** `f"{symbol}:{bucket}"` */
  function BarKey(symbol: string, bucket: int): (k: string)
    ensures |k| > |symbol| + 1 && k[..|symbol| + 1] == symbol + ":"
  {
    var k := (symbol + ":") + IntToString(bucket);
    assert k[..|symbol| + 1] == symbol + ":";
    k
  }

  /** The bar after price `p` (and `size`) lands in it: a new bar opens at
      `p` with zero volume; high, low and close follow `p`; the volume grows
      by `float(size or 0.0)` unless that conversion raises. */
  function Touch(bar: Option<Bar>, bucket: int, p: real, size: Value): Bar
  {
    var b := if bar.Some? then bar.value else Bar(bucket, p, p, p, p, 0.0);
    var v := ToRealOrZero(size);
    b.(h := Max(b.h, p), l := Min(b.l, p), c := p, v := if v.Some? then b.v + v.value else b.v)
  }

  /** A new bar opens, closes, peaks and bottoms at its first price; a later
      price never changes the open or the bucket, widens high and low to
      include it and becomes the close; the volume grows by the parsed size. */
  lemma {:induction false} TouchEffect(bar: Option<Bar>, bucket: int, p: real, size: Value)
    ensures var r := Touch(bar, bucket, p, size);
            && (bar.None? ==> r.t == bucket && r.o == p && r.h == p && r.l == p && r.c == p)
            && (bar.Some? ==> r.t == bar.value.t && r.o == bar.value.o)
            && (bar.Some? ==> r.h >= bar.value.h && r.l <= bar.value.l)
            && r.l <= p <= r.h && r.c == p
            && (ToRealOrZero(size).Some? ==> r.v == (if bar.Some? then bar.value.v else 0.0) + ToRealOrZero(size).value)
            && (ToRealOrZero(size).None? ==> r.v == (if bar.Some? then bar.value.v else 0.0))
  {
  }

  /** Every bar stays ordered: low <= open, close <= high. */
  lemma {:induction false} TouchKeepsOrdered(bar: Option<Bar>, bucket: int, p: real, size: Value)
    requires bar.Some? ==> Ordered(bar.value)
    ensures Ordered(Touch(bar, bucket, p, size))
  {
  }

  /** The bar a chart event reports: its time is the bucket start. */
  function CandleOf(symbol: string, b: Bar, tf: int): (c: Candle)
    ensures c.time == b.t * tf && c.symbol == symbol
    ensures c.open == b.o && c.high == b.h && c.low == b.l && c.close == b.c && c.volume == b.v
  {
    Candle(symbol, b.t * tf, b.o, b.h, b.l, b.c, b.v)
  }

  /** `_ingest` on the bar table: `None` (no change, nothing emitted) when the
      price is missing or does not convert, or when the bucket division
      raises; otherwise the key and its new bar. */
  function Ingest(bars: map<string, Bar>, tf: int, symbol: string, price: Value, size: Value, ts: real): (r: Option<(string, Bar)>)
    ensures r.Some? <==> price.Num? && tf != 0
    ensures r.Some? ==> r.value.0 == BarKey(symbol, BucketOf(ts, tf))
    ensures r.Some? && r.value.0 !in bars ==> r.value.1.t == BucketOf(ts, tf) && r.value.1.o == price.n
  {
    if price == Null then None
    else match ToReal(price)
      case None => None
      case Some(p) =>
        if tf == 0 then None
        else
          var bucket := BucketOf(ts, tf);
          var key := BarKey(symbol, bucket);
          Some((key, Touch(if key in bars then Some(bars[key]) else None, bucket, p, size)))
  }

  /** `on_quote`'s price: `last`, else `mid`. */
  function QuotePrice(p: Payload): (v: Value)
    ensures Truthy(Get(p, "last")) ==> v == Get(p, "last")
    ensures !Truthy(Get(p, "last")) ==> v == Get(p, "mid")
  {
    Or(Get(p, "last"), Get(p, "mid"))
  }

  class Engine {
    const tf: int
    var buckets: map<string, Bar>
    /** Every `chart_ohlc` payload published, in order. */
    var published: seq<Candle>

    ghost predicate Valid()
      reads this
    {
      forall k :: k in buckets ==> Ordered(buckets[k])
    }

    /** The source's default timeframe is one second. */
    constructor (tf: int)
      ensures this.tf == tf && buckets == map[] && published == [] && Valid()
    {
      this.tf := tf;
      buckets := map[];
      published := [];
    }

    /** `_ingest` then `_emit`. */
    method IngestPrice(symbol: string, price: Value, size: Value, ts: real) returns (c: Option<Candle>)
      requires Valid()
      modifies this
      ensures Valid()
      ensures Ingest(old(buckets), tf, symbol, price, size, ts).None? ==>
                c.None? && buckets == old(buckets) && published == old(published)
      ensures Ingest(old(buckets), tf, symbol, price, size, ts).Some? ==>
                var (key, bar) := Ingest(old(buckets), tf, symbol, price, size, ts).value;
                && buckets == old(buckets)[key := bar]
                && c == Some(CandleOf(symbol, bar, tf))
                && published == old(published) + [c.value]
    {
      var r := Ingest(buckets, tf, symbol, price, size, ts);
      if r.None? {
        return None;
      }
      var (key, bar) := r.value;
      TouchKeepsOrdered(if key in buckets then Some(buckets[key]) else None, BucketOf(ts, tf), price.n, size);
      buckets := buckets[key := bar];
      c := Some(CandleOf(symbol, bar, tf));
      published := published + [c.value];
    }

    /** `on_trade`: the payload's price and size (default 0). */
    method OnTrade(e: Event) returns (c: Option<Candle>)
      requires Valid()
      modifies this
      ensures Valid()
      ensures var r := Ingest(old(buckets), tf, e.symbol, Get(e.payload, "price"), GetOr(e.payload, "size", Num(0.0)), e.ts);
              && (r.None? ==> c.None? && buckets == old(buckets) && published == old(published))
              && (r.Some? ==> buckets == old(buckets)[r.value.0 := r.value.1] &&
                              c == Some(CandleOf(e.symbol, r.value.1, tf)) && published == old(published) + [c.value])
    {
      c := IngestPrice(e.symbol, Get(e.payload, "price"), GetOr(e.payload, "size", Num(0.0)), e.ts);
    }

    /** `on_quote`: `last` or `mid` as the price, with no volume. */
    method OnQuote(e: Event) returns (c: Option<Candle>)
      requires Valid()
      modifies this
      ensures Valid()
      ensures var r := Ingest(old(buckets), tf, e.symbol, QuotePrice(e.payload), Num(0.0), e.ts);
              && (r.None? ==> c.None? && buckets == old(buckets) && published == old(published))
              && (r.Some? ==> buckets == old(buckets)[r.value.0 := r.value.1] &&
                              c == Some(CandleOf(e.symbol, r.value.1, tf)) && published == old(published) + [c.value])
    {
      c := IngestPrice(e.symbol, QuotePrice(e.payload), Num(0.0), e.ts);
    }
  }

  /** A quote never adds volume. */
  lemma {:induction false} QuoteAddsNoVolume(bars: map<string, Bar>, tf: int, symbol: string, p: Payload, ts: real)
    requires Ingest(bars, tf, symbol, QuotePrice(p), Num(0.0), ts).Some?
    ensures var (key, bar) := Ingest(bars, tf, symbol, QuotePrice(p), Num(0.0), ts).value;
            bar.v == (if key in bars then bars[key].v else 0.0)
  {
  }

  /** One trade at 100 of size 1 publishes one bar that opens, closes, peaks
      and bottoms at 100 with volume 1. */
  method FirstTradeScenario(ts: real) returns (c: Option<Candle>)
    ensures c.Some? && c.value.open == 100.0 && c.value.high == 100.0 && c.value.low == 100.0
    ensures c.Some? && c.value.close == 100.0 && c.value.volume == 1.0 && c.value.symbol == "BTCUSDT"
  {
    var eng := new Engine(1);
    c := eng.OnTrade(Event("trade", ts, "sim", "BTCUSDT", map["price" := Num(100.0), "size" := Num(1.0)]));
  }
}
