/** The large-trade detector: an alert for every trade at least as large as
    the threshold. */
module LargeTrade {
  import opened Common

  /** The payload of a `large_trade` alert; the price and side are passed
      through as received. */
  datatype Alert = Alert(symbol: string, price: Value, size: real, side: Value)

  /** `float(payload.get("size", 0.0))`; `None` when it raises. */
  function TradeSize(p: Payload): (r: Option<real>)
    ensures "size" !in p ==> r == Some(0.0)
  {
    ToReal(GetOr(p, "size", Num(0.0)))
  }

  /** The alert one trade raises, if any. */
  function Detect(e: Event, threshold: real): (a: Option<Alert>)
    ensures a.Some? <==> TradeSize(e.payload).Some? && TradeSize(e.payload).value >= threshold
    ensures a.Some? ==> a.value.size >= threshold && a.value.symbol == e.symbol
    ensures a.Some? ==> a.value.price == Get(e.payload, "price")
    ensures a.Some? && "side" !in e.payload ==> a.value.side == Str("unknown")
  {
    match TradeSize(e.payload)
    case None => None
    case Some(size) =>
      if size < threshold then None
      else Some(Alert(e.symbol, Get(e.payload, "price"), size, GetOr(e.payload, "side", Str("unknown"))))
  }

  class Detector {
    /** The source's default is 50. */
    const threshold: real
    /** Every alert published, in order. */
    var published: seq<Alert>

    constructor (threshold: real)
      ensures this.threshold == threshold && published == []
    {
      this.threshold := threshold;
      published := [];
    }

    /** `on_trade` */
    method OnTrade(e: Event) returns (a: Option<Alert>)
      modifies this
      ensures a == Detect(e, threshold)
      ensures published == old(published) + Emitted(a)
    {
      a := Detect(e, threshold);
      published := published + Emitted(a);
    }
  }

  /** A trade of size 10 against a threshold of 5 raises an alert. */
  method AlertScenario()
  {
    var d := new Detector(5.0);
    var a := d.OnTrade(Event("trade", 0.0, "test", "ES", map["price" := Num(100.0), "size" := Num(10.0)]));
    assert d.published == [Alert("ES", Num(100.0), 10.0, Str("unknown"))];
  }
}
