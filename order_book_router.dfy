/** The order-book router: a per-symbol queue intent that moves a limit
    order's price a number of ticks into the book. */
module OrderBookRouting {
  import opened Common
  import opened Orders

  /** A queue intent; only the tick step affects the price. */
  datatype QueueIntent = QueueIntent(joinBest: bool, stepInTicks: int, preferLevel: Option<int>)

  /** `QueueIntent()` */
  const DefaultIntent: QueueIntent := QueueIntent(true, 0, None)

  const Tick: real := 0.0001

  /** `order.limit_price or (best_bid if buy else best_ask)` */
  function BasePrice(order: OrderRequest, bestBid: Option<real>, bestAsk: Option<real>): (p: Option<real>)
    ensures order.limitPrice.Some? && order.limitPrice.value != 0.0 ==> p == order.limitPrice
    ensures !(order.limitPrice.Some? && order.limitPrice.value != 0.0) ==> p == (if order.side == Buy then bestBid else bestAsk)
  {
    if order.limitPrice.Some? && order.limitPrice.value != 0.0 then order.limitPrice
    else if order.side == Buy then bestBid
    else bestAsk
  }

  /** `apply` for a given intent. */
  function Biased(intent: QueueIntent, order: OrderRequest, bestBid: Option<real>, bestAsk: Option<real>): (r: OrderRequest)
    ensures r.(limitPrice := order.limitPrice) == order
    ensures order.orderType != Limit || BasePrice(order, bestBid, bestAsk).None? ==> r == order
    ensures order.orderType == Limit && BasePrice(order, bestBid, bestAsk).Some? ==>
              var p := BasePrice(order, bestBid, bestAsk).value;
              && r.limitPrice.Some?
              && (intent.stepInTicks == 0 ==> r.limitPrice.value == p)
              && (order.side == Buy ==> r.limitPrice.value == p + Tick * intent.stepInTicks as real)
              && (order.side == Sell ==> r.limitPrice.value == p - Tick * intent.stepInTicks as real)
  {
    if order.orderType != Limit then order
    else
      match BasePrice(order, bestBid, bestAsk)
      case None => order
      case Some(p) =>
        var price := if intent.stepInTicks != 0
                     then p + Tick * intent.stepInTicks as real * (if order.side == Buy then 1.0 else -1.0)
                     else p;
        order.(limitPrice := Some(price))
  }

  /** A positive step raises a buy's price and lowers a sell's, one tick
      per step. */
  lemma {:induction false} StepMovesIntoBook(intent: QueueIntent, order: OrderRequest, bestBid: Option<real>, bestAsk: Option<real>)
    requires order.orderType == Limit && BasePrice(order, bestBid, bestAsk).Some? && intent.stepInTicks > 0
    ensures var p, r := BasePrice(order, bestBid, bestAsk).value, Biased(intent, order, bestBid, bestAsk);
            && (order.side == Buy ==> r.limitPrice.value > p)
            && (order.side == Sell ==> r.limitPrice.value < p)
  {
  }

  class OrderBookRouter {
    var bias: map<string, QueueIntent>

    constructor ()
      ensures bias == map[]
    {
      bias := map[];
    }

    function IntentOf(symbol: string): QueueIntent
      reads this
    {
      if symbol in bias then bias[symbol] else DefaultIntent
    }

    /** `set_bias`: the symbol's intent is overwritten. */
    method SetBias(symbol: string, intent: QueueIntent)
      modifies this
      ensures bias == old(bias)[symbol := intent]
    {
      bias := bias[symbol := intent];
    }

    /** `apply`: the order biased by its symbol's intent. */
    function Apply(order: OrderRequest, bestBid: Option<real>, bestAsk: Option<real>): (r: OrderRequest)
      reads this
      ensures r == Biased(IntentOf(order.symbol), order, bestBid, bestAsk)
    {
      Biased(IntentOf(order.symbol), order, bestBid, bestAsk)
    }
  }

  /** Without an intent for its symbol, a limit order is priced at its base
      price, unshifted. */
  lemma {:induction false} NoBiasNoShift(router: OrderBookRouter, order: OrderRequest, bestBid: Option<real>, bestAsk: Option<real>)
    requires order.symbol !in router.bias
    requires order.orderType == Limit && BasePrice(order, bestBid, bestAsk).Some?
    ensures router.Apply(order, bestBid, bestAsk).limitPrice == BasePrice(order, bestBid, bestAsk)
  {
  }

  /** A buy without a limit price, biased two ticks, joins at the best bid
      plus two ticks; a later intent replaces the earlier one. */
  method BiasScenario()
  {
    var router := new OrderBookRouter();
    var o := NewOrder("o1", "ES", Buy, 1.0, Limit);
    router.SetBias("ES", QueueIntent(true, 2, None));
    var r := router.Apply(o, Some(100.0), Some(100.5));
    assert r.limitPrice == Some(100.0002);
    router.SetBias("ES", DefaultIntent);
    r := router.Apply(o, Some(100.0), Some(100.5));
    assert r.limitPrice == Some(100.0);
    var m := router.Apply(o.(orderType := Market), Some(100.0), Some(100.5));
    assert m == o.(orderType := Market);
  }
}
