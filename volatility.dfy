/** The volatility engine: per symbol, a bounded window of recent trade
    prices, its range (an ATR-like measure) and a regime label. */
module Volatility {
  import opened Common

  /** `max(dq)` */
  function SeqMax(s: seq<real>): (m: real)
    requires s != []
    ensures m in s && forall i :: 0 <= i < |s| ==> s[i] <= m
  {
    if |s| == 1 then s[0] else Max(s[0], SeqMax(s[1..]))
  }

  /** `min(dq)` */
  function SeqMin(s: seq<real>): (m: real)
    requires s != []
    ensures m in s && forall i :: 0 <= i < |s| ==> m <= s[i]
  {
    if |s| == 1 then s[0] else Min(s[0], SeqMin(s[1..]))
  }

  /** The range of the window; never negative. */
  function Atr(w: seq<real>): (a: real)
    requires w != []
    ensures a >= 0.0
    ensures exists i, j :: 0 <= i < |w| && 0 <= j < |w| && a == w[i] - w[j]
    ensures forall i, j :: 0 <= i < |w| && 0 <= j < |w| ==> w[i] - w[j] <= a
  {
    SeqMax(w) - SeqMin(w)
  }

  /** The label for a range: below 0.2 compression, above 1.0 expansion,
      otherwise normal. */
  function RegimeOf(atr: real): (r: string)
    ensures r == "compression" <==> atr < 0.2
    ensures r == "expansion" <==> atr > 1.0
    ensures r == "normal" <==> 0.2 <= atr <= 1.0
  {
    if atr < 0.2 then "compression" else if atr > 1.0 then "expansion" else "normal"
  }

  /** The payload of a `volatility_update` event. */
  datatype VolUpdate = VolUpdate(symbol: string, atr: real, regime: string)

  /** `float(payload.get("price", 0.0))`; `None` when it raises. */
  function ParsePrice(p: Payload): (r: Option<real>)
    ensures "price" !in p ==> r == Some(0.0)
    ensures "price" in p ==> r == ToReal(p["price"])
  {
    ToReal(GetOr(p, "price", Num(0.0)))
  }

  class Engine {
    /** `deque(maxlen=window)`; the source's default is 50. */
    const window: nat
    var prices: map<string, seq<real>>
    /** Every `volatility_update` published, in order. */
    var published: seq<VolUpdate>

    ghost predicate Valid()
      reads this
    {
      forall s :: s in prices ==> |prices[s]| <= window
    }

    constructor (window: nat)
      ensures this.window == window && prices == map[] && published == [] && Valid()
    {
      this.window := window;
      prices := map[];
      published := [];
    }

    function WindowOf(sym: string): seq<real>
      reads this
    {
      if sym in prices then prices[sym] else []
    }

    /** `on_trade`: an unparseable price is ignored; otherwise it joins the
      symbol's window (the oldest falls off when full), and with at least
      two prices the range and its label are published. */
    method OnTrade(e: Event) returns (u: Option<VolUpdate>)
      requires Valid()
      modifies this
      ensures Valid()
      ensures ParsePrice(e.payload).None? ==> u.None? && prices == old(prices)
      ensures ParsePrice(e.payload).Some? ==>
                prices == old(prices)[e.symbol := Push(old(WindowOf(e.symbol)), ParsePrice(e.payload).value, window)]
                && u == Reading(e.symbol, prices[e.symbol])
      ensures published == old(published) + Emitted(u)
    {
      var price := ParsePrice(e.payload);
      if price.None? {
        return None;
      }
      var dq := Push(WindowOf(e.symbol), price.value, window);
      prices := prices[e.symbol := dq];
      u := Reading(e.symbol, dq);
      published := published + Emitted(u);
    }
  }

  /** What a window publishes: nothing with fewer than two prices, else its
      range and the range's label. */
  function Reading(sym: string, w: seq<real>): (u: Option<VolUpdate>)
    ensures u.Some? <==> |w| >= 2
    ensures u.Some? ==> u.value.symbol == sym && u.value.atr >= 0.0 && u.value.regime == RegimeOf(u.value.atr)
    ensures u.Some? ==> exists i, j :: 0 <= i < |w| && 0 <= j < |w| && u.value.atr == w[i] - w[j]
    ensures u.Some? ==> forall i, j :: 0 <= i < |w| && 0 <= j < |w| ==> w[i] - w[j] <= u.value.atr
  {
    if |w| < 2 then None else Some(VolUpdate(sym, Atr(w), RegimeOf(Atr(w))))
  }

  /** The window holds the most recent prices: after a push it ends with the
      new price and keeps at most `window` of them. */
  lemma {:induction false} WindowKeepsLatest(w: seq<real>, price: real, window: nat)
    requires window > 0
    ensures var r := Push(w, price, window);
            |r| <= window && r[|r| - 1] == price && r == (w + [price])[|w| + 1 - |r|..]
  {
  }

  /** A flat window is compression; prices spread over more than 1 are
      expansion. */
  lemma {:induction false} RegimeExamples(w: seq<real>)
    requires |w| >= 2
    ensures (forall i :: 0 <= i < |w| ==> w[i] == w[0]) ==> RegimeOf(Atr(w)) == "compression"
    ensures (exists i, j :: 0 <= i < |w| && 0 <= j < |w| && w[i] - w[j] > 1.0) ==> RegimeOf(Atr(w)) == "expansion"
  {
    if forall i :: 0 <= i < |w| ==> w[i] == w[0] {
      var hi, lo := SeqMax(w), SeqMin(w);
      assert hi == w[0] && lo == w[0];
    }
  }
}
