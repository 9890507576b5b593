/** The advanced tape engine: per-symbol trade counts, aggressor volumes and
    an absorption score over a sliding time window of trade sizes. The wall
    clock is the explicit parameter `now` (epoch seconds). */
module TapeAdvanced {
  import opened Common
  import MicroDelta

  datatype TapeStats = TapeStats(buyVolume: real, sellVolume: real, trades: nat, absorptionScore: real, lastPrice: real)

  function NewTapeStats(): (s: TapeStats)
    ensures s.buyVolume == 0.0 && s.sellVolume == 0.0 && s.trades == 0 && s.absorptionScore == 0.0
  {
    TapeStats(0.0, 0.0, 0, 0.0, 0.0)
  }

  /** One history entry: when the trade was seen and its size. */
  datatype Entry = Entry(ts: real, size: real)

  /** `[(t, s) for t, s in hist if t >= cutoff]` */
  function Recent(hist: seq<Entry>, cutoff: real): (r: seq<Entry>)
    ensures |r| <= |hist|
    ensures forall e :: e in r <==> e in hist && e.ts >= cutoff
  {
    if hist == [] then []
    else (if hist[0].ts >= cutoff then [hist[0]] else []) + Recent(hist[1..], cutoff)
  }

  /** `sum(s for _, s in hist)` */
  function Volume(hist: seq<Entry>): real
  {
    if hist == [] then 0.0 else hist[0].size + Volume(hist[1..])
  }

  /** Window volumes are non-negative when every size is. */
  lemma {:induction false} VolumeNonNegative(hist: seq<Entry>)
    requires forall i :: 0 <= i < |hist| ==> hist[i].size >= 0.0
    ensures Volume(hist) >= 0.0
  {
    if hist != [] {
      VolumeNonNegative(hist[1..]);
    }
  }

  /** `_update_history` at time `now`: append, then keep the entries no older
      than the window. */
  function UpdateHistory(hist: seq<Entry>, now: real, size: real, windowSeconds: real): (r: seq<Entry>)
    ensures forall e :: e in r <==> (e in hist || e == Entry(now, size)) && e.ts >= now - windowSeconds
  {
    Recent(hist + [Entry(now, size)], now - windowSeconds)
  }

  /** `_calc_absorption`: window volume over the threshold, 0 without a
      threshold. */
  function Absorption(hist: seq<Entry>, threshold: real): (r: real)
    ensures threshold == 0.0 ==> r == 0.0
    ensures threshold != 0.0 ==> r * threshold == Volume(hist)
  {
    if threshold != 0.0 then Volume(hist) / threshold else 0.0
  }

  /** The aggressor booking: buy and sell by name, otherwise by the price
      against the mid; `None` when a mid that is not a number is compared. */
  function BookSide(s: TapeStats, side: Value, price: real, size: real, mid: Value): (r: Option<TapeStats>)
    ensures r.None? <==> side != Str("buy") && side != Str("sell") && mid != Null && !mid.Num?
    ensures r.Some? ==> r.value.trades == s.trades && r.value.lastPrice == s.lastPrice
    ensures r.Some? && size >= 0.0 ==> r.value.buyVolume >= s.buyVolume && r.value.sellVolume >= s.sellVolume
    ensures r.Some? ==> r.value.buyVolume + r.value.sellVolume == s.buyVolume + s.sellVolume + (if side == Str("buy") || side == Str("sell") || mid != Null then size else 0.0)
  {
    if side == Str("buy") then Some(s.(buyVolume := s.buyVolume + size))
    else if side == Str("sell") then Some(s.(sellVolume := s.sellVolume + size))
    else match mid
      case Null => Some(s)
      case Num(m) => Some(if price >= m then s.(buyVolume := s.buyVolume + size) else s.(sellVolume := s.sellVolume + size))
      case _ => None
  }

  /** `on_trade` on one symbol's stats and window: the new stats and
      window, or `None` when a conversion or the mid comparison raises. */
  function Traded(s: TapeStats, window: seq<Entry>, p: Payload, now: real,
                  windowSeconds: real, absorptionThreshold: real): Option<(TapeStats, seq<Entry>)>
  {
    var price, size := MicroDelta.TradePrice(p), MicroDelta.TradeSize(p);
    if price.None? || size.None? then None
    else match BookSide(s, MicroDelta.TradeSide(p), price.value, size.value, Get(p, "mid"))
      case None => None
      case Some(b) =>
        var w := UpdateHistory(window, now, size.value, windowSeconds);
        Some((b.(trades := b.trades + 1, lastPrice := price.value, absorptionScore := Absorption(w, absorptionThreshold)), w))
  }

  class Engine {
    const windowSeconds: real
    const absorptionThreshold: real
    var state: map<string, TapeStats>
    var history: map<string, seq<Entry>>

    /** Defaults in the source: a 5 second window, a threshold of 1000. */
    constructor (windowSeconds: real, absorptionThreshold: real)
      ensures this.windowSeconds == windowSeconds && this.absorptionThreshold == absorptionThreshold
      ensures state == map[] && history == map[]
    {
      this.windowSeconds := windowSeconds;
      this.absorptionThreshold := absorptionThreshold;
      state := map[];
      history := map[];
    }

    function StatsOf(sym: string): TapeStats
      reads this
    {
      if sym in state then state[sym] else NewTapeStats()
    }

    function HistoryOf(sym: string): seq<Entry>
      reads this
    {
      if sym in history then history[sym] else []
    }

    /** `on_trade` at time `now`. A failed conversion or an uncomparable mid
      raises before anything changes (`None`). Otherwise the trade is
      booked, counted, added to the window, and the absorption score is
      recomputed from the window. */
    method OnTrade(e: Event, now: real) returns (r: Option<TapeStats>)
      modifies this
      ensures r.Some? <==>
                && MicroDelta.TradePrice(e.payload).Some? && MicroDelta.TradeSize(e.payload).Some?
                && BookSide(old(StatsOf(e.symbol)), MicroDelta.TradeSide(e.payload), MicroDelta.TradePrice(e.payload).value,
                            MicroDelta.TradeSize(e.payload).value, Get(e.payload, "mid")).Some?
      ensures r.None? ==> state == old(state) && history == old(history)
      ensures r.Some? && MicroDelta.TradePrice(e.payload).Some? && MicroDelta.TradeSize(e.payload).Some? ==>
                var price, size := MicroDelta.TradePrice(e.payload).value, MicroDelta.TradeSize(e.payload).value;
                var booked := BookSide(old(StatsOf(e.symbol)), MicroDelta.TradeSide(e.payload), price, size, Get(e.payload, "mid"));
                && booked.Some?
                && history == old(history)[e.symbol := UpdateHistory(old(HistoryOf(e.symbol)), now, size, windowSeconds)]
                && r.value == booked.value.(trades := booked.value.trades + 1, lastPrice := price,
                                            absorptionScore := Absorption(history[e.symbol], absorptionThreshold))
                && state == old(state)[e.symbol := r.value]
      ensures var t := Traded(old(StatsOf(e.symbol)), old(HistoryOf(e.symbol)), e.payload, now, windowSeconds, absorptionThreshold);
              && (r.Some? <==> t.Some?)
              && (t.Some? ==> r.value == t.value.0 && state == old(state)[e.symbol := t.value.0] &&
                              history == old(history)[e.symbol := t.value.1])
    {
      var price, size := MicroDelta.TradePrice(e.payload), MicroDelta.TradeSize(e.payload);
      if price.None? || size.None? {
        return None;
      }
      var booked := BookSide(StatsOf(e.symbol), MicroDelta.TradeSide(e.payload), price.value, size.value, Get(e.payload, "mid"));
      if booked.None? {
        return None;
      }
      var stats := booked.value.(trades := booked.value.trades + 1, lastPrice := price.value);
      history := history[e.symbol := UpdateHistory(HistoryOf(e.symbol), now, size.value, windowSeconds)];
      stats := stats.(absorptionScore := Absorption(history[e.symbol], absorptionThreshold));
      state := state[e.symbol := stats];
      r := Some(stats);
    }
  }

  /** Every completed trade is counted once and sets the last price; with a
      non-negative size neither volume shrinks. */
  lemma {:induction false} TradeCounted(s: TapeStats, side: Value, price: real, size: real, mid: Value)
    requires BookSide(s, side, price, size, mid).Some? && size >= 0.0
    ensures var b := BookSide(s, side, price, size, mid).value;
            var r := b.(trades := b.trades + 1, lastPrice := price);
            r.trades == s.trades + 1 && r.lastPrice == price &&
            r.buyVolume >= s.buyVolume && r.sellVolume >= s.sellVolume
  {
  }

  /** With a positive threshold and non-negative sizes the absorption score
      is non-negative. */
  lemma {:induction false} AbsorptionNonNegative(hist: seq<Entry>, threshold: real)
    requires threshold > 0.0
    requires forall i :: 0 <= i < |hist| ==> hist[i].size >= 0.0
    ensures Absorption(hist, threshold) >= 0.0
  {
    VolumeNonNegative(hist);
  }
}
