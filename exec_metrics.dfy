/** Execution metrics: per symbol, the number of fills and the running
    totals and averages of slippage (basis points) and latency (ms). */
module ExecMetrics {
  import opened Common

  datatype SymbolStats = SymbolStats(fills: nat, slippageTotal: real, latencyTotal: real,
                                     slippageAvg: real, latencyAvg: real)

  /** What a symbol's record reads as before its first fill (`.get(k, 0)` on
      an empty dict). */
  function Fresh(): (s: SymbolStats)
    ensures s.fills == 0 && s.slippageTotal == 0.0 && s.latencyTotal == 0.0
  {
    SymbolStats(0, 0.0, 0.0, 0.0, 0.0)
  }

  /** Each average is its total over the fill count. */
  predicate Averaged(s: SymbolStats)
  {
    s.fills >= 1 && s.slippageAvg * s.fills as real == s.slippageTotal && s.latencyAvg * s.fills as real == s.latencyTotal
  }

  /** `record_fill` on one symbol's record. */
  function Record(s: SymbolStats, slippageBps: real, latencyMs: real): (r: SymbolStats)
    ensures r.fills == s.fills + 1
    ensures r.slippageTotal == s.slippageTotal + slippageBps && r.latencyTotal == s.latencyTotal + latencyMs
    ensures Averaged(r)
  {
    var fills := s.fills + 1;
    var slip, lat := s.slippageTotal + slippageBps, s.latencyTotal + latencyMs;
    SymbolStats(fills, slip, lat, slip / fills as real, lat / fills as real)
  }

  /** The record after a run of `(slippage, latency)` fills from scratch. */
  function Replayed(xs: seq<(real, real)>): SymbolStats
  {
    if xs == [] then Fresh() else Record(Replayed(xs[..|xs| - 1]), xs[|xs| - 1].0, xs[|xs| - 1].1)
  }

  /** After any run of fills the count is the run's length, the totals are
      the sums of what was recorded, and the averages are their means. */
  lemma {:induction false} ReplayedIsMean(xs: seq<(real, real)>)
    ensures var s := Replayed(xs);
            && s.fills == |xs|
            && s.slippageTotal == Sum(Firsts(xs))
            && s.latencyTotal == Sum(Seconds(xs))
            && (xs != [] ==> Averaged(s))
  {
    if xs != [] {
      var init := xs[..|xs| - 1];
      ReplayedIsMean(init);
      assert Firsts(xs)[..|xs| - 1] == Firsts(init);
      assert Seconds(xs)[..|xs| - 1] == Seconds(init);
    }
  }

  /** The fill counts of a table of records, as the numbers `health` sums. */
  function FillCounts(vals: map<string, SymbolStats>): (c: map<string, real>)
    ensures c.Keys == vals.Keys
    ensures forall k :: k in c ==> c[k] == vals[k].fills as real
  {
    map k | k in vals :: vals[k].fills as real
  }

  /** The total fill count over the symbols, in insertion order. */
  function FillsTotal(stats: OMap<string, SymbolStats>): real
    requires stats.Valid()
  {
    Total(stats.order, FillCounts(stats.vals))
  }

  function StatsIn(stats: OMap<string, SymbolStats>, sym: string): SymbolStats
  {
    if sym in stats.vals then stats.vals[sym] else Fresh()
  }

  /** Every recorded fill adds exactly one to the total over all symbols. */
  lemma {:induction false} RecordAddsOneFill(stats: OMap<string, SymbolStats>, sym: string, slippageBps: real, latencyMs: real)
    requires stats.Valid()
    ensures var after := stats.Put(sym, Record(StatsIn(stats, sym), slippageBps, latencyMs));
            after.Valid() && FillsTotal(after) == FillsTotal(stats) + 1.0
  {
    var r := Record(StatsIn(stats, sym), slippageBps, latencyMs);
    var after := stats.Put(sym, r);
    var counts := FillCounts(stats.vals);
    assert FillCounts(after.vals) == counts[sym := r.fills as real];
    if sym in stats.vals {
      TotalUpdate(stats.order, counts, sym, r.fills as real);
    } else {
      TotalAppend(stats.order, counts, sym, r.fills as real);
    }
  }

  class ExecutionMetrics {
    /** Per-symbol records, in the order symbols were first recorded. */
    var stats: OMap<string, SymbolStats>

    ghost predicate Valid()
      reads this
    {
      && stats.Valid()
      && forall k :: k in stats.vals ==> Averaged(stats.vals[k])
    }

    constructor ()
      ensures Valid() && stats.order == [] && stats.vals == map[]
    {
      stats := EmptyOMap();
    }

    function StatsOf(sym: string): SymbolStats
      reads this
    {
      StatsIn(stats, sym)
    }

    /** `record_fill`: only the symbol's own record changes. */
    method RecordFill(sym: string, slippageBps: real, latencyMs: real)
      requires Valid()
      modifies this
      ensures Valid()
      ensures stats == old(stats).Put(sym, Record(old(StatsOf(sym)), slippageBps, latencyMs))
      ensures FillsTotal(stats) == FillsTotal(old(stats)) + 1.0
    {
      RecordAddsOneFill(stats, sym, slippageBps, latencyMs);
      stats := stats.Put(sym, Record(StatsOf(sym), slippageBps, latencyMs));
    }
  }

  /** Two fills on one symbol: count 2, totals and means as recorded, and a
      second symbol untouched. */
  method TwoFillsScenario()
  {
    var m := new ExecutionMetrics();
    m.RecordFill("ES", 2.0, 10.0);
    m.RecordFill("ES", 4.0, 20.0);
    var s := m.StatsOf("ES");
    assert s.fills == 2 && s.slippageTotal == 6.0 && s.slippageAvg == 3.0 && s.latencyAvg == 15.0;
    assert m.StatsOf("NQ") == Fresh();
    assert FillsTotal(m.stats) == 2.0;
  }
}
