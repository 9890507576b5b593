/** The strategy orchestrator: each microstructure snapshot of a watched
    symbol runs through the regime filter, the playbook, the confluence
    filter and the scorer, and a snapshot that passes them all becomes one
    signal. The snapshot is given by its decoded features and tags. */
module Orchestrator {
  import opened Common
  import opened Signals
  import Playbook
  import Confluence
  import StrategyRegime
  import Scoring
  import EventBus

  /** The signal for one snapshot, or `None` when a filter stops it. */
  function Evaluate(symbols: set<string>, sym: string, f: map<string, real>, tags: seq<string>): (r: Option<Signal>)
    ensures r.Some? ==> sym in symbols
    ensures r.Some? ==> StrategyRegime.IsAllowed(f, StrategyRegime.DefaultAtrThreshold, StrategyRegime.DefaultVolumeThreshold)
    ensures r.Some? ==> Playbook.FirstMatch(Playbook.DefaultRules, f) == Playbook.Enter(r.value.direction)
    ensures r.Some? ==> Confluence.Validate(f)
    ensures r.Some? ==> r.value.score == Scoring.Score(f, tags) > 0.0
    ensures r.Some? ==> 0.0 < r.value.confidence <= 1.0 && r.value.confidence == Min(1.0, r.value.score)
    ensures r.Some? ==> r.value.symbol == sym && r.value.features == f && r.value.metadata == map["tags" := Join(tags, ",")]
  {
    if sym !in symbols then None
    else if !StrategyRegime.IsAllowed(f, StrategyRegime.DefaultAtrThreshold, StrategyRegime.DefaultVolumeThreshold) then None
    else match Playbook.FirstMatch(Playbook.DefaultRules, f)
      case NoAction => None
      case Enter(direction) =>
        if !Confluence.Validate(f) then None
        else
          var score := Scoring.Score(f, tags);
          if score <= 0.0 then None
          else Some(Signal(sym, direction, score, Min(1.0, score), f, map["tags" := Join(tags, ",")]))
  }

  /** Whenever the playbook enters, the score is at least 0.1, so the
      positive-score filter never rejects: a snapshot becomes a signal
      exactly when the symbol is watched and the regime, playbook and
      confluence filters pass. */
  lemma {:induction false} ScoreFilterNeverRejects(symbols: set<string>, sym: string, f: map<string, real>, tags: seq<string>)
    ensures Playbook.FirstMatch(Playbook.DefaultRules, f).Enter? ==> Scoring.Score(f, tags) >= 0.1
    ensures Evaluate(symbols, sym, f, tags).Some? <==>
              && sym in symbols
              && StrategyRegime.IsAllowed(f, StrategyRegime.DefaultAtrThreshold, StrategyRegime.DefaultVolumeThreshold)
              && Playbook.FirstMatch(Playbook.DefaultRules, f).Enter?
              && Confluence.Validate(f)
  {
    Playbook.DefaultDecisions(f);
  }

  class StrategyOrchestrator {
    const symbols: set<string>
    /** Every `signal` published, in order. */
    var published: seq<Signal>

    constructor (symbols: seq<string>)
      ensures this.symbols == set s | s in symbols && published == []
    {
      this.symbols := set s | s in symbols;
      published := [];
    }

    /** `on_microstructure` */
    method OnMicrostructure(sym: string, f: map<string, real>, tags: seq<string>) returns (r: Option<Signal>)
      modifies this
      ensures r == Evaluate(symbols, sym, f, tags)
      ensures published == old(published) + Emitted(r)
    {
      if sym !in symbols {
        return None;
      }
      if !StrategyRegime.IsAllowed(f, StrategyRegime.DefaultAtrThreshold, StrategyRegime.DefaultVolumeThreshold) {
        return None;
      }
      var decision := Playbook.Evaluate(Playbook.DefaultRules, f);
      if decision.NoAction? {
        return None;
      }
      if !Confluence.Validate(f) {
        return None;
      }
      var score := Scoring.Score(f, tags);
      if score <= 0.0 {
        return None;
      }
      r := Some(Signal(sym, decision.direction, score, Min(1.0, score), f, map["tags" := Join(tags, ",")]));
      published := published + Emitted(r);
    }

    /** `start`: one subscription to `microstructure`. */
    method Start(bus: EventBus.Bus, cb: EventBus.CallbackId)
      modifies bus
      ensures bus.subscribers == EventBus.SubscribeAll(old(bus.subscribers), ["microstructure"], cb)
      ensures bus.queue == old(bus.queue) && bus.running == old(bus.running) && bus.calls == old(bus.calls)
    {
      bus.Subscribe(EventBus.One("microstructure"), cb);
    }
  }
}
