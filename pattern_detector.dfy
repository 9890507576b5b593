/** Pattern heuristics over a snapshot's numeric features and the label
    chosen among them. */
module PatternDetector {
  import opened Common

  /** Large delta with little price progress. */
  predicate DetectAbsorption(delta: real, shift: real)
  {
    Abs(delta) > 500.0 && Abs(shift) < 1.0
  }

  /** Far more liquidity added than removed, some of it removed. */
  predicate DetectSpoof(added: real, removed: real)
  {
    added > removed * 3.0 && removed > 0.0
  }

  /** A large imbalance with a sudden volume drop. */
  predicate DetectVacuum(imbalance: real, volumeDrop: real)
  {
    Abs(imbalance) > 0.6 && volumeDrop > 50.0
  }

  /** Strong delta with weak price follow-through. */
  predicate DetectDivergence(delta: real, priceChange: real)
  {
    Abs(delta) > 300.0 && Abs(priceChange) < 0.25
  }

  predicate Absorption(f: map<string, real>) { DetectAbsorption(GetReal(f, "delta"), GetReal(f, "shift")) }
  predicate Spoof(f: map<string, real>) { DetectSpoof(GetReal(f, "added_liq"), GetReal(f, "removed_liq")) }
  predicate Vacuum(f: map<string, real>) { DetectVacuum(GetReal(f, "imbalance"), GetReal(f, "volume_drop")) }
  predicate Divergence(f: map<string, real>) { DetectDivergence(GetReal(f, "delta"), GetReal(f, "price_change")) }

  /** `classify_pattern`: the first heuristic that holds, in the priority
      absorption, spoof, vacuum, divergence; "none" when none does. */
  function ClassifyPattern(f: map<string, real>): (kind: string)
    ensures kind == "absorption" <==> Absorption(f)
    ensures kind == "spoof" <==> !Absorption(f) && Spoof(f)
    ensures kind == "vacuum" <==> !Absorption(f) && !Spoof(f) && Vacuum(f)
    ensures kind == "divergence" <==> !Absorption(f) && !Spoof(f) && !Vacuum(f) && Divergence(f)
    ensures kind == "none" <==> !Absorption(f) && !Spoof(f) && !Vacuum(f) && !Divergence(f)
  {
    if Absorption(f) then "absorption"
    else if Spoof(f) then "spoof"
    else if Vacuum(f) then "vacuum"
    else if Divergence(f) then "divergence"
    else "none"
  }

  /** The sample features and their labels; empty features are "none". */
  lemma {:induction false} SampleLabels()
    ensures ClassifyPattern(map["delta" := 600.0, "shift" := 0.1]) == "absorption"
    ensures ClassifyPattern(map["added_liq" := 300.0, "removed_liq" := 50.0]) == "spoof"
    ensures ClassifyPattern(map["imbalance" := 0.7, "volume_drop" := 60.0]) == "vacuum"
    ensures ClassifyPattern(map["delta" := 400.0, "price_change" := 0.1]) == "divergence"
    ensures ClassifyPattern(map[]) == "none"
  {
  }
}
