/** The signal scorer: imbalance, a thousandth of the delta and a bonus for
    absorption. */
module Scoring {
  import opened Common

  /** `score`: missing features count as 0. */
  function Score(f: map<string, real>, tags: seq<string>): (s: real)
    ensures s >= Abs(GetReal(f, "imbalance")) >= 0.0
    ensures "absorption" in tags ==> s >= 0.1
    ensures s - Abs(GetReal(f, "imbalance")) - Abs(GetReal(f, "delta")) * 0.001 == (if "absorption" in tags then 0.1 else 0.0)
  {
    Abs(GetReal(f, "imbalance")) + Abs(GetReal(f, "delta")) * 0.001 + (if "absorption" in tags then 0.1 else 0.0)
  }
}
