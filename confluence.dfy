/** The confluence filter: no signal in high volatility or while the
    liquidity engine reports spoofing. */
module Confluence {
  import opened Common

  /** `validate`: missing features count as 0 and never reject. */
  function Validate(f: map<string, real>): (ok: bool)
    ensures ok <==> !(GetReal(f, "volatility") > 5.0) && !(GetReal(f, "liq_spoof") > 0.0)
    ensures "volatility" !in f && "liq_spoof" !in f ==> ok
  {
    var vol := GetReal(f, "volatility");
    if vol != 0.0 && vol > 5.0 then false
    else if GetReal(f, "liq_spoof") > 0.0 then false
    else true
  }

  /** Volatility 4 without spoofing passes; volatility 6 is rejected. */
  lemma {:induction false} SampleValidations()
    ensures Validate(map["volatility" := 4.0, "liq_spoof" := 0.0])
    ensures !Validate(map["volatility" := 6.0])
  {
  }
}
