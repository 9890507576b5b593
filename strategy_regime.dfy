/** The strategy's regime filter: no signal when the range is too wide or
    the volume too thin. */
module StrategyRegime {
  import opened Common

  /** Defaults in the source. */
  const DefaultAtrThreshold: real := 3.0
  const DefaultVolumeThreshold: real := 0.0

  /** `is_allowed` on the snapshot's features: a zero or missing `atr` or
      `volume` never triggers its rule. */
  function IsAllowed(f: map<string, real>, atrThreshold: real, volumeThreshold: real): (ok: bool)
    ensures !ok <==> (GetReal(f, "atr") != 0.0 && GetReal(f, "atr") > atrThreshold)
                     || (GetReal(f, "volume") != 0.0 && GetReal(f, "volume") < volumeThreshold)
    ensures GetReal(f, "atr") == 0.0 && GetReal(f, "volume") == 0.0 ==> ok
  {
    var atr := GetReal(f, "atr");
    var vol := GetReal(f, "volume");
    if atr != 0.0 && atr > atrThreshold then false
    else if vol != 0.0 && vol < volumeThreshold then false
    else true
  }

  /** With the default volume threshold of 0 only a negative volume blocks. */
  lemma {:induction false} DefaultVolumeRule(f: map<string, real>)
    requires !(GetReal(f, "atr") > DefaultAtrThreshold)
    ensures IsAllowed(f, DefaultAtrThreshold, DefaultVolumeThreshold) <==> GetReal(f, "volume") >= 0.0
  {
  }

  /** With an ATR threshold of 3 and a volume threshold of 10, ATR 2 is
      allowed and ATR 4 rejected at volume 20. */
  lemma {:induction false} SampleRegimes()
    ensures IsAllowed(map["atr" := 2.0, "volume" := 20.0], 3.0, 10.0)
    ensures !IsAllowed(map["atr" := 4.0, "volume" := 20.0], 3.0, 10.0)
  {
  }
}
