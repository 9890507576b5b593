/** The market regime engine: per symbol, the latest volatility reading,
    combined with each microstructure snapshot's delta into a label. */
module MarketRegime {
  import opened Common

  /** The payload of a `regime_update` event. */
  datatype RegimeUpdate = RegimeUpdate(symbol: string, regime: string, atr: Value, delta: Value)

  /** The label for numeric inputs: trending with high volatility and a
      large delta, squeezing with low volatility, ranging otherwise. */
  function Classify(vol: real, delta: real): (r: string)
    ensures r == "trending" <==> vol > 1.0 && Abs(delta) > 200.0
    ensures r == "squeezing" <==> !(vol > 1.0 && Abs(delta) > 200.0) && vol < 0.2
    ensures r == "ranging" <==> !(vol > 1.0 && Abs(delta) > 200.0) && vol >= 0.2
  {
    if vol > 1.0 && Abs(delta) > 200.0 then "trending"
    else if vol < 0.2 then "squeezing"
    else "ranging"
  }

  /** The label for the stored values: `None` when a comparison or `abs`
      raises because the value is not a number (`abs` is only reached when
      the volatility exceeds 1). */
  function RegimeOf(vol: Value, delta: Value): (r: Option<string>)
    ensures vol.Num? && delta.Num? ==> r == Some(Classify(vol.n, delta.n))
    ensures vol.Num? && vol.n <= 1.0 ==> r == Some(Classify(vol.n, 0.0))
    ensures !vol.Num? ==> r.None?
  {
    match vol
    case Num(v) =>
      if v > 1.0 then
        (match delta
         case Num(d) => Some(Classify(v, d))
         case _ => None)
      else Some(Classify(v, 0.0))
    case _ => None
  }

  /** `snap.get("cumulative_delta") or snap.get("delta") or 0.0` */
  function DeltaOf(snap: Payload): (d: Value)
    ensures Truthy(Get(snap, "cumulative_delta")) ==> d == Get(snap, "cumulative_delta")
    ensures !Truthy(Get(snap, "cumulative_delta")) && Truthy(Get(snap, "delta")) ==> d == Get(snap, "delta")
    ensures !Truthy(Get(snap, "cumulative_delta")) && !Truthy(Get(snap, "delta")) ==> d == Num(0.0)
  {
    Or(Or(Get(snap, "cumulative_delta"), Get(snap, "delta")), Num(0.0))
  }

  /** `payload.get("snapshot", payload)` as a dict; `None` when the stored
      snapshot is not a dict (its `get` raises). */
  function SnapshotOf(p: Payload): (r: Option<Payload>)
    ensures "snapshot" !in p ==> r == Some(p)
  {
    match GetOr(p, "snapshot", Dict(p))
    case Dict(m) => Some(m)
    case _ => None
  }

  class Engine {
    var currentVol: map<string, Value>
    /** Every `regime_update` published, in order. */
    var published: seq<RegimeUpdate>

    constructor ()
      ensures currentVol == map[] && published == []
    {
      currentVol := map[];
      published := [];
    }

    /** `on_vol`: the reading is stored as given, 0 when absent. */
    method OnVol(e: Event)
      modifies this
      ensures currentVol == old(currentVol)[e.symbol := GetOr(e.payload, "atr", Num(0.0))]
      ensures published == old(published)
    {
      currentVol := currentVol[e.symbol := GetOr(e.payload, "atr", Num(0.0))];
    }

    function VolOf(sym: string): Value
      reads this
    {
      if sym in currentVol then currentVol[sym] else Num(0.0)
    }

    /** `on_micro`: one `regime_update` per snapshot unless reading it
      raises. */
    method OnMicro(e: Event) returns (u: Option<RegimeUpdate>)
      modifies this
      ensures currentVol == old(currentVol)
      ensures SnapshotOf(e.payload).None? ==> u.None?
      ensures SnapshotOf(e.payload).Some? ==>
                var delta := DeltaOf(SnapshotOf(e.payload).value);
                var r := RegimeOf(VolOf(e.symbol), delta);
                && (r.None? ==> u.None?)
                && (r.Some? ==> u == Some(RegimeUpdate(e.symbol, r.value, VolOf(e.symbol), delta)))
      ensures published == old(published) + (if u.Some? then [u.value] else [])
    {
      var snap := SnapshotOf(e.payload);
      if snap.None? {
        return None;
      }
      var delta := DeltaOf(snap.value);
      var vol := VolOf(e.symbol);
      var r := RegimeOf(vol, delta);
      if r.None? {
        return None;
      }
      u := Some(RegimeUpdate(e.symbol, r.value, vol, delta));
      published := published + [u.value];
    }
  }

  /** A symbol with no volatility reading is always squeezing. */
  lemma {:induction false} NoVolatilityIsSqueezing(snap: Payload)
    ensures RegimeOf(Num(0.0), DeltaOf(snap)) == Some("squeezing")
  {
  }
}
