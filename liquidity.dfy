/** The liquidity engine: iceberg, spoof, replenishment and shift signals
    computed from one DOM delta's added and removed volumes. */
module Liquidity {
  import opened Common

  datatype Signals = Signals(iceberg: real, spoof: real, replenishment: real, shift: real)

  /** The five fields read from the payload, each `float(x or 0.0)`. */
  datatype Flows = Flows(addedBid: real, removedBid: real, addedAsk: real, removedAsk: real, midShift: real)

  function ParseFlows(p: Payload): (r: Option<Flows>)
    ensures r.Some? && "added_bid" !in p ==> r.value.addedBid == 0.0
    ensures r.Some? && "removed_bid" !in p ==> r.value.removedBid == 0.0
    ensures r.Some? && "added_ask" !in p ==> r.value.addedAsk == 0.0
    ensures r.Some? && "removed_ask" !in p ==> r.value.removedAsk == 0.0
    ensures r.Some? && "mid_shift" !in p ==> r.value.midShift == 0.0
  {
    var ab := ToRealOrZero(GetOr(p, "added_bid", Num(0.0)));
    var rb := ToRealOrZero(GetOr(p, "removed_bid", Num(0.0)));
    var aa := ToRealOrZero(GetOr(p, "added_ask", Num(0.0)));
    var ra := ToRealOrZero(GetOr(p, "removed_ask", Num(0.0)));
    var sh := ToRealOrZero(GetOr(p, "mid_shift", Num(0.0)));
    if ab.Some? && rb.Some? && aa.Some? && ra.Some? && sh.Some?
    then Some(Flows(ab.value, rb.value, aa.value, ra.value, sh.value))
    else None
  }

  /** True when the iceberg signal fires (and divides by the threshold). */
  predicate IcebergFires(f: Flows, threshold: real)
  {
    f.removedBid > threshold || f.removedAsk > threshold
  }

  predicate ReplenishFires(f: Flows)
  {
    f.addedBid > 0.0 && f.removedBid == 0.0
  }

  /** The signals for one delta; `None` when a signal that fires would divide
      by a zero threshold (Python raises `ZeroDivisionError`). */
  function Compute(f: Flows, threshold: real, spoofRatio: real): (r: Option<Signals>)
    ensures r.None? <==> threshold == 0.0 && (IcebergFires(f, threshold) || ReplenishFires(f))
    ensures r.Some? ==> r.value.shift == f.midShift
    ensures r.Some? ==> (r.value.spoof == 1.0 <==> f.addedBid > f.removedBid * spoofRatio || f.addedAsk > f.removedAsk * spoofRatio)
    ensures r.Some? ==> (r.value.spoof == 0.0 || r.value.spoof == 1.0)
  {
    if threshold == 0.0 && (IcebergFires(f, threshold) || ReplenishFires(f)) then None
    else
      Some(Signals(
        if IcebergFires(f, threshold) then Max(f.removedBid, f.removedAsk) / threshold else 0.0,
        if f.addedBid > f.removedBid * spoofRatio || f.addedAsk > f.removedAsk * spoofRatio then 1.0 else 0.0,
        if ReplenishFires(f) then f.addedBid / threshold else 0.0,
        if f.midShift != 0.0 then f.midShift else 0.0))
  }

  /** The iceberg score is the larger removal in threshold units when a
      removal exceeds the threshold, and 0 otherwise; with a positive
      threshold a firing iceberg scores above 1. */
  lemma {:induction false} IcebergScore(f: Flows, threshold: real, spoofRatio: real)
    requires Compute(f, threshold, spoofRatio).Some?
    ensures var s := Compute(f, threshold, spoofRatio).value;
            && (!IcebergFires(f, threshold) ==> s.iceberg == 0.0)
            && (IcebergFires(f, threshold) ==> s.iceberg * threshold == Max(f.removedBid, f.removedAsk))
            && (IcebergFires(f, threshold) && threshold > 0.0 ==> s.iceberg > 1.0)
  {
    var s := Compute(f, threshold, spoofRatio).value;
    if IcebergFires(f, threshold) && threshold > 0.0 {
      var m := Max(f.removedBid, f.removedAsk);
      assert m > threshold;
      assert s.iceberg * threshold == m;
    }
  }

  /** Replenishment is the added bid volume in threshold units exactly when
      bid volume was added and none removed. */
  lemma {:induction false} ReplenishmentScore(f: Flows, threshold: real, spoofRatio: real)
    requires Compute(f, threshold, spoofRatio).Some?
    ensures var s := Compute(f, threshold, spoofRatio).value;
            && (!ReplenishFires(f) ==> s.replenishment == 0.0)
            && (ReplenishFires(f) ==> s.replenishment * threshold == f.addedBid)
  {
  }

  /** The signals `on_dom_delta` derives from a payload, `None` when it raises. */
  function FromPayload(p: Payload, threshold: real, spoofRatio: real): Option<Signals>
  {
    match ParseFlows(p)
    case None => None
    case Some(f) => Compute(f, threshold, spoofRatio)
  }

  class Engine {
    const icebergThreshold: real
    const spoofRatio: real
    var state: map<string, Signals>

    /** Defaults in the source: threshold 500, ratio 3. */
    constructor (icebergThreshold: real, spoofRatio: real)
      ensures this.icebergThreshold == icebergThreshold && this.spoofRatio == spoofRatio && state == map[]
    {
      this.icebergThreshold := icebergThreshold;
      this.spoofRatio := spoofRatio;
      state := map[];
    }

    /** `on_dom_delta`: the symbol's signals are replaced by those of this
      delta alone; `None` (and no change) when the handler raises. */
    method OnDomDelta(e: Event) returns (r: Option<Signals>)
      modifies this
      ensures ParseFlows(e.payload).None? ==> r.None?
      ensures ParseFlows(e.payload).Some? ==> r == Compute(ParseFlows(e.payload).value, icebergThreshold, spoofRatio)
      ensures r.None? ==> state == old(state)
      ensures r.Some? ==> state == old(state)[e.symbol := r.value]
      ensures r == FromPayload(e.payload, icebergThreshold, spoofRatio)
    {
      var f := ParseFlows(e.payload);
      if f.None? {
        return None;
      }
      r := Compute(f.value, icebergThreshold, spoofRatio);
      if r.Some? {
        state := state[e.symbol := r.value];
      }
    }
  }
}
