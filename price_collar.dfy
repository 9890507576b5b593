/** The price collar rule: a limit order may deviate from the reference
    price by at most `collar_bps` basis points. */
module PriceCollar {
  import opened Common
  import opened Orders

  /** The deviation in basis points, against a reference floored at 1e-9. */
  function DeviationBps(limit: real, reference: real): (d: real)
    ensures d >= 0.0
    ensures d == 0.0 <==> limit == reference
  {
    Abs(limit - reference) / Max(reference, 0.000000001) * 10000.0
  }

  /** `within_price_collar` */
  function WithinPriceCollar(o: OrderRequest, reference: real, collarBps: real): (ok: bool)
    ensures o.limitPrice.None? ==> ok
    ensures o.limitPrice.Some? ==> (ok <==> DeviationBps(o.limitPrice.value, reference) <= collarBps)
    ensures o.limitPrice == Some(reference) ==> (ok <==> collarBps >= 0.0)
  {
    match o.limitPrice
    case None => true
    case Some(limit) => DeviationBps(limit, reference) <= collarBps
  }

  /** Only the size of the deviation matters: a limit the same distance
      above or below the reference gets the same answer. */
  lemma {:induction false} CollarSymmetric(o: OrderRequest, reference: real, collarBps: real, d: real)
    ensures WithinPriceCollar(o.(limitPrice := Some(reference + d)), reference, collarBps) ==
            WithinPriceCollar(o.(limitPrice := Some(reference - d)), reference, collarBps)
  {
    assert Abs(reference + d - reference) == Abs(reference - d - reference);
  }

  /** A wider collar admits everything a narrower one does. */
  lemma {:induction false} CollarMonotone(o: OrderRequest, reference: real, narrow: real, wide: real)
    requires narrow <= wide && WithinPriceCollar(o, reference, narrow)
    ensures WithinPriceCollar(o, reference, wide)
  {
  }
}
