/** The queue-time estimate: how long, in seconds, an order waits at a given
    relative queue position for a given average fill rate. */
module QueueTime {
  import opened Common
  import opened Orders

  const DefaultFillRate: real := 100.0

  /** Queue positions are floored at this value. */
  const MinQueuePosition: real := 0.1

  /** `estimate_queue_time`: zero without a positive fill rate, otherwise the
      quantity scaled by the (floored) queue position, over the rate. */
  function EstimateQueueTime(o: OrderRequest, queuePosition: real, avgFillRate: real): (eta: real)
    ensures avgFillRate <= 0.0 ==> eta == 0.0
    ensures avgFillRate > 0.0 ==> eta * avgFillRate == o.quantity * Max(queuePosition, MinQueuePosition)
    ensures o.quantity >= 0.0 ==> eta >= 0.0
  {
    if avgFillRate <= 0.0 then 0.0
    else
      var effective := o.quantity * Max(queuePosition, MinQueuePosition);
      assert o.quantity >= 0.0 ==> effective >= 0.0;
      effective / avgFillRate
  }

  /** Positions at or below the floor all wait as long as the floor itself. */
  lemma {:induction false} PositionFloored(o: OrderRequest, queuePosition: real, avgFillRate: real)
    requires queuePosition <= MinQueuePosition
    ensures EstimateQueueTime(o, queuePosition, avgFillRate) == EstimateQueueTime(o, MinQueuePosition, avgFillRate)
  {
  }

  /** For a non-negative quantity and a positive rate, a later queue position
      never waits less, and a faster fill rate never waits more. */
  lemma {:induction false} QueueTimeMonotone(o: OrderRequest, p1: real, p2: real, r1: real, r2: real)
    requires o.quantity >= 0.0 && p1 <= p2 && 0.0 < r2 <= r1
    ensures EstimateQueueTime(o, p1, r1) <= EstimateQueueTime(o, p2, r2)
  {
    var e1 := o.quantity * Max(p1, MinQueuePosition);
    var e2 := o.quantity * Max(p2, MinQueuePosition);
    assert e1 <= e2 by {
      MulLeft(o.quantity, Max(p1, MinQueuePosition), Max(p2, MinQueuePosition));
    }
    assert e2 >= 0.0;
    assert e1 / r1 <= e2 / r1 by {
      DivLe(e1, e2, r1);
    }
    assert e2 / r1 <= e2 / r2 by {
      DivByLarger(e2, r2, r1);
    }
    assert EstimateQueueTime(o, p1, r1) == e1 / r1;
    assert EstimateQueueTime(o, p2, r2) == e2 / r2;
  }

  lemma {:induction false} MulLeft(q: real, a: real, b: real)
    requires q >= 0.0 && a <= b
    ensures q * a <= q * b
  {
  }

  lemma {:induction false} DivLe(a: real, b: real, r: real)
    requires a <= b && r > 0.0
    ensures a / r <= b / r
  {
  }

  lemma {:induction false} DivByLarger(e: real, small: real, large: real)
    requires e >= 0.0 && 0.0 < small <= large
    ensures e / large <= e / small
  {
    var x, y := e / large, e / small;
    assert x * large == e && y * small == e;
    assert x * large <= y * large by {
      assert y * large >= y * small by {
        assert y >= 0.0;
        MulLeft(y, small, large);
      }
    }
    if x > y {
      MulLeft(large, y, x);
    }
  }

  /** One unit at the default position 0.5 and rate 100 waits 0.005 s. */
  lemma {:induction false} DefaultEstimateExample(o: OrderRequest)
    requires o.quantity == 1.0
    ensures EstimateQueueTime(o, 0.5, DefaultFillRate) == 0.005
  {
  }
}
