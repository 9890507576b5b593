/** Order slicing: a parent order larger than the clip size becomes a run of
    child orders of the clip size, the remainder last. */
module Slicing {
  import opened Common
  import opened Orders

  /** The `i`-th child: the parent with its own id and quantity. */
  function Child(parent: OrderRequest, i: nat, qty: real): OrderRequest
  {
    parent.(orderId := parent.orderId + "-child-" + NatToString(i), quantity := qty)
  }

  /** A child differs from its parent only in its id, which extends the
      parent's id with its index, and its quantity. */
  lemma {:induction false} ChildFields(parent: OrderRequest, i: nat, qty: real)
    ensures var c := Child(parent, i, qty);
            && c.orderId == parent.orderId + "-child-" + NatToString(i) && c.quantity == qty
            && c.(orderId := parent.orderId, quantity := parent.quantity) == parent
            && c.side == parent.side && c.orderType == parent.orderType && c.limitPrice == parent.limitPrice
  {
  }

  /** The summed quantity of a list of orders. */
  function TotalQty(s: seq<OrderRequest>): real
  {
    if s == [] then 0.0 else TotalQty(s[..|s| - 1]) + s[|s| - 1].quantity
  }

  /** `k` clips' worth of quantity, `k * clip`, by repeated addition. */
  function Clips(k: nat, clip: real): real
  {
    if k == 0 then 0.0 else Clips(k - 1, clip) + clip
  }

  lemma {:induction false} ClipsIsProduct(k: nat, clip: real)
    ensures Clips(k, clip) == k as real * clip
  {
    if k > 0 {
      ClipsIsProduct(k - 1, clip);
      assert k as real * clip == (k - 1) as real * clip + clip;
    }
  }

  lemma {:induction false} ClipsMonotone(a: nat, b: nat, clip: real)
    requires a <= b && clip > 0.0
    ensures Clips(a, clip) <= Clips(b, clip)
    ensures a < b ==> Clips(a, clip) < Clips(b, clip)
    decreases b
  {
    if a < b {
      ClipsMonotone(a, b - 1, clip);
    }
  }

  /** The number of clips needed: the least `n` with `n` clips covering the
      quantity. */
  predicate IsClipCount(n: nat, qty: real, clip: real)
  {
    n >= 1 && Clips(n - 1, clip) < qty <= Clips(n, clip)
  }

  lemma {:induction false} MulLe(a: real, b: real, c: real)
    requires a <= b && c > 0.0
    ensures a * c <= b * c
  {
  }

  lemma {:induction false} MulLt(a: real, b: real, c: real)
    requires a < b && c > 0.0
    ensures a * c < b * c
  {
  }

  /** `math.ceil(x)` */
  function Ceiling(x: real): (c: int)
    ensures (c - 1) as real < x <= c as real
  {
    -((-x).Floor)
  }

  lemma {:induction false} QuotientAboveOne(qty: real, clip: real)
    requires clip > 0.0 && qty > clip
    ensures qty / clip > 1.0
  {
    var x := qty / clip;
    assert x * clip == qty;
    if x <= 1.0 {
      MulLe(x, 1.0, clip);
    }
  }

  /** The number of children of a sliced order, `ceil(qty / clip)`. */
  function ClipCount(qty: real, clip: real): nat
    requires clip > 0.0 && qty > clip
  {
    QuotientAboveOne(qty, clip);
    Ceiling(qty / clip)
  }

  /** `ceil(qty / clip)` clips are the fewest that cover the quantity. */
  lemma {:induction false} ClipCountCovers(qty: real, clip: real)
    requires clip > 0.0 && qty > clip
    ensures IsClipCount(ClipCount(qty, clip), qty, clip)
    ensures ClipCount(qty, clip) >= 2
  {
    var x := qty / clip;
    assert x * clip == qty;
    QuotientAboveOne(qty, clip);
    var n := ClipCount(qty, clip);
    ClipsAround(n - 1, x, clip);
  }

  /** `x` clips lie strictly above `m` clips and within `m + 1` clips when
      `x` lies so between `m` and `m + 1`. */
  lemma {:induction false} ClipsAround(m: nat, x: real, clip: real)
    requires m as real < x <= (m + 1) as real && clip > 0.0
    ensures Clips(m, clip) < x * clip <= Clips(m + 1, clip)
  {
    ClipsIsProduct(m, clip);
    ClipsIsProduct(m + 1, clip);
    var below, above := Clips(m, clip), Clips(m + 1, clip);
    assert below == m as real * clip;
    MulLt(m as real, x, clip);
    assert below < x * clip;
    MulLe(x, (m + 1) as real, clip);
    assert x * clip <= above;
  }

  /** While `k` clips fall short of the quantity, `k` is below the clip
      count, and it is one below when one more clip covers the rest. */
  lemma {:induction false} ClipStep(n: nat, k: nat, qty: real, clip: real)
    requires clip > 0.0 && IsClipCount(n, qty, clip) && Clips(k, clip) < qty
    ensures k < n
    ensures qty <= Clips(k + 1, clip) ==> k + 1 == n
  {
    if n <= k {
      ClipsMonotone(n, k, clip);
    }
    if qty <= Clips(k + 1, clip) && k + 1 < n {
      ClipsMonotone(k + 1, n - 1, clip);
    }
  }

  /** The clip count is unique. */
  lemma {:induction false} ClipCountUnique(n: nat, m: nat, qty: real, clip: real)
    requires clip > 0.0 && IsClipCount(n, qty, clip) && IsClipCount(m, qty, clip)
    ensures n == m
  {
    if n < m {
      ClipsMonotone(n, m - 1, clip);
    } else if m < n {
      ClipsMonotone(m, n - 1, clip);
    }
  }

  /** The first `k` children, each of the clip size. */
  function FullClips(order: OrderRequest, clip: real, k: nat): (r: seq<OrderRequest>)
    ensures |r| == k
  {
    if k == 0 then [] else FullClips(order, clip, k - 1) + [Child(order, k - 1, clip)]
  }

  /** The `n` children of a slicing into `n` clips: `n - 1` full clips and
      the remainder. */
  function Sliced(order: OrderRequest, clip: real, n: nat): (r: seq<OrderRequest>)
    requires n >= 1
    ensures |r| == n
  {
    FullClips(order, clip, n - 1) + [Child(order, n - 1, order.quantity - Clips(n - 1, clip))]
  }

  lemma {:induction false} FullClipsShape(order: OrderRequest, clip: real, k: nat)
    ensures forall i :: 0 <= i < k ==> FullClips(order, clip, k)[i] == Child(order, i, clip)
    ensures TotalQty(FullClips(order, clip, k)) == Clips(k, clip)
  {
    FullClipsElems(order, clip, k);
    FullClipsTotal(order, clip, k);
  }

  lemma {:induction false} FullClipsElems(order: OrderRequest, clip: real, k: nat)
    ensures forall i :: 0 <= i < k ==> FullClips(order, clip, k)[i] == Child(order, i, clip)
  {
    if k > 0 {
      FullClipsElems(order, clip, k - 1);
      var prev := FullClips(order, clip, k - 1);
      assert FullClips(order, clip, k) == prev + [Child(order, k - 1, clip)];
    }
  }

  lemma {:induction false} FullClipsTotal(order: OrderRequest, clip: real, k: nat)
    ensures TotalQty(FullClips(order, clip, k)) == Clips(k, clip)
  {
    if k > 0 {
      FullClipsTotal(order, clip, k - 1);
      var prev, c := FullClips(order, clip, k - 1), Child(order, k - 1, clip);
      var r := prev + [c];
      assert FullClips(order, clip, k) == r;
      assert r[..|r| - 1] == prev;
      assert c.quantity == clip;
      assert TotalQty(r) == TotalQty(prev) + c.quantity;
    }
  }

  /** Every child but the last carries the clip, the last carries what is
      left, and together they carry the parent's quantity. */
  lemma {:induction false} SlicedShape(order: OrderRequest, clip: real, n: nat)
    requires n >= 1
    ensures forall i :: 0 <= i < n - 1 ==> Sliced(order, clip, n)[i] == Child(order, i, clip)
    ensures Sliced(order, clip, n)[n - 1].quantity == order.quantity - Clips(n - 1, clip)
    ensures TotalQty(Sliced(order, clip, n)) == order.quantity
  {
    var r := Sliced(order, clip, n);
    FullClipsShape(order, clip, n - 1);
    assert r[..n - 1] == FullClips(order, clip, n - 1);
  }

  /** With a clip count, each child except the last carries the whole clip
      and the last carries a positive amount no larger than the clip. */
  lemma {:induction false} LastChildWithinClip(order: OrderRequest, clip: real, n: nat)
    requires clip > 0.0 && IsClipCount(n, order.quantity, clip)
    ensures 0.0 < Sliced(order, clip, n)[n - 1].quantity <= clip
  {
    SlicedShape(order, clip, n);
  }

  /** What `slice_order` returns: the order itself when it fits in one
      clip, otherwise `ceil(qty / clip)` children. */
  function SliceSpec(order: OrderRequest, clip: real): (r: seq<OrderRequest>)
    requires order.quantity > clip ==> clip > 0.0
  {
    if order.quantity <= clip then [order] else Sliced(order, clip, ClipCount(order.quantity, clip))
  }

  /** The slicing covers the parent exactly: one child per needed clip, the
      full clips first and the remainder last, quantities summing to the
      parent's. */
  lemma {:induction false} SliceSpecShape(order: OrderRequest, clip: real)
    requires order.quantity > clip ==> clip > 0.0
    ensures var r := SliceSpec(order, clip);
            && TotalQty(r) == order.quantity
            && (order.quantity <= clip ==> r == [order])
            && (order.quantity > clip ==>
                  && |r| == ClipCount(order.quantity, clip) >= 2
                  && IsClipCount(|r|, order.quantity, clip)
                  && (forall i :: 0 <= i < |r| - 1 ==> r[i] == Child(order, i, clip))
                  && r[|r| - 1] == Child(order, |r| - 1, order.quantity - Clips(|r| - 1, clip))
                  && 0.0 < r[|r| - 1].quantity <= clip)
  {
    if order.quantity > clip {
      var n := ClipCount(order.quantity, clip);
      ClipCountCovers(order.quantity, clip);
      SlicedShape(order, clip, n);
      LastChildWithinClip(order, clip, n);
    }
  }

  /** `slice_order`. The source loops forever for a non-positive clip below
      the quantity, so that case is excluded. */
  method SliceOrder(order: OrderRequest, clip: real) returns (slices: seq<OrderRequest>)
    requires order.quantity > clip ==> clip > 0.0
    ensures slices == SliceSpec(order, clip)
  {
    if order.quantity <= clip {
      return [order];
    }
    ClipCountCovers(order.quantity, clip);
    ghost var n := ClipCount(order.quantity, clip);
    ghost var full := 0.0;
    slices := [];
    var remaining := order.quantity;
    var idx: nat := 0;
    while remaining > 0.0
      invariant idx <= n && full == Clips(idx, clip)
      invariant remaining > 0.0 ==> remaining == order.quantity - full && slices == FullClips(order, clip, idx)
      invariant remaining <= 0.0 ==> remaining == 0.0 && idx == n && slices == Sliced(order, clip, n)
      decreases n - idx
    {
      ClipStep(n, idx, order.quantity, clip);
      var qty := Min(clip, remaining);
      ghost var full' := full + clip;
      assert full' == Clips(idx + 1, clip);
      if remaining > clip {
        assert qty == clip;
      } else {
        assert order.quantity <= Clips(idx + 1, clip);
        assert idx + 1 == n;
        assert qty == order.quantity - Clips(n - 1, clip);
      }
      slices := slices + [Child(order, idx, qty)];
      remaining := remaining - qty;
      idx := idx + 1;
      full := full';
    }
  }

  /** Twelve with a clip of five: children of 5, 5 and 2. */
  method TwelveByFiveScenario(order: OrderRequest)
    requires order.quantity == 12.0
  {
    var s := SliceOrder(order, 5.0);
    SliceSpecShape(order, 5.0);
    assert IsClipCount(3, 12.0, 5.0);
    ClipCountUnique(|s|, 3, 12.0, 5.0);
    assert |s| == 3 && s[0].quantity == 5.0 && s[1].quantity == 5.0 && s[2].quantity == 2.0;
  }
}
