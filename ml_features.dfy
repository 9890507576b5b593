/** Rolling means over a list of tick prices and the small feature vector
    built from them. */
module MlFeatures {
  import opened Common

  /** `values[-window:]` with Python's slice rules: the last `window` values
      for a positive window, everything for 0 (`-0 == 0`), and everything but
      the first `-window` values for a negative one. */
  function Tail(values: seq<real>, window: int): (r: seq<real>)
    ensures window > 0 ==> |r| == if window <= |values| then window else |values|
    ensures window > 0 ==> r == values[|values| - |r|..]
    ensures window == 0 ==> r == values
    ensures window < 0 ==> r == values[(if -window <= |values| then -window else |values|)..]
  {
    if window > 0 then (if window <= |values| then values[|values| - window..] else values)
    else if window == 0 then values
    else values[(if -window <= |values| then -window else |values|)..]
  }

  /** `rolling_mean`: 0 for no values; `None` where Python divides by zero
      (a zero window over a non-empty list). */
  function RollingMean(values: seq<real>, window: int): (r: Option<real>)
    ensures values == [] ==> r == Some(0.0)
    ensures r.None? <==> values != [] && window == 0
    ensures values != [] && window > 0 ==>
              r.Some? && r.value * |Tail(values, window)| as real == Sum(Tail(values, window))
  {
    if values == [] then Some(0.0)
    else
      var d := if |values| <= window then |values| else window;
      if d == 0 then None else Some(Sum(Tail(values, window)) / d as real)
  }

  /** The sum of values lying between `lo` and `hi` lies between `n * lo` and
      `n * hi`. */
  lemma {:induction false} SumBounds(xs: seq<real>, lo: real, hi: real)
    requires forall i :: 0 <= i < |xs| ==> lo <= xs[i] <= hi
    ensures |xs| as real * lo <= Sum(xs) <= |xs| as real * hi
  {
    if xs != [] {
      SumBounds(xs[..|xs| - 1], lo, hi);
    }
  }

  /** A positive-window mean lies between the smallest and the largest of the
      values it averages, and a constant list averages to its constant. */
  lemma {:induction false} MeanWithinWindow(values: seq<real>, window: int, lo: real, hi: real)
    requires values != [] && window > 0
    requires forall i :: |values| - |Tail(values, window)| <= i < |values| ==> lo <= values[i] <= hi
    ensures lo <= RollingMean(values, window).value <= hi
  {
    var t := Tail(values, window);
    forall i | 0 <= i < |t|
      ensures lo <= t[i] <= hi
    {
      assert t[i] == values[|values| - |t| + i];
    }
    SumBounds(t, lo, hi);
    QuotientBounds(Sum(t), |t| as real, lo, hi);
    MeanIsQuotient(values, window);
  }

  lemma {:induction false} MeanIsQuotient(values: seq<real>, window: int)
    requires values != [] && window > 0
    ensures RollingMean(values, window) == Some(Sum(Tail(values, window)) / |Tail(values, window)| as real)
  {
  }

  lemma {:induction false} QuotientBounds(s: real, n: real, lo: real, hi: real)
    requires n > 0.0 && n * lo <= s <= n * hi
    ensures lo <= s / n <= hi
  {
  }

  /** `build_feature_vector`: the 5- and 10-tick means and the last tick (0
      when there is none). */
  function FeatureVector(ticks: seq<real>): (f: map<string, real>)
    ensures f.Keys == {"mean_5", "mean_10", "last"}
    ensures f["last"] == if ticks == [] then 0.0 else ticks[|ticks| - 1]
    ensures RollingMean(ticks, 5) == Some(f["mean_5"]) && RollingMean(ticks, 10) == Some(f["mean_10"])
  {
    map["mean_5" := RollingMean(ticks, 5).value,
        "mean_10" := RollingMean(ticks, 10).value,
        "last" := if ticks == [] then 0.0 else ticks[|ticks| - 1]]
  }
}
