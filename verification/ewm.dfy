/**
 * pandas' exponentially weighted mean with `adjust=True` and `min_periods`,
 * as used for Wilder-style smoothing of gains and losses.
 */
module Ewm {
  import opened Wrappers

  lemma ReciprocalBounds(c: real)
    requires c >= 1.0
    ensures 0.0 < 1.0 / c <= 1.0
    ensures c > 1.0 ==> 1.0 / c < 1.0
  {
    var r := 1.0 / c;
    assert r * c == 1.0;
  }

  /** pandas' smoothing factor for a centre of mass `com`: 1 / (1 + com), in (0, 1], and below 1 once com >= 1. */
  function Alpha(com: nat): (a: real)
    ensures 0.0 < a <= 1.0
    ensures com >= 1 ==> a < 1.0
  {
    ReciprocalBounds(1.0 + com as real);
    1.0 / (1.0 + com as real)
  }

  /** The per-step weight decay 1 - alpha for the window `period`, where com = period - 1. */
  function Decay(period: nat): (d: real)
    requires period >= 1
    ensures 0.0 <= d < 1.0
    ensures period >= 2 ==> d > 0.0
  {
    1.0 - Alpha(period - 1)
  }

  lemma ProductNonNegative(a: real, b: real)
    requires a >= 0.0 && b >= 0.0
    ensures a * b >= 0.0
  {
  }

  lemma ProductPositive(a: real, b: real)
    requires a > 0.0 && b > 0.0
    ensures a * b > 0.0
  {
  }

  /**
   * The sum over i < |xs| of d^i * xs[|xs| - 1 - i], in Horner form: the
   * newest value has weight 1 and each older one a further factor d.
   */
  function WeightedSum(xs: seq<real>, d: real): real
  {
    if |xs| == 0 then 0.0 else d * WeightedSum(xs[..|xs| - 1], d) + xs[|xs| - 1]
  }

  /** The sum over i < n of d^i: the total weight WeightedSum spreads over n values. */
  function WeightTotal(n: nat, d: real): real
  {
    if n == 0 then 0.0 else d * WeightTotal(n - 1, d) + 1.0
  }

  lemma {:induction false} WeightTotalAtLeastOne(n: nat, d: real)
    requires n >= 1 && d >= 0.0
    ensures WeightTotal(n, d) >= 1.0
  {
    if n > 1 {
      WeightTotalAtLeastOne(n - 1, d);
      ProductNonNegative(d, WeightTotal(n - 1, d));
    }
  }

  lemma {:induction false} WeightedSumNonNegative(xs: seq<real>, d: real)
    requires d >= 0.0
    requires forall i :: 0 <= i < |xs| ==> xs[i] >= 0.0
    ensures WeightedSum(xs, d) >= 0.0
  {
    if |xs| > 0 {
      var init := xs[..|xs| - 1];
      WeightedSumNonNegative(init, d);
      ProductNonNegative(d, WeightedSum(init, d));
    }
  }

  lemma {:induction false} WeightedSumOfZeros(xs: seq<real>, d: real)
    requires forall i :: 0 <= i < |xs| ==> xs[i] == 0.0
    ensures WeightedSum(xs, d) == 0.0
  {
    if |xs| > 0 {
      var init := xs[..|xs| - 1];
      WeightedSumOfZeros(init, d);
      assert d * WeightedSum(init, d) == d * 0.0;
    }
  }

  /** With a positive decay every value carries positive weight, so one positive value makes the sum positive. */
  lemma {:induction false} WeightedSumPositive(xs: seq<real>, d: real, k: nat)
    requires d > 0.0
    requires forall i :: 0 <= i < |xs| ==> xs[i] >= 0.0
    requires k < |xs| && xs[k] > 0.0
    ensures WeightedSum(xs, d) > 0.0
  {
    var init := xs[..|xs| - 1];
    if k == |xs| - 1 {
      WeightedSumNonNegative(init, d);
      ProductNonNegative(d, WeightedSum(init, d));
    } else {
      WeightedSumPositive(init, d, k);
      ProductPositive(d, WeightedSum(init, d));
    }
  }

  /** The newest value always has weight 1, so it alone keeps the sum positive. */
  lemma LatestKeepsPositive(xs: seq<real>, d: real)
    requires d >= 0.0
    requires forall i :: 0 <= i < |xs| ==> xs[i] >= 0.0
    requires |xs| > 0 && xs[|xs| - 1] > 0.0
    ensures WeightedSum(xs, d) > 0.0
  {
    var init := xs[..|xs| - 1];
    WeightedSumNonNegative(init, d);
    ProductNonNegative(d, WeightedSum(init, d));
  }

  /** The normalised weighted average of a non-empty window. */
  function WeightedMean(xs: seq<real>, d: real): real
    requires |xs| >= 1 && d >= 0.0
  {
    WeightTotalAtLeastOne(|xs|, d);
    WeightedSum(xs, d) / WeightTotal(|xs|, d)
  }

  /** A single observation is its own average. */
  lemma WeightedMeanOfOne(x: real, d: real)
    requires d >= 0.0
    ensures WeightedMean([x], d) == x
  {
    assert [x][..0] == [];
    assert WeightTotal(1, d) == 1.0;
    assert WeightedSum([x], d) == x;
  }

  /** The kernel's decayed weight is never negative, and one more unit of weight completes the next total. */
  lemma DecayedWeight(n: nat, d: real)
    requires n >= 1 && d >= 0.0
    ensures WeightTotal(n, d) * d >= 0.0
    ensures WeightTotal(n, d) * d + 1.0 == WeightTotal(n + 1, d)
  {
    var w := WeightTotal(n, d);
    WeightTotalAtLeastOne(n, d);
    ProductNonNegative(w, d);
    assert w * d == d * w;
  }

  /** The arithmetic of one kernel step: re-weighting the mean m = s / w after decaying w is decaying the sum s. */
  lemma MeanUpdate(s: real, w: real, m: real, d: real, x: real, decayed: real, next: real)
    requires w >= 1.0 && d >= 0.0 && m == s / w && decayed == w * d && decayed >= 0.0
    requires next == (decayed * m + x) / (decayed + 1.0)
    ensures next == (d * s + x) / (d * w + 1.0)
  {
    assert m * w == s;
    assert decayed * m == d * (m * w);
    assert decayed + 1.0 == d * w + 1.0;
  }

  /** The sum after one more observation: the sum `s` of the first `i` values decayed, plus the new value. */
  lemma SumSnoc(xs: seq<real>, i: nat, d: real, s: real)
    requires i < |xs| && s == WeightedSum(xs[..i], d)
    ensures WeightedSum(xs[..i + 1], d) == d * s + xs[i]
  {
    var ys := xs[..i + 1];
    assert ys[..|ys| - 1] == xs[..i];
  }

  /** The average after one more observation, from the sum `s` and the total weight `w` of the first `i` values. */
  lemma MeanSnoc(xs: seq<real>, i: nat, d: real, s: real, w: real)
    requires i < |xs| && d >= 0.0
    requires s == WeightedSum(xs[..i], d) && w == WeightTotal(i, d)
    ensures d * w + 1.0 >= 1.0
    ensures WeightedMean(xs[..i + 1], d) == (d * s + xs[i]) / (d * w + 1.0)
  {
    var ys := xs[..i + 1];
    WeightTotalAtLeastOne(i + 1, d);
    SumSnoc(xs, i, d, s);
    var num := d * s + xs[i];
    var den := d * w + 1.0;
    assert WeightTotal(i + 1, d) == den;
    assert WeightedMean(ys, d) == WeightedSum(ys, d) / WeightTotal(i + 1, d);
  }

  /**
   * The kernel's update, in its own order of operations: with the weight of
   * the first `i` values decayed to `decayed`, re-weighting their average `m`
   * with `xs[i]` gives `next`, the average of the first i + 1 values.
   */
  lemma KernelStep(xs: seq<real>, i: nat, d: real, m: real, decayed: real, next: real)
    requires 0 < i < |xs| && d >= 0.0
    requires m == WeightedMean(xs[..i], d)
    requires decayed == WeightTotal(i, d) * d && decayed >= 0.0
    requires next == (decayed * m + xs[i]) / (decayed + 1.0)
    ensures next == WeightedMean(xs[..i + 1], d)
  {
    var w := WeightTotal(i, d);
    var s := WeightedSum(xs[..i], d);
    WeightTotalAtLeastOne(i, d);
    MeanUpdate(s, w, m, d, xs[i], decayed, next);
    MeanSnoc(xs, i, d, s, w);
  }

  /** Entry `t` of the smoothed series: undefined until `period` observations exist. */
  function SmoothedAt(xs: seq<real>, period: nat, t: nat): Option<real>
    requires period >= 1 && t < |xs|
  {
    if t + 1 < period then None else Some(WeightedMean(xs[..t + 1], Decay(period)))
  }

  /**
   * `xs.ewm(com=period-1, min_periods=period).mean()`: entry t is the
   * weighted average of xs[0..t], defined exactly from index period - 1 on.
   */
  function Smoothed(xs: seq<real>, period: nat): (r: seq<Option<real>>)
    requires period >= 1
    ensures |r| == |xs|
    ensures forall t :: 0 <= t < |xs| ==> (r[t].Some? <==> t >= period - 1)
    ensures forall t :: 0 <= t < |xs| && r[t].Some? ==> r[t].value == WeightedMean(xs[..t + 1], Decay(period))
  {
    seq(|xs|, t requires 0 <= t < |xs| => SmoothedAt(xs, period, t))
  }

  /**
   * pandas' online kernel: it keeps the running average and the running total
   * weight, decays the weight by the factor d per step and folds the new
   * value in with weight 1. Entry t of the result is the weighted average of
   * xs[0..t].
   */
  method RunningMeans(xs: seq<real>, d: real) returns (means: seq<real>)
    requires 0.0 <= d
    ensures |means| == |xs|
    ensures forall t :: 0 <= t < |xs| ==> means[t] == WeightedMean(xs[..t + 1], d)
  {
    if |xs| == 0 {
      return [];
    }
    var weighted := xs[0];
    var oldWeight := 1.0;
    assert xs[..1] == [xs[0]];
    WeightedMeanOfOne(xs[0], d);
    means := [weighted];
    var i := 1;
    while i < |xs|
      invariant 1 <= i <= |xs| && |means| == i
      invariant forall t :: 0 <= t < i ==> means[t] == WeightedMean(xs[..t + 1], d)
      invariant oldWeight == WeightTotal(i, d) && weighted == means[i - 1]
    {
      DecayedWeight(i, d);
      var decayed := oldWeight * d;
      var next := (decayed * weighted + xs[i]) / (decayed + 1.0);
      KernelStep(xs, i, d, weighted, decayed, next);
      oldWeight := decayed + 1.0;
      weighted := next;
      means := means + [weighted];
      i := i + 1;
    }
  }

  /**
   * `xs.ewm(com=period-1, min_periods=period).mean()` as pandas computes it:
   * the kernel's running averages, masked until `period` observations exist.
   * It agrees with `Smoothed` everywhere.
   */
  method EwmMean(xs: seq<real>, period: nat) returns (r: seq<Option<real>>)
    requires period >= 1
    ensures r == Smoothed(xs, period)
  {
    var means := RunningMeans(xs, Decay(period));
    r := seq(|xs|, t requires 0 <= t < |xs| => if t + 1 >= period then Some(means[t]) else None);
  }

  lemma SmoothedNonNegative(xs: seq<real>, period: nat)
    requires period >= 1
    requires forall i :: 0 <= i < |xs| ==> xs[i] >= 0.0
    ensures forall t :: 0 <= t < |xs| && Smoothed(xs, period)[t].Some? ==> Smoothed(xs, period)[t].value >= 0.0
  {
    forall t | 0 <= t < |xs| && Smoothed(xs, period)[t].Some?
      ensures Smoothed(xs, period)[t].value >= 0.0
    {
      WeightedSumNonNegative(xs[..t + 1], Decay(period));
      WeightTotalAtLeastOne(t + 1, Decay(period));
    }
  }

  /** A window of zeros smooths to zero. */
  lemma SmoothedOfZeros(xs: seq<real>, period: nat, t: nat)
    requires period >= 1 && period - 1 <= t < |xs|
    requires forall j :: 0 <= j <= t ==> xs[j] == 0.0
    ensures Smoothed(xs, period)[t] == Some(0.0)
  {
    var w := xs[..t + 1];
    assert forall i :: 0 <= i < |w| ==> w[i] == 0.0;
    WeightedSumOfZeros(w, Decay(period));
    WeightTotalAtLeastOne(t + 1, Decay(period));
  }

  /** A positive newest value makes a defined entry positive, for every period. */
  lemma SmoothedPositive(xs: seq<real>, period: nat, t: nat)
    requires period >= 1 && period - 1 <= t < |xs|
    requires forall i :: 0 <= i < |xs| ==> xs[i] >= 0.0
    requires xs[t] > 0.0
    ensures Smoothed(xs, period)[t].Some? && Smoothed(xs, period)[t].value > 0.0
  {
    LatestKeepsPositive(xs[..t + 1], Decay(period));
    WeightTotalAtLeastOne(t + 1, Decay(period));
  }

  /** For period >= 2 every observation so far carries weight, so one positive value makes a defined entry positive. */
  lemma SmoothedPositiveFrom(xs: seq<real>, period: nat, t: nat, k: nat)
    requires period >= 2 && period - 1 <= t < |xs|
    requires forall i :: 0 <= i < |xs| ==> xs[i] >= 0.0
    requires k <= t && xs[k] > 0.0
    ensures Smoothed(xs, period)[t].Some? && Smoothed(xs, period)[t].value > 0.0
  {
    var d := Decay(period);
    WeightTotalAtLeastOne(t + 1, d);
    WeightedSumPositive(xs[..t + 1], d, k);
  }

  /**
   * For period >= 2 every observation so far carries weight, so a defined
   * entry is zero exactly when all of xs[0..t] are zero.
   */
  lemma SmoothedZeroIff(xs: seq<real>, period: nat, t: nat)
    requires period >= 2 && period - 1 <= t < |xs|
    requires forall i :: 0 <= i < |xs| ==> xs[i] >= 0.0
    ensures Smoothed(xs, period)[t].Some?
    ensures Smoothed(xs, period)[t].value == 0.0 <==> forall j :: 0 <= j <= t ==> xs[j] == 0.0
  {
    var d := Decay(period);
    var w := xs[..t + 1];
    WeightTotalAtLeastOne(t + 1, d);
    if forall j :: 0 <= j <= t ==> xs[j] == 0.0 {
      WeightedSumOfZeros(w, d);
    } else {
      var k :| 0 <= k <= t && xs[k] != 0.0;
      SmoothedPositiveFrom(xs, period, t, k);
    }
  }
}
