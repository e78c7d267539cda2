/** Beta: the sample covariance of stock and benchmark returns over the benchmark's sample variance. */
module Risk {
  import opened Wrappers
  import opened Series
  import opened Stats

  /** The sum of (x - mx) * (y - my) over paired values. */
  function CoDeviation(xs: seq<real>, ys: seq<real>, mx: real, my: real): real
    requires |xs| == |ys|
  {
    if |xs| == 0 then 0.0 else (xs[0] - mx) * (ys[0] - my) + CoDeviation(xs[1..], ys[1..], mx, my)
  }

  /** The sum of (y - m)^2. */
  function SquaredDeviation(ys: seq<real>, m: real): real
  {
    if |ys| == 0 then 0.0 else (ys[0] - m) * (ys[0] - m) + SquaredDeviation(ys[1..], m)
  }

  /** `Series.cov`: the covariance with divisor n - 1. */
  function SampleCovariance(xs: seq<real>, ys: seq<real>): real
    requires |xs| == |ys| >= 2
  {
    CoDeviation(xs, ys, Mean(xs), Mean(ys)) / ((|xs| - 1) as real)
  }

  /** Squared deviations from the common value of a flat series vanish. */
  lemma {:induction false} SquaredDeviationOfFlat(ys: seq<real>, m: real)
    requires forall i :: 0 <= i < |ys| ==> ys[i] == m
    ensures SquaredDeviation(ys, m) == 0.0
  {
    if |ys| > 0 {
      SquaredDeviationOfFlat(ys[1..], m);
    }
  }

  lemma MeanOfFlat(ys: seq<real>)
    requires |ys| > 0
    ensures Flat(ys) ==> Mean(ys) == ys[0]
  {
    if Flat(ys) {
      SumOfConstant(ys, ys[0]);
    }
  }

  /** `Series.var`: the variance with divisor n - 1; a flat series has none. */
  function SampleVariance(ys: seq<real>): (v: real)
    requires |ys| >= 2
    ensures Flat(ys) ==> v == 0.0
  {
    var m := Mean(ys);
    MeanOfFlat(ys);
    if Flat(ys) then
      SquaredDeviationOfFlat(ys, m);
      SquaredDeviation(ys, m) / ((|ys| - 1) as real)
    else
      SquaredDeviation(ys, m) / ((|ys| - 1) as real)
  }

  /**
   * `cov(stock, bench) / var(bench)` over aligned returns: undefined (NaN in
   * the scanner) with fewer than two points or a flat benchmark.
   */
  function Beta(stock: seq<real>, bench: seq<real>): (r: Option<real>)
    requires |stock| == |bench|
    ensures r.None? <==> |bench| < 2 || SampleVariance(bench) == 0.0
    ensures |bench| >= 2 && Flat(bench) ==> r.None?
  {
    if |bench| < 2 then None
    else
      var v := SampleVariance(bench);
      if v == 0.0 then None else Some(SampleCovariance(stock, bench) / v)
  }

  lemma {:induction false} CoDeviationOfAffine(xs: seq<real>, ys: seq<real>, a: real, b: real, m: real)
    requires |xs| == |ys|
    requires forall i :: 0 <= i < |xs| ==> xs[i] == a * ys[i] + b
    ensures CoDeviation(xs, ys, a * m + b, m) == a * SquaredDeviation(ys, m)
  {
    if |xs| > 0 {
      CoDeviationOfAffine(xs[1..], ys[1..], a, b, m);
      var e := ys[0] - m;
      assert xs[0] - (a * m + b) == a * e;
      assert (a * e) * e == a * (e * e);
    }
  }

  /** Dividing the scaled squared deviation by the variance's own divisor leaves the scale. */
  lemma ScaledRatio(a: real, sq: real, n: real)
    requires n > 1.0 && sq != 0.0
    ensures (a * sq / (n - 1.0)) / (sq / (n - 1.0)) == a
  {
    var v := sq / (n - 1.0);
    assert v != 0.0;
    assert a * sq / (n - 1.0) == a * v;
  }

  /** A stock whose returns are a * bench + b has beta a against a benchmark that varies. */
  lemma BetaOfAffine(stock: seq<real>, bench: seq<real>, a: real, b: real)
    requires |stock| == |bench| >= 2 && SampleVariance(bench) != 0.0
    requires forall i :: 0 <= i < |stock| ==> stock[i] == a * bench[i] + b
    ensures Beta(stock, bench) == Some(a)
  {
    var my := Mean(bench);
    MeanOfAffine(stock, bench, a, b);
    CoDeviationOfAffine(stock, bench, a, b, my);
    var sq := SquaredDeviation(bench, my);
    var n := |bench| as real;
    assert ((|bench| - 1) as real) == n - 1.0;
    assert Mean(stock) == a * my + b;
    assert CoDeviation(stock, bench, a * my + b, my) == a * sq;
    assert CoDeviation(stock, bench, Mean(stock), my) == a * sq;
    assert SampleVariance(bench) == sq / (n - 1.0);
    assert SampleCovariance(stock, bench) == a * sq / (n - 1.0);
    ScaledRatio(a, sq, n);
  }

  /** Beta of a return series against itself is 1 whenever it is defined. */
  lemma BetaOfItself(xs: seq<real>)
    ensures Beta(xs, xs) == if |xs| >= 2 && SampleVariance(xs) != 0.0 then Some(1.0) else None
  {
    if |xs| >= 2 && SampleVariance(xs) != 0.0 {
      BetaOfAffine(xs, xs, 1.0, 0.0);
    }
  }
}
