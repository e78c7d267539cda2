/** Sums and means of real sequences, and the bounds the signals rely on. */
module Stats {

  function Sum(xs: seq<real>): real
  {
    if |xs| == 0 then 0.0 else xs[0] + Sum(xs[1..])
  }

  function Mean(xs: seq<real>): real
    requires |xs| > 0
  {
    Sum(xs) / (|xs| as real)
  }

  /** n * c counted as one c plus (n - 1) * c. */
  lemma Peel(n: nat, m: nat, c: real)
    requires n == m + 1
    ensures n as real * c == c + m as real * c
  {
  }

  lemma {:induction false} SumOfConstant(xs: seq<real>, c: real)
    requires forall i :: 0 <= i < |xs| ==> xs[i] == c
    ensures Sum(xs) == |xs| as real * c
  {
    if |xs| > 0 {
      SumOfConstant(xs[1..], c);
      Peel(|xs|, |xs[1..]|, c);
    }
  }

  /** Summing an affine image a * y + b of `ys`. */
  lemma {:induction false} SumOfAffine(xs: seq<real>, ys: seq<real>, a: real, b: real)
    requires |xs| == |ys|
    requires forall i :: 0 <= i < |xs| ==> xs[i] == a * ys[i] + b
    ensures Sum(xs) == a * Sum(ys) + |ys| as real * b
  {
    if |xs| > 0 {
      SumOfAffine(xs[1..], ys[1..], a, b);
      Peel(|ys|, |ys[1..]|, b);
    }
  }

  lemma MeanOfAffine(xs: seq<real>, ys: seq<real>, a: real, b: real)
    requires |xs| == |ys| > 0
    requires forall i :: 0 <= i < |xs| ==> xs[i] == a * ys[i] + b
    ensures Mean(xs) == a * Mean(ys) + b
  {
    SumOfAffine(xs, ys, a, b);
    AffineQuotient(Sum(ys), |ys| as real, a, b, Sum(xs));
  }

  lemma AffineQuotient(total: real, n: real, a: real, b: real, image: real)
    requires n > 0.0 && image == a * total + n * b
    ensures image / n == a * (total / n) + b
  {
    var m := total / n;
    assert m * n == total;
    assert image == (a * m + b) * n;
  }

  /** Values all at most c, one strictly below: the sum falls short of |xs| * c. */
  lemma {:induction false} SumBelow(xs: seq<real>, c: real, k: nat)
    requires forall i :: 0 <= i < |xs| ==> xs[i] <= c
    requires k < |xs| && xs[k] < c
    ensures Sum(xs) < |xs| as real * c
  {
    Peel(|xs|, |xs[1..]|, c);
    if k == 0 {
      SumAtMost(xs[1..], c);
    } else {
      SumBelow(xs[1..], c, k - 1);
    }
  }

  lemma {:induction false} SumAtMost(xs: seq<real>, c: real)
    requires forall i :: 0 <= i < |xs| ==> xs[i] <= c
    ensures Sum(xs) <= |xs| as real * c
  {
    if |xs| > 0 {
      SumAtMost(xs[1..], c);
      Peel(|xs|, |xs[1..]|, c);
    }
  }

  lemma {:induction false} SumAtLeast(xs: seq<real>, c: real)
    requires forall i :: 0 <= i < |xs| ==> xs[i] >= c
    ensures Sum(xs) >= |xs| as real * c
  {
    if |xs| > 0 {
      SumAtLeast(xs[1..], c);
      Peel(|xs|, |xs[1..]|, c);
    }
  }

  /** A mean lies strictly below a bound that no value exceeds and one value misses. */
  lemma MeanBelow(xs: seq<real>, c: real, k: nat)
    requires forall i :: 0 <= i < |xs| ==> xs[i] <= c
    requires k < |xs| && xs[k] < c
    ensures Mean(xs) < c
  {
    SumBelow(xs, c, k);
  }

  /** A mean is at least any lower bound of the values. */
  lemma MeanAtLeast(xs: seq<real>, c: real)
    requires |xs| > 0
    requires forall i :: 0 <= i < |xs| ==> xs[i] >= c
    ensures Mean(xs) >= c
  {
    SumAtLeast(xs, c);
  }
}
