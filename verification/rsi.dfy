/** The relative strength index: gains and losses, their smoothed averages, and 100 - 100 / (1 + rs). */
module Rsi {
  import opened Wrappers
  import opened Series
  import Ewm

  /**
   * `diff().where(delta > 0, 0)`: the rise from the previous price, 0 on a
   * fall or no change, and 0 on the first day where the difference is undefined.
   */
  function Gains(p: seq<real>): (g: seq<real>)
    ensures |g| == |p|
    ensures forall t :: 0 <= t < |g| ==> g[t] >= 0.0
    ensures |g| > 0 ==> g[0] == 0.0
  {
    seq(|p|, t requires 0 <= t < |p| => if t > 0 && p[t] - p[t - 1] > 0.0 then p[t] - p[t - 1] else 0.0)
  }

  /**
   * `-diff().where(delta < 0, 0)`: the size of the fall from the previous
   * price. Gain minus loss is the day's price change, and at most one of them
   * is non-zero on any day.
   */
  function Losses(p: seq<real>): (l: seq<real>)
    ensures |l| == |p|
    ensures forall t :: 0 <= t < |l| ==> l[t] >= 0.0
    ensures |l| > 0 ==> l[0] == 0.0
    ensures forall t :: 0 < t < |p| ==> Gains(p)[t] - l[t] == p[t] - p[t - 1]
    ensures forall t :: 0 <= t < |p| ==> Gains(p)[t] == 0.0 || l[t] == 0.0
  {
    seq(|p|, t requires 0 <= t < |p| => if t > 0 && p[t] - p[t - 1] < 0.0 then -(p[t] - p[t - 1]) else 0.0)
  }

  /**
   * One RSI value from the average gain and average loss. With no average loss
   * the ratio is infinite and the value is 100, unless there is no average gain
   * either, when it is undefined. Where defined it is 100 * gain / (gain + loss).
   */
  function RsiPoint(avgGain: Option<real>, avgLoss: Option<real>): (r: Option<real>)
    requires avgGain.Some? ==> avgGain.value >= 0.0
    requires avgLoss.Some? ==> avgLoss.value >= 0.0
    ensures r.Some? <==> avgGain.Some? && avgLoss.Some? && (avgGain.value > 0.0 || avgLoss.value > 0.0)
    ensures r.Some? ==> 0.0 <= r.value <= 100.0
    ensures r.Some? ==> r.value * (avgGain.value + avgLoss.value) == 100.0 * avgGain.value
    ensures r == Some(100.0) <==> avgGain.Some? && avgLoss.Some? && avgGain.value > 0.0 && avgLoss.value == 0.0
    ensures r == Some(0.0) <==> avgGain.Some? && avgLoss.Some? && avgGain.value == 0.0 && avgLoss.value > 0.0
  {
    match (avgGain, avgLoss)
    case (Some(g), Some(l)) =>
      if l == 0.0 then (if g > 0.0 then Some(100.0) else None)
      else
        var v := 100.0 - 100.0 / (1.0 + g / l);
        RatioForm(g, l, v);
        Some(v)
    case _ => None
  }

  /** 100 - 100 / (1 + g / l) with a positive average loss: 100 * g / (g + l), below 100, and 0 exactly without gains. */
  lemma RatioForm(g: real, l: real, v: real)
    requires g >= 0.0 && l > 0.0 && v == 100.0 - 100.0 / (1.0 + g / l)
    ensures v * (g + l) == 100.0 * g
    ensures 0.0 <= v < 100.0
    ensures v == 0.0 <==> g == 0.0
  {
    var rs := g / l;
    assert rs * l == g;
    assert rs >= 0.0;
    var q := 100.0 / (1.0 + rs);
    assert q * (1.0 + rs) == 100.0;
    assert q > 0.0;
    assert q <= 100.0;
    assert q * l + q * rs * l == 100.0 * l;
    assert q * (g + l) == 100.0 * l;
    assert v * (g + l) == 100.0 * (g + l) - q * (g + l);
    assert g == 0.0 ==> q == 100.0;
    assert q == 100.0 ==> rs == 0.0;
  }

  /**
   * `calculate_rsi(prices, period)`: one entry per price, undefined during the
   * smoothing warm-up, and within [0, 100] wherever defined.
   */
  function Rsi(p: seq<real>, period: nat): (r: seq<Option<real>>)
    requires period >= 1
    ensures |r| == |p|
    ensures forall t :: 0 <= t < |r| && t < period - 1 ==> r[t].None?
    ensures forall t :: 0 <= t < |r| && r[t].Some? ==> 0.0 <= r[t].value <= 100.0
  {
    var avgGain := Ewm.Smoothed(Gains(p), period);
    var avgLoss := Ewm.Smoothed(Losses(p), period);
    Ewm.SmoothedNonNegative(Gains(p), period);
    Ewm.SmoothedNonNegative(Losses(p), period);
    seq(|p|, t requires 0 <= t < |p| => RsiPoint(avgGain[t], avgLoss[t]))
  }

  /** Prices that never change from one day to the next are flat. */
  lemma {:induction false} NoMovesMeansFlat(p: seq<real>, k: nat)
    requires forall j :: 0 < j < |p| ==> p[j] == p[j - 1]
    requires k < |p|
    ensures p[k] == p[0]
  {
    if k > 0 {
      NoMovesMeansFlat(p, k - 1);
    }
  }

  /** A series that is not flat has some day on which the price moved. */
  lemma SomeMove(p: seq<real>) returns (j: nat)
    requires !Flat(p)
    ensures 0 < j < |p| && p[j] != p[j - 1]
  {
    if forall j :: 0 < j < |p| ==> p[j] == p[j - 1] {
      forall k | 0 <= k < |p| ensures p[k] == p[0] {
        NoMovesMeansFlat(p, k);
      }
      assert false;
    }
    j :| 0 < j < |p| && p[j] != p[j - 1];
  }

  /** RSI entry t in terms of the two smoothed series. */
  lemma RsiAt(p: seq<real>, period: nat, t: nat)
    requires period >= 1 && t < |p|
    ensures Ewm.Smoothed(Gains(p), period)[t].Some? ==> Ewm.Smoothed(Gains(p), period)[t].value >= 0.0
    ensures Ewm.Smoothed(Losses(p), period)[t].Some? ==> Ewm.Smoothed(Losses(p), period)[t].value >= 0.0
    ensures Rsi(p, period)[t] == RsiPoint(Ewm.Smoothed(Gains(p), period)[t], Ewm.Smoothed(Losses(p), period)[t])
  {
    Ewm.SmoothedNonNegative(Gains(p), period);
    Ewm.SmoothedNonNegative(Losses(p), period);
  }

  /** A strictly rising series of at least `period` prices ends with an RSI of 100. */
  lemma RisingEndsAtHundred(p: seq<real>, period: nat)
    requires period >= 1 && |p| >= period && |p| >= 2
    requires forall t :: 0 < t < |p| ==> p[t - 1] < p[t]
    ensures Rsi(p, period)[|p| - 1] == Some(100.0)
  {
    var last := |p| - 1;
    Ewm.SmoothedOfZeros(Losses(p), period, last);
    Ewm.SmoothedPositive(Gains(p), period, last);
    RsiAt(p, period, last);
  }

  /** A strictly falling series of at least `period` prices ends with an RSI of 0. */
  lemma FallingEndsAtZero(p: seq<real>, period: nat)
    requires period >= 1 && |p| >= period && |p| >= 2
    requires forall t :: 0 < t < |p| ==> p[t - 1] > p[t]
    ensures Rsi(p, period)[|p| - 1] == Some(0.0)
  {
    var last := |p| - 1;
    Ewm.SmoothedOfZeros(Gains(p), period, last);
    Ewm.SmoothedPositive(Losses(p), period, last);
    RsiAt(p, period, last);
  }

  /** Over a flat stretch nothing is gained or lost, so the RSI stays undefined. */
  lemma FlatStretchUndefined(p: seq<real>, period: nat, t: nat)
    requires period >= 1 && t < |p|
    requires forall j :: 0 < j <= t ==> p[j] == p[j - 1]
    ensures Rsi(p, period)[t].None?
  {
    RsiAt(p, period, t);
    if t >= period - 1 {
      Ewm.SmoothedOfZeros(Gains(p), period, t);
      Ewm.SmoothedOfZeros(Losses(p), period, t);
    }
  }

  /**
   * A flat run followed by one rise: undefined on every day of the run, then
   * 100 on the last day.
   */
  lemma FlatThenRise(p: seq<real>, period: nat)
    requires period >= 1 && |p| >= period && |p| >= 2
    requires forall j :: 0 < j < |p| - 1 ==> p[j] == p[j - 1]
    requires p[|p| - 2] < p[|p| - 1]
    ensures forall t :: 0 <= t < |p| - 1 ==> Rsi(p, period)[t].None?
    ensures Rsi(p, period)[|p| - 1] == Some(100.0)
  {
    forall t | 0 <= t < |p| - 1 ensures Rsi(p, period)[t].None? {
      FlatStretchUndefined(p, period, t);
    }
    var last := |p| - 1;
    Ewm.SmoothedOfZeros(Losses(p), period, last);
    Ewm.SmoothedPositive(Gains(p), period, last);
    RsiAt(p, period, last);
  }

  /** For period >= 2, one price move on day j gives a defined RSI on every later day from period - 1 on. */
  lemma MoveDefinesRsi(p: seq<real>, period: nat, j: nat, t: nat)
    requires period >= 2 && period - 1 <= t < |p|
    requires 0 < j <= t && p[j] != p[j - 1]
    ensures Rsi(p, period)[t].Some?
  {
    RsiAt(p, period, t);
    var g := Gains(p);
    var l := Losses(p);
    if p[j] > p[j - 1] {
      assert g[j] > 0.0;
      Ewm.SmoothedPositiveFrom(g, period, t, j);
    } else {
      assert l[j] > 0.0;
      Ewm.SmoothedPositiveFrom(l, period, t, j);
    }
  }

  /** For period >= 2, a moving series with enough history has a defined RSI on its last day. */
  lemma MovingHasLastRsi(p: seq<real>, period: nat)
    requires period >= 2 && |p| >= period && !Flat(p)
    ensures Rsi(p, period)[|p| - 1].Some?
  {
    var j := SomeMove(p);
    MoveDefinesRsi(p, period, j, |p| - 1);
  }

  /**
   * For period >= 2 the RSI is undefined everywhere exactly when there are
   * fewer than `period` prices or the prices never move.
   */
  lemma RsiUndefinedIff(p: seq<real>, period: nat)
    requires period >= 2
    ensures (forall t :: 0 <= t < |p| ==> Rsi(p, period)[t].None?) <==> (|p| < period || Flat(p))
  {
    if |p| >= period && !Flat(p) {
      MovingHasLastRsi(p, period);
    } else if |p| >= period {
      forall t | 0 <= t < |p| ensures Rsi(p, period)[t].None? {
        FlatStretchUndefined(p, period, t);
      }
    }
  }

  /** `iloc[-1]`: the RSI entry of the last day, defined or not. */
  function LastRsi(p: seq<real>, period: nat): Option<real>
    requires period >= 1 && |p| >= 1
  {
    Rsi(p, period)[|p| - 1]
  }

  /**
   * For period >= 2 and at least `period` prices, the three tests agree: the
   * RSI is undefined everywhere, the last RSI is undefined, the prices are flat.
   * So once any entry is defined the last one is too, and the last entry and
   * the last defined entry are the same thing.
   */
  lemma LastRsiIff(p: seq<real>, period: nat)
    requires period >= 2 && |p| >= period
    ensures (forall t :: 0 <= t < |p| ==> Rsi(p, period)[t].None?) <==> Flat(p)
    ensures LastRsi(p, period).None? <==> Flat(p)
  {
    RsiUndefinedIff(p, period);
    if !Flat(p) {
      MovingHasLastRsi(p, period);
    }
  }
}
