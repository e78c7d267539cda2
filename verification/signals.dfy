/**
 * The two labels the scanner prints for a stock: the trend against the
 * 50-day simple moving average, and the RSI zone.
 */
module Signals {
  import opened Wrappers
  import opened Stats

  /** The moving-average window, in trading days. */
  const SmaWindow: nat := 50

  /** RSI strictly above this is overbought. */
  const OverboughtAbove: real := 70.0

  /** RSI strictly below this is oversold. */
  const OversoldBelow: real := 30.0

  datatype Trend = Bullish | Bearish

  datatype RsiStatus = Neutral | Overbought | Oversold

  /** The text written to the report's `Trend` column. */
  function TrendText(t: Trend): string
  {
    match t
    case Bullish => "BULLISH"
    case Bearish => "BEARISH"
  }

  /** The text written to the report's `RSI_Status` column. */
  function StatusText(s: RsiStatus): string
  {
    match s
    case Neutral => "NEUTRAL"
    case Overbought => "OVERBOUGHT (Risk)"
    case Oversold => "OVERSOLD (Value)"
  }

  /** The last `w` prices, the window `rolling(window=w)` averages for the last day. */
  function Window(p: seq<real>, w: nat): (win: seq<real>)
    requires w <= |p|
    ensures |win| == w
    ensures forall i :: 0 <= i < w ==> win[i] == p[|p| - w + i]
  {
    p[|p| - w..]
  }

  /**
   * `rolling(window=w).mean().iloc[-1]`: the mean of the last w prices,
   * undefined (NaN) with fewer than w prices.
   */
  function SmaLast(p: seq<real>, w: nat): (r: Option<real>)
    requires w >= 1
    ensures r.Some? <==> |p| >= w
  {
    if |p| < w then None else Some(Mean(Window(p, w)))
  }

  /**
   * The trend label: bullish only when the last price lies strictly above the
   * 50-day average, bearish otherwise. A comparison with an undefined average
   * is false, so too short a history is bearish.
   */
  function TrendOf(p: seq<real>): (t: Trend)
    requires |p| >= 1
    ensures t == Bullish <==> |p| >= SmaWindow && p[|p| - 1] > Mean(Window(p, SmaWindow))
  {
    match SmaLast(p, SmaWindow)
    case Some(sma) => if p[|p| - 1] > sma then Bullish else Bearish
    case None => Bearish
  }

  /**
   * A last price above every other price of the window lies above their
   * average, so the trend is bullish.
   */
  lemma LeaderIsBullish(p: seq<real>)
    requires |p| >= SmaWindow
    requires forall i :: |p| - SmaWindow <= i < |p| - 1 ==> p[i] < p[|p| - 1]
    ensures TrendOf(p) == Bullish
  {
    var win := Window(p, SmaWindow);
    var last := p[|p| - 1];
    assert forall i :: 0 <= i < |win| ==> win[i] <= last;
    MeanBelow(win, last, 0);
  }

  /**
   * A last price at or below every price of the window cannot beat their
   * average, so the trend is bearish; in particular a flat window, where the
   * last price ties the average, is bearish.
   */
  lemma LaggardIsBearish(p: seq<real>)
    requires |p| >= 1
    requires forall i :: |p| - SmaWindow <= i < |p| && 0 <= i ==> p[i] >= p[|p| - 1]
    ensures TrendOf(p) == Bearish
  {
    if |p| >= SmaWindow {
      var win := Window(p, SmaWindow);
      MeanAtLeast(win, p[|p| - 1]);
    }
  }

  /** Prices older than the window never change the trend. */
  lemma TrendIgnoresOldHistory(older: seq<real>, p: seq<real>)
    requires |p| >= SmaWindow
    ensures TrendOf(older + p) == TrendOf(p)
  {
    assert Window(older + p, SmaWindow) == Window(p, SmaWindow);
  }

  /**
   * The RSI zone: two `if`s in a row, the oversold test last. An undefined
   * value fails both comparisons and stays neutral, as do 70 and 30
   * themselves.
   */
  function StatusOf(v: Option<real>): (s: RsiStatus)
    ensures s == Overbought <==> v.Some? && v.value > OverboughtAbove
    ensures s == Oversold <==> v.Some? && v.value < OversoldBelow
    ensures s == Neutral <==> v.None? || OversoldBelow <= v.value <= OverboughtAbove
  {
    var s := Neutral;
    var s := if v.Some? && v.value > OverboughtAbove then Overbought else s;
    if v.Some? && v.value < OversoldBelow then Oversold else s
  }

  /** Zones ordered from cheap to expensive. */
  function Rank(s: RsiStatus): nat
  {
    match s
    case Oversold => 0
    case Neutral => 1
    case Overbought => 2
  }

  /** A higher RSI never lands in a cheaper zone. */
  lemma StatusMonotone(a: real, b: real)
    requires a <= b
    ensures Rank(StatusOf(Some(a))) <= Rank(StatusOf(Some(b)))
  {
  }
}
