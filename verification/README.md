# Market scanner core in Dafny

This project models the analysis core of `portfolio_manager.py`. That script is a stock scanner. It downloads a year of daily prices for a fixed list of tickers and for a benchmark index. For every ticker it computes:

- a 14-day RSI, smoothed with pandas' exponentially weighted mean;
- the ticker's beta against the benchmark, using daily returns on the dates both have;
- a trend label: the last price against the 50-day simple moving average;
- an RSI zone label.

Each ticker either adds one row to the report or is skipped.

The model works on exact reals and `Option<real>` instead of IEEE floats. A price series is a sequence of `Point(date, value)`. Dates are integers and stand for the trading days of the index.

Modules, one file each:

- `Wrappers` holds `Option`.
- `Series` holds dated price series and the predicates over them (increasing dates, positive prices, flat).
- `Normaliser` models `get_clean_series`. It picks one price series out of nothing, a series, or a table of named columns.
- `Ewm` models `ewm(com=period-1, min_periods=period).mean()` with `adjust=True` in two forms:
  - the reference definition, a normalised weighted average with decay `1 - 1/period`;
  - pandas' online kernel, written as a loop.
  The two are proved equal.
- `Rsi` models `calculate_rsi`: gains, losses, their smoothed averages, and `100 - 100/(1 + rs)` with the divide-by-zero cases made explicit.
- `Stats` holds sums and means.
- `Risk` holds sample covariance, sample variance and beta.
- `Returns` holds `pct_change().dropna()`, its inverse (compounding), and the alignment of two return series on their common dates.
- `Signals` holds the SMA-50 trend label and the RSI zone label.
- `Scan` holds the loop body for one ticker, the loop over the ticker list, and the fatal benchmark step.

Three behaviours of the code that are easy to misread:

- **Column choice.** A table's `Close` column is read before `Adj Close`, so `Close` wins when both exist.
- **Start of the RSI.** The warm-up mask of the smoothed averages ends at index `period - 1`, because pandas' `min_periods` counts the zero gain and loss on day 0. So with exactly `period` prices the last entry is defined as soon as the prices have moved. While they have not moved, both averages are 0 and the entry stays undefined (`Rsi.FlatStretchUndefined`).
- **Current RSI.** The current RSI is `iloc[-1]`, the entry for the last day, not the last defined entry. For `period >= 2` the model proves the two coincide: once any entry is defined, the last one is (`Rsi.LastRsiIff`).

## Model

| member | source | states |
|---|---|---|
| Normaliser.Normalise | portfolio_manager.py:29-36 | no series exactly for an absent or empty download; a series is returned unchanged; a non-empty table has a preferred column, and the column read is the first `Close`, else the first `Adj Close`, else the first column |
| Normaliser.PickFindsPreferred | portfolio_manager.py:33-35 | trying `Close` then `Adj Close` then falling back to column 0 lands on exactly the preferred column |
| Normaliser.CloseBeatsAdjClose | portfolio_manager.py:33-34 | with both `Close` and `Adj Close` present, in either order, `Close` is read |
| Normaliser.PreferredExists | portfolio_manager.py:33-35 | a table with at least one column always has a column to read prices from |
| Ewm.Alpha | portfolio_manager.py:45-46 | the smoothing factor 1/(1+com) lies in (0, 1], and below 1 once com >= 1 |
| Ewm.Decay | portfolio_manager.py:45-46 | the per-step weight decay for a window lies in [0, 1), and is positive for windows of 2 or more |
| Ewm.WeightTotalAtLeastOne | portfolio_manager.py:45-46 | the total weight of a non-empty window is at least 1, so the average is always defined |
| Ewm.WeightedSumNonNegative | portfolio_manager.py:45-46 | non-negative inputs give a non-negative weighted sum |
| Ewm.WeightedSumOfZeros | portfolio_manager.py:45-46 | a window of zeros has weighted sum 0 |
| Ewm.WeightedSumPositive | portfolio_manager.py:45-46 | with a positive decay, one positive input among non-negative ones makes the weighted sum positive |
| Ewm.LatestKeepsPositive | portfolio_manager.py:45-46 | a positive newest input makes the weighted sum positive, for any decay |
| Ewm.WeightedMeanOfOne | portfolio_manager.py:45-46 | the average of a single observation is that observation |
| Ewm.KernelStep | portfolio_manager.py:45-46 | one update of pandas' online kernel turns the average of the first i values into the average of the first i + 1 |
| Ewm.RunningMeans | portfolio_manager.py:45-46 | the kernel's running averages equal the reference weighted average at every index |
| Ewm.Smoothed | portfolio_manager.py:45-46 | entry t is defined exactly when t >= period - 1, and is then the weighted average of the first t + 1 inputs |
| Ewm.EwmMean | portfolio_manager.py:45-46 | the kernel masked by `min_periods` equals the reference smoothed series |
| Ewm.SmoothedNonNegative | portfolio_manager.py:45-46 | smoothing non-negative inputs gives non-negative values |
| Ewm.SmoothedOfZeros | portfolio_manager.py:45-46 | a defined entry over all-zero inputs is 0 |
| Ewm.SmoothedPositive | portfolio_manager.py:45-46 | a positive newest input makes a defined entry positive |
| Ewm.SmoothedPositiveFrom | portfolio_manager.py:45-46 | for period >= 2, any positive input so far makes a defined entry positive |
| Ewm.SmoothedZeroIff | portfolio_manager.py:45-46 | for period >= 2, a defined entry is 0 exactly when every input so far is 0 |
| Rsi.Gains | portfolio_manager.py:40-41 | same length as the prices, never negative, 0 on the first day |
| Rsi.Losses | portfolio_manager.py:40-42 | same length, never negative, 0 on the first day; gain minus loss is the day's price change; at most one of the two is non-zero on any day |
| Rsi.RsiPoint | portfolio_manager.py:48-49 | defined exactly when both averages are defined and not both 0; lies in [0, 100]; equals 100·g/(g + l); is 100 exactly when the average loss is 0 and the average gain positive; is 0 exactly when the average gain is 0 and the average loss positive |
| Rsi.RatioForm | portfolio_manager.py:48-49 | with a positive average loss, 100 - 100/(1 + g/l) is 100·g/(g + l), below 100, and 0 exactly when g is 0 |
| Rsi.Rsi | portfolio_manager.py:39-50 | one entry per price, undefined before index period - 1, and within [0, 100] wherever defined |
| Rsi.RsiAt | portfolio_manager.py:45-49 | RSI entry t is the RSI of the two smoothed averages at t, both non-negative |
| Rsi.RisingEndsAtHundred | portfolio_manager.py:39-50 | a strictly rising series of at least `period` prices ends at RSI 100 |
| Rsi.FallingEndsAtZero | portfolio_manager.py:39-50 | a strictly falling series of at least `period` prices ends at RSI 0 |
| Rsi.FlatStretchUndefined | portfolio_manager.py:39-50 | the RSI is undefined on every day of an initial run of unchanged prices |
| Rsi.FlatThenRise | portfolio_manager.py:39-50 | a flat run followed by one rise is undefined throughout the run and 100 on the last day |
| Rsi.SomeMove | portfolio_manager.py:40 | a series that is not flat has a day on which the price moved |
| Rsi.MoveDefinesRsi | portfolio_manager.py:39-50 | for period >= 2, one price move defines the RSI on every later day from period - 1 on |
| Rsi.MovingHasLastRsi | portfolio_manager.py:39-50 | for period >= 2, a series that is not flat and has at least `period` prices has a defined last RSI |
| Rsi.RsiUndefinedIff | portfolio_manager.py:39-50 | for period >= 2, the RSI is undefined everywhere exactly when there are fewer than `period` prices or the prices never move |
| Rsi.LastRsiIff | portfolio_manager.py:73-74 | for period >= 2 and at least `period` prices, "undefined everywhere", "last entry undefined" and "flat" coincide, so once any entry is defined the last one is |
| Returns.PctChange | portfolio_manager.py:56 | one return per price after the first, dated at the later day, equal to (p[t+1] - p[t])/p[t]; increasing dates stay increasing |
| Returns.CompoundGrows | portfolio_manager.py:77 | each rebuilt price is the previous one grown by the return between them |
| Returns.RatesRoundTrip | portfolio_manager.py:77 | compounding the returns from the first price gives back every price |
| Returns.PctChangeRoundTrip | portfolio_manager.py:77 | compounding a series' returns from its first price gives the series' prices back, so returns lose no information |
| Returns.Align | portfolio_manager.py:78-80 | the two aligned series have equal length, the same date at each position, and every entry taken from its own input |
| Returns.AlignIncreasing | portfolio_manager.py:78-80 | the aligned dates are in increasing order |
| Returns.AlignDates | portfolio_manager.py:78-80 | the aligned dates are exactly the dates both inputs have |
| Risk.SampleVariance | portfolio_manager.py:84 | a flat benchmark has sample variance 0 |
| Risk.Beta | portfolio_manager.py:84 | undefined exactly when there are fewer than 2 points or the benchmark variance is 0, in particular for a flat benchmark |
| Risk.BetaOfAffine | portfolio_manager.py:84 | returns of the form a·bench + b have beta a against a benchmark that varies |
| Risk.BetaOfItself | portfolio_manager.py:84 | beta of a series against itself is 1 whenever the variance is non-zero, and undefined otherwise |
| Signals.Window | portfolio_manager.py:88 | the rolling window for the last day holds the last w prices in order |
| Signals.SmaLast | portfolio_manager.py:88 | the 50-day average of the last day is defined exactly when there are at least 50 prices |
| Signals.TrendOf | portfolio_manager.py:87-90 | BULLISH exactly when there are at least 50 prices and the last one is strictly above their average, so a tie and too short a history are BEARISH |
| Signals.LeaderIsBullish | portfolio_manager.py:87-90 | a last price above every other price of the window is BULLISH |
| Signals.LaggardIsBearish | portfolio_manager.py:87-90 | a last price at or below every price of the window is BEARISH; a flat window is BEARISH |
| Signals.TrendIgnoresOldHistory | portfolio_manager.py:88-90 | prices older than the window never change the trend |
| Signals.StatusOf | portfolio_manager.py:93-95 | OVERBOUGHT exactly above 70, OVERSOLD exactly below 30, NEUTRAL otherwise, including at 70, at 30 and for an undefined RSI |
| Signals.StatusMonotone | portfolio_manager.py:93-95 | a higher RSI never falls into a cheaper zone |
| Scan.CurrentRsi | portfolio_manager.py:72-74 | with at least 50 prices there is no current RSI exactly when the prices are flat; otherwise it is the last day's RSI, within [0, 100] |
| Scan.AlignedReturns | portfolio_manager.py:77-82 | nothing exactly when the stock's returns share no date with the benchmark's; otherwise two series of equal positive length, the same dates position by position, and exactly the shared dates |
| Scan.Assess | portfolio_manager.py:68-104 | skipped for too short a history exactly when under 50 prices; for no RSI exactly when the prices are flat; a row exactly when the series is eligible; the row carries the ticker, the last price, the last day's RSI in [0, 100], the label texts of its zone and of the trend, and the beta of the stock's returns against the benchmark's on their shared dates |
| Scan.Analyse | portfolio_manager.py:64-68 | skipped for lack of data exactly when the cleaner gives no series; otherwise the assessment of that series |
| Scan.Outcomes | portfolio_manager.py:62-109 | one outcome per ticker, in list order |
| Scan.Emitted | portfolio_manager.py:97-104 | the report never has more rows than tickers |
| Scan.AnalystLoop | portfolio_manager.py:62-109 | the loop appends exactly the rows of the emitting tickers, in order |
| Scan.Run | portfolio_manager.py:53-109 | the scan stops with no report exactly when the benchmark gives no series or only a scalar; otherwise the report is the loop's rows against the benchmark's returns |
| Scan.EmittedAppend | portfolio_manager.py:62-109 | scanning two lists one after the other gives the two reports one after the other |
| Scan.SkipLeavesNoTrace | portfolio_manager.py:107-109 | a skipped outcome leaves the other rows exactly as they would be without it |
| Scan.EmittedInOrder | portfolio_manager.py:62-109 | rows keep the order of the ticker list: row k comes from a strictly increasing position, and every emitting ticker has its row |
| Scan.FullReportIff | portfolio_manager.py:62-109 | the report has one row per ticker exactly when every ticker emits |
| Scan.OutcomesAppend | portfolio_manager.py:62-109 | the outcomes of two lists one after the other are the two lists of outcomes one after the other |
| Scan.SkippedTickerLeavesNoTrace | portfolio_manager.py:62-109 | a ticker that is skipped does not change the report of the other tickers |
| Scan.EveryRowQualifies | portfolio_manager.py:68-82 | every row comes from a ticker whose series has at least 50 prices, moves at least once, and shares a return date with the benchmark |

## Left out

- Downloading with `yf.download` and the one-year window from today's date (lines 25-26, 54, 65). A download becomes an input to the model: nothing, a series or a table. An exception thrown by the download is modelled as "no data", which the scan treats the same way: a skipped ticker, or a stopped scan for the benchmark.
- The ticker list and the benchmark symbol (lines 6-19). The model scans any list of tickers.
- Console output (lines 21-22, 58, 105, 165, 175), the Excel workbook, its formatting and opening it (lines 111-175).
- The `.replace('.NS', '')` display name (line 98). The row carries the ticker as given.
- `round(..., 2)` on the RSI and the beta (lines 101, 103). Rows carry the exact values.
- IEEE floating point: NaN and infinity propagation, rounding error, and inf/NaN from a zero price. The model uses exact reals, and `Option` where pandas would produce NaN.
- Prices are assumed positive and dates strictly increasing (`Scan.Usable`). A zero price would give an infinite return in pandas; the model does not cover it.
- Tables with several columns of the same name, and tables with multi-level column labels. The model reads the first column of the chosen name as one series.
- The `except Exception: pass` of the loop (lines 107-109) is modelled as the explicit skip reasons, not as exception semantics. A one-row stock table squeezes to a scalar, on which `len` raises; the model instead skips it as too short, which has the same outcome.
- The scan's exit on a failed benchmark (lines 57-59) is modelled as an `Aborted` report.
- Risk.Beta: the converse of "flat benchmark gives no beta" is not proved. Exactly which non-flat benchmarks have a non-zero variance is left to `SampleVariance`.
- Signals.StatusMonotone: a case analysis the verifier settles without a proof body.
- Ewm.WeightedSum, Ewm.WeightTotal, Ewm.WeightedMean, Stats.Sum, Stats.Mean, Risk.SampleCovariance, Rsi.LastRsi, Signals.TrendText, Signals.StatusText: reference definitions without contracts of their own. `WeightedMean` is the `adjust=True` average (lines 45-46), `SampleCovariance` is `cov` with divisor n - 1 (line 84), `LastRsi` is `iloc[-1]` (line 74), and the two text functions give the label strings of lines 90 and 93-95. Their properties are the lemmas and the `Scan.Assess` contract listed above.
