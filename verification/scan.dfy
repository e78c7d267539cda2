/**
 * The scanner's main loop: the benchmark's returns first (the whole scan
 * stops when they cannot be had), then one report row for every ticker that
 * passes each check, in the order of the ticker list.
 */
module Scan {
  import opened Wrappers
  import opened Series
  import opened Normaliser
  import opened Returns
  import Rsi
  import Risk
  import opened Signals

  /** The RSI window the scan asks for. */
  const RsiPeriod: nat := 14

  /** Fewer prices than this and a ticker is skipped. */
  const MinHistory: nat := 50

  /**
   * One line of the report: `rsi` is the RSI on the last day, `trend` and
   * `status` are the label texts written to the report, and `beta` is
   * undefined where the scanner's beta is NaN.
   */
  datatype Row = Row(ticker: string, price: real, trend: string, rsi: real, status: string, beta: Option<real>)

  /** Why a ticker produced no row. */
  datatype SkipReason = NoSeries | ShortHistory | NoRsi | NoOverlap

  datatype Outcome = Emit(row: Row) | Skip(reason: SkipReason)

  /** One ticker of the universe together with what its download returned. */
  datatype Fetched = Fetched(ticker: string, raw: RawData)

  /** Either the benchmark could not be read and nothing is reported, or the rows. */
  datatype Report = Aborted | Report(rows: seq<Row>)

  /** Price data as the provider delivers it: a well-formed table whose price series has increasing dates and positive prices. */
  predicate Usable(raw: RawData)
  {
    Shaped(raw) && (Normalise(raw).Some? ==> Increasing(Normalise(raw).value) && Positive(Normalise(raw).value))
  }

  /** The stock's returns share at least one date with the benchmark's. */
  predicate Overlaps(stockRet: Series, benchRet: Series)
  {
    DateSet(stockRet) * DateSet(benchRet) != {}
  }

  /** Everything the loop checks before it emits a row for the price series `s`. */
  predicate Eligible(s: Series, benchRet: Series)
    requires Positive(s)
  {
    |s| >= MinHistory && !Flat(Values(s)) && Overlaps(PctChange(s), benchRet)
  }


  /** Every download in the list is usable. */
  predicate AllUsable(fs: seq<Fetched>)
  {
    forall i :: 0 <= i < |fs| ==> Usable(fs[i].raw)
  }

  /**
   * The RSI the row reports: `None` when the RSI series is undefined on every
   * day, and otherwise its entry for the last day, which is then defined too.
   * With at least 50 prices only a flat series has no RSI at all.
   */
  function CurrentRsi(prices: seq<real>): (r: Option<real>)
    requires |prices| >= MinHistory
    ensures r.None? <==> Flat(prices)
    ensures r.Some? ==> r == Rsi.LastRsi(prices, RsiPeriod) && 0.0 <= r.value <= 100.0
  {
    Rsi.LastRsiIff(prices, RsiPeriod);
    if forall t :: 0 <= t < |prices| ==> Rsi.Rsi(prices, RsiPeriod)[t].None? then None
    else Rsi.LastRsi(prices, RsiPeriod)
  }

  /**
   * The stock's returns and the benchmark's returns on the dates both have,
   * or `None` when they share no date. The two series have equal length,
   * the same date at each position, and between them exactly the shared dates.
   */
  function AlignedReturns(s: Series, benchRet: Series): (r: Option<(Series, Series)>)
    requires Increasing(s) && Positive(s) && Increasing(benchRet)
    ensures r.None? <==> !Overlaps(PctChange(s), benchRet)
    ensures r.Some? ==> |r.value.0| == |r.value.1| > 0
    ensures r.Some? ==> forall i :: 0 <= i < |r.value.0| ==> r.value.0[i].date == r.value.1[i].date
    ensures r.Some? ==> DateSet(r.value.0) == DateSet(PctChange(s)) * DateSet(benchRet)
  {
    PositiveBases(s);
    var stockRet := PctChange(s);
    var aligned := Align(stockRet, benchRet);
    AlignDates(stockRet, benchRet);
    DateSetEmpty(aligned.0);
    if |aligned.0| == 0 then None else Some(aligned)
  }

  /**
   * The checks and calculations of the loop body once the ticker has a price
   * series `s`. It is skipped, for the first reason that applies, when it has
   * fewer than 50 prices, an RSI that is undefined everywhere, or no return
   * dated on a benchmark day. Otherwise it yields a row whose price is the
   * last price, whose RSI is the RSI on the last day, and whose beta is
   * that of the stock's returns against the benchmark's on their shared dates.
   */
  function Assess(ticker: string, s: Series, benchRet: Series): (o: Outcome)
    requires Increasing(s) && Positive(s) && Increasing(benchRet)
    ensures o.Skip? ==> o.reason != NoSeries
    ensures o == Skip(ShortHistory) <==> |s| < MinHistory
    ensures o == Skip(NoRsi) <==> |s| >= MinHistory && Flat(Values(s))
    ensures o.Emit? <==> Eligible(s, benchRet)
    ensures o.Emit? ==> o.row.ticker == ticker && o.row.price == s[|s| - 1].value > 0.0
    ensures o.Emit? ==> Rsi.LastRsi(Values(s), RsiPeriod) == Some(o.row.rsi) && 0.0 <= o.row.rsi <= 100.0
    ensures o.Emit? ==> o.row.status == StatusText(StatusOf(Some(o.row.rsi))) && o.row.trend == TrendText(TrendOf(Values(s)))
    ensures o.Emit? ==>
      AlignedReturns(s, benchRet).Some? &&
      o.row.beta == Risk.Beta(Values(AlignedReturns(s, benchRet).value.0), Values(AlignedReturns(s, benchRet).value.1))
  {
    if |s| < MinHistory then Skip(ShortHistory)
    else
      var current := CurrentRsi(Values(s));
      if current.None? then Skip(NoRsi)
      else
        var aligned := AlignedReturns(s, benchRet);
        if aligned.None? then Skip(NoOverlap)
        else
          var beta := Risk.Beta(Values(aligned.value.0), Values(aligned.value.1));
          Emit(Row(ticker, s[|s| - 1].value, TrendText(TrendOf(Values(s))), current.value, StatusText(StatusOf(current)), beta))
  }

  /**
   * One pass of the loop body for one downloaded ticker: skipped when no price
   * series can be had from the download, and otherwise assessed on that series.
   */
  function Analyse(f: Fetched, benchRet: Series): (o: Outcome)
    requires Usable(f.raw) && Increasing(benchRet)
    ensures o == Skip(NoSeries) <==> Normalise(f.raw).None?
    ensures Normalise(f.raw).Some? ==> o == Assess(f.ticker, Normalise(f.raw).value, benchRet)
  {
    match Normalise(f.raw)
    case None => Skip(NoSeries)
    case Some(s) => Assess(f.ticker, s, benchRet)
  }

  /** What the loop body does for each ticker of the list, position by position. */
  function Outcomes(fs: seq<Fetched>, benchRet: Series): (os: seq<Outcome>)
    requires AllUsable(fs) && Increasing(benchRet)
    ensures |os| == |fs|
    ensures forall i :: 0 <= i < |fs| ==> os[i] == Analyse(fs[i], benchRet)
  {
    seq(|fs|, i requires 0 <= i < |fs| => Analyse(fs[i], benchRet))
  }

  /** The report's rows: the row of every emitting outcome, in list order. */
  function Emitted(os: seq<Outcome>): (rows: seq<Row>)
    ensures |rows| <= |os|
  {
    if |os| == 0 then []
    else Emitted(os[..|os| - 1]) + (if os[|os| - 1].Emit? then [os[|os| - 1].row] else [])
  }

  /** The `for ticker in tickers` loop: it appends exactly the rows of the emitting tickers. */
  method AnalystLoop(fs: seq<Fetched>, benchRet: Series) returns (rows: seq<Row>)
    requires AllUsable(fs) && Increasing(benchRet)
    ensures rows == Emitted(Outcomes(fs, benchRet))
  {
    ghost var os := Outcomes(fs, benchRet);
    rows := [];
    var i := 0;
    while i < |fs|
      invariant 0 <= i <= |fs|
      invariant rows == Emitted(os[..i])
    {
      var o := Analyse(fs[i], benchRet);
      assert os[..i + 1][..i] == os[..i] && os[i] == o;
      assert Emitted(os[..i + 1]) == rows + (if o.Emit? then [o.row] else []);
      if o.Emit? {
        rows := rows + [o.row];
      }
      i := i + 1;
    }
    assert os[..|fs|] == os;
  }

  /**
   * The whole scan. A benchmark that yields no series, or only a bare number
   * from a one-row table, stops it with no report; otherwise the rows are
   * those emitted against the benchmark's returns.
   */
  function Run(bench: RawData, fs: seq<Fetched>): (r: Report)
    requires Usable(bench) && AllUsable(fs)
    ensures r.Aborted? <==> Normalise(bench).None? || SqueezesToScalar(bench)
    ensures r.Report? ==> |r.rows| <= |fs|
    ensures r.Report? ==> r.rows == Emitted(Outcomes(fs, PctChange(Normalise(bench).value)))
  {
    match Normalise(bench)
    case None => Aborted
    case Some(b) =>
      if SqueezesToScalar(bench) then Aborted
      else Report(Emitted(Outcomes(fs, PctChange(b))))
  }

  /** The loop is compositional: scanning two lists one after the other gives the two reports one after the other. */
  lemma {:induction false} EmittedAppend(a: seq<Outcome>, b: seq<Outcome>)
    ensures Emitted(a + b) == Emitted(a) + Emitted(b)
    decreases |b|
  {
    if |b| > 0 {
      var init := b[..|b| - 1];
      assert (a + b)[..|a + b| - 1] == a + init;
      EmittedAppend(a, init);
    } else {
      assert a + b == a;
    }
  }

  /** A skipped ticker leaves no trace: the other tickers' rows are exactly as if it were not in the list. */
  lemma SkipLeavesNoTrace(a: seq<Outcome>, o: Outcome, b: seq<Outcome>)
    requires o.Skip?
    ensures Emitted(a + [o] + b) == Emitted(a + b)
  {
    EmittedAppend(a + [o], b);
    EmittedAppend(a, [o]);
    EmittedAppend(a, b);
    assert [o][..0] == [];
  }

  /**
   * Rows keep the order of the ticker list: row k is the row of outcome
   * idx[k], the positions idx strictly increase, and every emitting outcome
   * has its row.
   */
  lemma {:induction false} EmittedInOrder(os: seq<Outcome>) returns (idx: seq<nat>)
    ensures |idx| == |Emitted(os)|
    ensures forall k :: 0 <= k < |idx| ==> idx[k] < |os| && os[idx[k]] == Emit(Emitted(os)[k])
    ensures forall k, m :: 0 <= k < m < |idx| ==> idx[k] < idx[m]
    ensures forall i :: 0 <= i < |os| && os[i].Emit? ==> i in idx
  {
    if |os| == 0 {
      idx := [];
    } else {
      var n := |os| - 1;
      var init := os[..n];
      var prev := EmittedInOrder(init);
      var last := if os[n].Emit? then [os[n].row] else [];
      assert Emitted(os) == Emitted(init) + last;
      assert forall i :: 0 <= i < n ==> init[i] == os[i];
      if os[n].Emit? {
        idx := prev + [n];
      } else {
        idx := prev;
      }
    }
  }

  /** The report has one row per ticker exactly when every ticker emits. */
  lemma {:induction false} FullReportIff(os: seq<Outcome>)
    ensures |Emitted(os)| == |os| <==> forall i :: 0 <= i < |os| ==> os[i].Emit?
  {
    if |os| > 0 {
      FullReportIff(os[..|os| - 1]);
    }
  }

  /** The outcomes of two lists scanned one after the other. */
  lemma OutcomesAppend(a: seq<Fetched>, b: seq<Fetched>, benchRet: Series)
    requires AllUsable(a + b) && Increasing(benchRet)
    ensures AllUsable(a) && AllUsable(b)
    ensures Outcomes(a + b, benchRet) == Outcomes(a, benchRet) + Outcomes(b, benchRet)
  {
    assert forall i :: 0 <= i < |a| ==> (a + b)[i] == a[i];
    assert forall i :: 0 <= i < |b| ==> (a + b)[|a| + i] == b[i];
  }

  /** A ticker that is skipped does not change the report the other tickers make. */
  lemma SkippedTickerLeavesNoTrace(a: seq<Fetched>, f: Fetched, b: seq<Fetched>, benchRet: Series)
    requires AllUsable(a + [f] + b) && Increasing(benchRet)
    requires Usable(f.raw) && Analyse(f, benchRet).Skip?
    ensures AllUsable(a + b)
    ensures Emitted(Outcomes(a + [f] + b, benchRet)) == Emitted(Outcomes(a + b, benchRet))
  {
    OutcomesAppend(a + [f], b, benchRet);
    OutcomesAppend(a, [f], benchRet);
    assert AllUsable(a + b);
    OutcomesAppend(a, b, benchRet);
    var oa := Outcomes(a, benchRet);
    var ob := Outcomes(b, benchRet);
    assert Outcomes(a + [f] + b, benchRet) == oa + [Analyse(f, benchRet)] + ob;
    SkipLeavesNoTrace(oa, Analyse(f, benchRet), ob);
  }

  /**
   * Every row of the report comes from a ticker of the list, at position i,
   * whose price series has at least 50 prices, moves at least once, and has a
   * return dated on a benchmark day.
   */
  lemma EveryRowQualifies(fs: seq<Fetched>, benchRet: Series, k: nat) returns (i: nat)
    requires AllUsable(fs) && Increasing(benchRet)
    requires k < |Emitted(Outcomes(fs, benchRet))|
    ensures i < |fs| && fs[i].ticker == Emitted(Outcomes(fs, benchRet))[k].ticker
    ensures Normalise(fs[i].raw).Some? && Eligible(Normalise(fs[i].raw).value, benchRet)
  {
    var idx := EmittedInOrder(Outcomes(fs, benchRet));
    i := idx[k];
  }
}
