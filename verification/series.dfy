/** Dated price and return series, the values every stage of the scan passes along. */
module Series {

  /** One observation: a trading date (a day number) and the value recorded on it. */
  datatype Point = Point(date: int, value: real)

  /** A series indexed by date, oldest first (a pandas Series with a date index). */
  type Series = seq<Point>

  function Values(s: Series): (vs: seq<real>)
    ensures |vs| == |s|
    ensures forall i :: 0 <= i < |s| ==> vs[i] == s[i].value
  {
    seq(|s|, i requires 0 <= i < |s| => s[i].value)
  }

  function Dates(s: Series): (ds: seq<int>)
    ensures |ds| == |s|
    ensures forall i :: 0 <= i < |s| ==> ds[i] == s[i].date
  {
    seq(|s|, i requires 0 <= i < |s| => s[i].date)
  }

  /** The set of dates a series has an entry for (its index, as a set). */
  function DateSet(s: Series): set<int>
  {
    set p | p in s :: p.date
  }

  /** A series has no dates exactly when it has no entries. */
  lemma DateSetEmpty(s: Series)
    ensures DateSet(s) == {} <==> |s| == 0
  {
    if |s| > 0 {
      assert s[0].date in DateSet(s);
    }
  }

  /** Dates strictly increase: sorted, with no date twice. */
  predicate Increasing(s: Series)
  {
    forall i, j :: 0 <= i < j < |s| ==> s[i].date < s[j].date
  }

  /** Every value is a positive price. */
  predicate Positive(s: Series)
  {
    forall i :: 0 <= i < |s| ==> s[i].value > 0.0
  }

  /** All values are equal (a flat series). */
  predicate Flat(xs: seq<real>)
  {
    forall i :: 0 <= i < |xs| ==> xs[i] == xs[0]
  }
}
