/**
 * Picking one closing-price series out of whatever the market-data provider
 * returned: nothing, a single series, or a table of named columns.
 */
module Normaliser {
  import opened Wrappers
  import opened Series

  /** A named table column; its values line up with the table's date index. */
  datatype Column = Column(name: string, values: seq<real>)

  /** The shapes a download can come back in. */
  datatype RawData =
    | NoData
    | SeriesData(series: Series)
    | Frame(dates: seq<int>, columns: seq<Column>)

  /** A table's columns all have one value per date of its index. */
  predicate Shaped(raw: RawData)
  {
    raw.Frame? ==> forall c :: c in raw.columns ==> |c.values| == |raw.dates|
  }

  /** pandas' `.empty`: a series without entries, or a table without rows or without columns. */
  predicate IsEmpty(raw: RawData)
  {
    match raw
    case NoData => true
    case SeriesData(s) => |s| == 0
    case Frame(dates, columns) => |dates| == 0 || |columns| == 0
  }

  predicate HasColumn(cols: seq<Column>, name: string)
  {
    exists i :: 0 <= i < |cols| && cols[i].name == name
  }

  /** Column `i` is the leftmost one called `name`. */
  predicate FirstNamed(cols: seq<Column>, i: int, name: string)
  {
    0 <= i < |cols| && cols[i].name == name && forall j :: 0 <= j < i ==> cols[j].name != name
  }

  /**
   * The column the scanner reads prices from: the first `Close`; failing that
   * the first `Adj Close`; failing both, the first column.
   */
  predicate Preferred(cols: seq<Column>, i: int)
  {
    || FirstNamed(cols, i, "Close")
    || (!HasColumn(cols, "Close") && FirstNamed(cols, i, "Adj Close"))
    || (!HasColumn(cols, "Close") && !HasColumn(cols, "Adj Close") && 0 == i < |cols|)
  }

  /** The column names tried, in the order the scanner tries them. */
  const PriceColumns: seq<string> := ["Close", "Adj Close"]

  /** Position of the leftmost column called `name`, if any. */
  function IndexOf(cols: seq<Column>, name: string): (r: Option<nat>)
    ensures r.Some? ==> FirstNamed(cols, r.value, name)
    ensures r.None? ==> !HasColumn(cols, name)
  {
    if |cols| == 0 then None
    else if cols[0].name == name then Some(0)
    else match IndexOf(cols[1..], name)
      case None => None
      case Some(i) => Some(i + 1)
  }

  /** Tries each of `names` in turn; the first column when none is present. */
  function PickColumn(cols: seq<Column>, names: seq<string>): (i: nat)
    requires |cols| > 0
    ensures i < |cols|
  {
    if |names| == 0 then 0
    else match IndexOf(cols, names[0])
      case Some(i) => i
      case None => PickColumn(cols, names[1..])
  }

  /** The search over `PriceColumns` lands on the preferred column. */
  lemma PickFindsPreferred(cols: seq<Column>, k: int)
    requires Preferred(cols, k)
    ensures PickColumn(cols, PriceColumns) == k
  {
    var rest := PriceColumns[1..];
    assert rest == ["Adj Close"] && rest[1..] == [];
    match IndexOf(cols, "Close")
    case Some(i) =>
      assert FirstNamed(cols, i, "Close");
    case None =>
      match IndexOf(cols, "Adj Close")
      case Some(i) =>
        assert PickColumn(cols, rest) == i;
      case None =>
        assert PickColumn(cols, rest) == PickColumn(cols, rest[1..]) == 0;
  }

  /** A table with at least one column always has a column to read prices from. */
  lemma PreferredExists(cols: seq<Column>)
    requires |cols| > 0
    ensures exists k :: Preferred(cols, k)
  {
    match IndexOf(cols, "Close")
    case Some(i) =>
      assert Preferred(cols, i);
    case None =>
      match IndexOf(cols, "Adj Close")
      case Some(i) =>
        assert Preferred(cols, i);
      case None =>
        assert Preferred(cols, 0);
  }

  /** A table column as a series over the table's dates. */
  function ColumnSeries(dates: seq<int>, c: Column): (s: Series)
    requires |c.values| == |dates|
    ensures Dates(s) == dates && Values(s) == c.values
  {
    seq(|dates|, i requires 0 <= i < |dates| => Point(dates[i], c.values[i]))
  }

  /**
   * The scanner's data cleaner. "No data" exactly for an empty download; a
   * series comes back unchanged; a non-empty table has a preferred column,
   * and yields it.
   */
  function Normalise(raw: RawData): (r: Option<Series>)
    requires Shaped(raw)
    ensures r.None? <==> IsEmpty(raw)
    ensures raw.SeriesData? && r.Some? ==> r.value == raw.series
    ensures raw.Frame? && r.Some? ==> exists i :: Preferred(raw.columns, i)
    ensures raw.Frame? && r.Some? ==>
      forall i :: Preferred(raw.columns, i) ==> r.value == ColumnSeries(raw.dates, raw.columns[i])
  {
    if IsEmpty(raw) then None
    else match raw
      case SeriesData(s) => Some(s)
      case Frame(dates, columns) =>
        var i := PickColumn(columns, PriceColumns);
        PreferredExists(columns);
        assert columns[i] in columns;
        assert forall k :: Preferred(columns, k) ==> k == i by {
          forall k | Preferred(columns, k) ensures k == i {
            PickFindsPreferred(columns, k);
          }
        }
        Some(ColumnSeries(dates, columns[i]))
  }

  /**
   * `.squeeze()` on the column of a one-row table gives a bare number, not a
   * series: the cleaner then hands back a scalar, which has neither a length
   * nor returns.
   */
  predicate SqueezesToScalar(raw: RawData)
  {
    raw.Frame? && !IsEmpty(raw) && |raw.dates| == 1
  }

  /** With both `Adj Close` and `Close` present, `Close` is read, whatever the column order. */
  lemma CloseBeatsAdjClose(dates: seq<int>, cols: seq<Column>, i: nat, j: nat)
    requires |dates| > 0
    requires forall c :: c in cols ==> |c.values| == |dates|
    requires FirstNamed(cols, i, "Close") && FirstNamed(cols, j, "Adj Close")
    ensures Normalise(Frame(dates, cols)) == Some(ColumnSeries(dates, cols[i]))
  {
    assert Preferred(cols, i);
  }
}
