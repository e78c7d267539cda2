/** Percent-change returns and the date alignment of stock returns with benchmark returns. */
module Returns {
  import opened Series

  /** No price that serves as the base of a return is zero. */
  predicate NonZeroBases(s: Series)
  {
    forall t :: 0 <= t < |s| - 1 ==> s[t].value != 0.0
  }

  /** Positive prices are never a zero base. */
  lemma PositiveBases(s: Series)
    requires Positive(s)
    ensures NonZeroBases(s)
  {
  }

  /** The relative change from each price to the next, on bare prices. */
  function Rates(ps: seq<real>): (rs: seq<real>)
    requires forall t :: 0 <= t < |ps| - 1 ==> ps[t] != 0.0
    ensures |rs| == if |ps| == 0 then 0 else |ps| - 1
  {
    if |ps| == 0 then []
    else seq(|ps| - 1, t requires 0 <= t < |ps| - 1 => (ps[t + 1] - ps[t]) / ps[t])
  }

  /**
   * `pct_change().dropna()`: for each date after the first, the relative
   * change from the previous price, dated at the later of the two days.
   */
  function PctChange(s: Series): (r: Series)
    requires NonZeroBases(s)
    ensures |r| == if |s| == 0 then 0 else |s| - 1
    ensures forall t :: 0 <= t < |r| ==> r[t].date == s[t + 1].date
    ensures forall t :: 0 <= t < |r| ==> r[t].value == (s[t + 1].value - s[t].value) / s[t].value
    ensures Increasing(s) ==> Increasing(r)
  {
    if |s| == 0 then []
    else
      var rs := Rates(Values(s));
      seq(|s| - 1, t requires 0 <= t < |s| - 1 => Point(s[t + 1].date, rs[t]))
  }

  /** Rebuilds prices from a first price and the returns that follow it. */
  function Compound(first: real, rets: seq<real>): (ps: seq<real>)
    ensures |ps| == |rets| + 1 && ps[0] == first
    decreases |rets|
  {
    [first] + if |rets| == 0 then [] else Compound(first * (1.0 + rets[0]), rets[1..])
  }

  /** Each rebuilt price is the previous one grown by the return between them. */
  lemma {:induction false} CompoundGrows(first: real, rets: seq<real>, t: nat)
    requires 0 < t <= |rets|
    ensures Compound(first, rets)[t] == Compound(first, rets)[t - 1] * (1.0 + rets[t - 1])
    decreases t
  {
    var next := first * (1.0 + rets[0]);
    var rest := Compound(next, rets[1..]);
    var all := Compound(first, rets);
    assert all == [first] + rest;
    assert all[t] == rest[t - 1];
    if t > 1 {
      CompoundGrows(next, rets[1..], t - 1);
      assert all[t - 1] == rest[t - 2];
      assert rets[1..][t - 2] == rets[t - 1];
    }
  }

  /** Compounding the rates from the first price gives back the price at index `t`. */
  lemma {:induction false} RatesRoundTripUpTo(ps: seq<real>, t: nat)
    requires t < |ps| && forall j :: 0 <= j < |ps| - 1 ==> ps[j] != 0.0
    ensures Compound(ps[0], Rates(ps))[t] == ps[t]
  {
    if t > 0 {
      var rs := Rates(ps);
      var c := Compound(ps[0], rs);
      RatesRoundTripUpTo(ps, t - 1);
      CompoundGrows(ps[0], rs, t);
      UndoReturn(ps[t - 1], ps[t], c[t - 1], rs[t - 1], c[t]);
    }
  }

  /** Compounding the rates from the first price gives the prices back. */
  lemma RatesRoundTrip(ps: seq<real>)
    requires |ps| >= 1 && forall t :: 0 <= t < |ps| - 1 ==> ps[t] != 0.0
    ensures Compound(ps[0], Rates(ps)) == ps
  {
    forall t | 0 <= t < |ps| ensures Compound(ps[0], Rates(ps))[t] == ps[t] {
      RatesRoundTripUpTo(ps, t);
    }
  }

  /** Returns lose no information: compounding them from the first price gives the prices back. */
  lemma PctChangeRoundTrip(s: Series)
    requires |s| >= 1 && NonZeroBases(s)
    ensures Compound(s[0].value, Values(PctChange(s))) == Values(s)
  {
    var ps := Values(s);
    assert Values(PctChange(s)) == Rates(ps);
    RatesRoundTrip(ps);
  }

  /** A price grown by its return from the previous price gives the price back. */
  lemma UndoReturn(previous: real, current: real, base: real, rate: real, grown: real)
    requires previous != 0.0 && base == previous
    requires rate == (current - previous) / previous && grown == base * (1.0 + rate)
    ensures grown == current
  {
    assert previous * rate == current - previous;
  }

  /**
   * Restricts the stock and benchmark returns to the dates both have, as a
   * merge of two date-sorted series: equal lengths, the same date at each
   * position, and every entry taken from its own input.
   */
  function Align(stock: Series, bench: Series): (r: (Series, Series))
    requires Increasing(stock) && Increasing(bench)
    ensures |r.0| == |r.1|
    ensures forall i :: 0 <= i < |r.0| ==> r.0[i].date == r.1[i].date
    ensures forall i :: 0 <= i < |r.0| ==> r.0[i] in stock && r.1[i] in bench
    decreases |stock| + |bench|
  {
    if |stock| == 0 || |bench| == 0 then ([], [])
    else if stock[0].date == bench[0].date then
      var rest := Align(stock[1..], bench[1..]);
      (([stock[0]] + rest.0), ([bench[0]] + rest.1))
    else if stock[0].date < bench[0].date then
      Align(stock[1..], bench)
    else
      Align(stock, bench[1..])
  }

  /** The aligned series keep their dates in increasing order. */
  lemma {:induction false} AlignIncreasing(stock: Series, bench: Series)
    requires Increasing(stock) && Increasing(bench)
    ensures Increasing(Align(stock, bench).0) && Increasing(Align(stock, bench).1)
    decreases |stock| + |bench|
  {
    if |stock| == 0 || |bench| == 0 {
    } else if stock[0].date == bench[0].date {
      AlignIncreasing(stock[1..], bench[1..]);
      HeadBelowTail(stock);
      HeadBelowTail(bench);
    } else if stock[0].date < bench[0].date {
      AlignIncreasing(stock[1..], bench);
    } else {
      AlignIncreasing(stock, bench[1..]);
    }
  }

  /** The aligned dates are exactly the dates the two inputs share. */
  lemma {:induction false} AlignDates(stock: Series, bench: Series)
    requires Increasing(stock) && Increasing(bench)
    ensures DateSet(Align(stock, bench).0) == DateSet(stock) * DateSet(bench)
    decreases |stock| + |bench|
  {
    if |stock| == 0 || |bench| == 0 {
    } else if stock[0].date == bench[0].date {
      var rest := Align(stock[1..], bench[1..]);
      AlignDates(stock[1..], bench[1..]);
      HeadBelowTail(stock);
      HeadBelowTail(bench);
      DateSetCons(stock[0], rest.0);
    } else if stock[0].date < bench[0].date {
      AlignDates(stock[1..], bench);
      HeadBelowTail(stock);
      HeadBelowTail(bench);
    } else {
      AlignDates(stock, bench[1..]);
      HeadBelowTail(stock);
      HeadBelowTail(bench);
    }
  }

  lemma DateSetCons(p: Point, s: Series)
    ensures DateSet([p] + s) == {p.date} + DateSet(s)
  {
    assert forall q :: q in [p] + s <==> q == p || q in s;
  }

  /** In an increasing series every later entry is dated after the first. */
  lemma HeadBelowTail(s: Series)
    requires Increasing(s) && |s| > 0
    ensures forall p :: p in s[1..] ==> s[0].date < p.date
    ensures DateSet(s) == {s[0].date} + DateSet(s[1..])
    ensures s[0].date !in DateSet(s[1..])
  {
  }
}
