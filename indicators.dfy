/**
 * The indicator step of the backtester: a trailing moving average of the
 * closes, the rolling sample standard deviation over the same window, and
 * Bollinger bands one standard deviation above and below the average.
 *
 * Columns that pandas fills with NaN are `None` here. The square root inside
 * the standard deviation is not computed: the standard-deviation column is an
 * input, and `IsRollingStdDev` says which columns pandas would produce.
 */
module Indicators {
  import opened Options

  /** Sum of a sequence, accumulated left to right. */
  function Sum(xs: seq<real>): real
  {
    if |xs| == 0 then 0.0 else Sum(xs[..|xs| - 1]) + xs[|xs| - 1]
  }

  /** Arithmetic mean of a non-empty window. */
  function Mean(xs: seq<real>): real
    requires |xs| > 0
  {
    Sum(xs) / (|xs| as real)
  }

  /** Sum of squared deviations of the window from `m`. */
  function SquaredDeviations(xs: seq<real>, m: real): real
  {
    if |xs| == 0 then 0.0
    else SquaredDeviations(xs[..|xs| - 1], m) + (xs[|xs| - 1] - m) * (xs[|xs| - 1] - m)
  }

  /** Sample variance (one degree of freedom removed), the square of pandas' default `std`. */
  function SampleVariance(xs: seq<real>): real
    requires |xs| >= 2
  {
    SquaredDeviations(xs, Mean(xs)) / ((|xs| - 1) as real)
  }

  /** The trailing window of `w` closes that ends at bar `i`, inclusive. */
  function Window(closes: seq<real>, w: nat, i: nat): (win: seq<real>)
    requires 1 <= w <= i + 1 <= |closes|
    ensures |win| == w
    ensures forall k :: 0 <= k < w ==> win[k] == closes[i + 1 - w + k]
  {
    closes[i + 1 - w .. i + 1]
  }

  /**
   * `close.rolling(window=w).mean()` at bar `i`: defined once `w` bars are
   * available, NaN before that.
   */
  function MovingAverage(closes: seq<real>, w: nat, i: nat): (ma: Option<real>)
    requires i < |closes|
    ensures ma.Some? <==> 1 <= w <= i + 1
  {
    if 1 <= w <= i + 1 then Some(Mean(Window(closes, w, i))) else None
  }

  /**
   * `sd` is the column `close.rolling(window=w).std()`: NaN before the window
   * is full and, since one degree of freedom is removed, everywhere when the
   * window holds a single bar; otherwise the non-negative square root of the
   * sample variance of the window. That the root is zero exactly when the
   * variance is zero is stated outright rather than derived from the square.
   */
  predicate IsRollingStdDev(closes: seq<real>, w: nat, sd: seq<Option<real>>)
  {
    |sd| == |closes| &&
    forall i :: 0 <= i < |sd| ==>
      (sd[i].Some? <==> 2 <= w <= i + 1) &&
      (sd[i].Some? ==>
        sd[i].value >= 0.0 &&
        sd[i].value * sd[i].value == SampleVariance(Window(closes, w, i)) &&
        (sd[i].value == 0.0 <==> SampleVariance(Window(closes, w, i)) == 0.0))
  }

  /** One row of the data frame after `calculate_bollinger_bands`. */
  datatype IndicatorRow = IndicatorRow(ma: Option<real>, stdDev: Option<real>, upper: Option<real>, lower: Option<real>)

  /** Row `i`: MA + StdDev * 1 and MA - StdDev * 1, NaN when either operand is NaN. */
  function BandRow(closes: seq<real>, w: nat, sd: Option<real>, i: nat): IndicatorRow
    requires i < |closes|
  {
    var ma := MovingAverage(closes, w, i);
    IndicatorRow(
      ma, sd,
      if ma.Some? && sd.Some? then Some(ma.value + sd.value * 1.0) else None,
      if ma.Some? && sd.Some? then Some(ma.value - sd.value * 1.0) else None)
  }

  /** The four columns `calculate_bollinger_bands` adds, one row per bar. */
  function BollingerBands(closes: seq<real>, w: nat, sd: seq<Option<real>>): (rows: seq<IndicatorRow>)
    requires |sd| == |closes|
    ensures |rows| == |closes|
    ensures forall i :: 0 <= i < |rows| ==> rows[i].ma == MovingAverage(closes, w, i) && rows[i].stdDev == sd[i]
    ensures forall i :: 0 <= i < |rows| ==>
      (rows[i].upper.Some? <==> rows[i].ma.Some? && sd[i].Some?) &&
      (rows[i].lower.Some? <==> rows[i].upper.Some?)
    ensures forall i :: 0 <= i < |rows| && rows[i].upper.Some? ==>
      rows[i].upper.value - rows[i].ma.value == sd[i].value &&
      rows[i].ma.value - rows[i].lower.value == sd[i].value
  {
    seq(|closes|, i requires 0 <= i < |closes| => BandRow(closes, w, sd[i], i))
  }

  /** Number of rows whose bands are defined. */
  function CountDefined(rows: seq<IndicatorRow>): nat
  {
    if |rows| == 0 then 0
    else CountDefined(rows[..|rows| - 1]) + (if rows[|rows| - 1].upper.Some? then 1 else 0)
  }

  // ---------------------------------------------------------------------------
  // Properties of the rolling statistics

  /** Sum splits at the front as well as at the back. */
  lemma {:induction false} SumPrepend(xs: seq<real>)
    requires |xs| > 0
    ensures Sum(xs) == xs[0] + Sum(xs[1..])
  {
    if |xs| > 1 {
      SumPrepend(xs[..|xs| - 1]);
      assert xs[..|xs| - 1][1..] == xs[1..][..|xs[1..]| - 1];
      assert xs[..|xs| - 1][0] == xs[0];
    }
  }

  /** Every value of the window lies in [lo, hi], so the sum lies in [lo*n, hi*n]. */
  lemma {:induction false} SumBounds(xs: seq<real>, lo: real, hi: real)
    requires forall k :: 0 <= k < |xs| ==> lo <= xs[k] <= hi
    ensures lo * (|xs| as real) <= Sum(xs) <= hi * (|xs| as real)
  {
    if |xs| > 0 {
      SumBounds(xs[..|xs| - 1], lo, hi);
    }
  }

  /** The moving average never leaves the range of the closes in its window. */
  lemma MovingAverageWithinWindow(closes: seq<real>, w: nat, i: nat, lo: real, hi: real)
    requires 1 <= w <= i + 1 <= |closes|
    requires forall j :: i + 1 - w <= j <= i ==> lo <= closes[j] <= hi
    ensures MovingAverage(closes, w, i).Some?
    ensures lo <= MovingAverage(closes, w, i).value <= hi
  {
    var win := Window(closes, w, i);
    SumBounds(win, lo, hi);
    ScaledBounds(Sum(win), w as real, lo, hi);
  }

  /** Dividing bounds lo*n <= a <= hi*n by a positive n. */
  lemma ScaledBounds(a: real, n: real, lo: real, hi: real)
    requires n > 0.0 && lo * n <= a <= hi * n
    ensures lo <= a / n <= hi
  {
  }

  /**
   * Rolling the window forward one bar adds the new close and drops the one
   * that left the window.
   */
  lemma RollingSumSlides(closes: seq<real>, w: nat, i: nat)
    requires 1 <= w <= i < |closes|
    ensures Sum(Window(closes, w, i)) == Sum(Window(closes, w, i - 1)) - closes[i - w] + closes[i]
  {
    var prev := Window(closes, w, i - 1);
    var cur := Window(closes, w, i);
    SumPrepend(prev);
    assert cur[..|cur| - 1] == prev[1..];
  }

  /**
   * The moving average can be updated incrementally: moving one bar forward
   * adds (new close - dropped close) / w.
   */
  lemma MovingAverageSlides(closes: seq<real>, w: nat, i: nat)
    requires 1 <= w <= i < |closes|
    ensures MovingAverage(closes, w, i).Some? && MovingAverage(closes, w, i - 1).Some?
    ensures MovingAverage(closes, w, i).value
      == MovingAverage(closes, w, i - 1).value + (closes[i] - closes[i - w]) / (w as real)
  {
    RollingSumSlides(closes, w, i);
    var n := w as real;
    var before := Sum(Window(closes, w, i - 1));
    var d := closes[i] - closes[i - w];
    assert (before + d) / n == before / n + d / n;
  }

  lemma {:induction false} SquaredDeviationsOfConstant(xs: seq<real>, c: real)
    requires forall k :: 0 <= k < |xs| ==> xs[k] == c
    ensures SquaredDeviations(xs, c) == 0.0
  {
    if |xs| > 0 {
      SquaredDeviationsOfConstant(xs[..|xs| - 1], c);
    }
  }

  /**
   * A window of identical closes has zero standard deviation, so both bands
   * collapse onto the close itself.
   */
  lemma FlatWindowCollapsesBands(closes: seq<real>, w: nat, sd: seq<Option<real>>, i: nat, c: real)
    requires IsRollingStdDev(closes, w, sd)
    requires 2 <= w <= i + 1 <= |closes|
    requires forall j :: i + 1 - w <= j <= i ==> closes[j] == c
    ensures sd[i] == Some(0.0)
    ensures BollingerBands(closes, w, sd)[i] == IndicatorRow(Some(c), Some(0.0), Some(c), Some(c))
  {
    var win := Window(closes, w, i);
    MovingAverageWithinWindow(closes, w, i, c, c);
    assert Mean(win) == c;
    SquaredDeviationsOfConstant(win, c);
  }

  /**
   * Where the bands are defined they sit one standard deviation either side
   * of the average, so lower <= MA <= upper; they are defined exactly from
   * bar w-1 on, and only when the window holds at least two bars.
   */
  lemma BandsOrdered(closes: seq<real>, w: nat, sd: seq<Option<real>>, i: nat)
    requires IsRollingStdDev(closes, w, sd)
    requires i < |closes|
    ensures var row := BollingerBands(closes, w, sd)[i];
      (row.upper.Some? <==> 2 <= w <= i + 1) &&
      (row.lower.Some? <==> 2 <= w <= i + 1) &&
      (row.upper.Some? ==> row.lower.value <= row.ma.value <= row.upper.value)
  {
  }

  /**
   * Counting defined rows over the first m bars, when row i is defined
   * exactly from bar w-1 on (w >= 2).
   */
  lemma {:induction false} CountDefinedPrefix(rows: seq<IndicatorRow>, w: nat, m: nat)
    requires m <= |rows|
    requires forall i :: 0 <= i < |rows| ==> (rows[i].upper.Some? <==> 2 <= w <= i + 1)
    ensures CountDefined(rows[..m]) == if 2 <= w <= m then m - w + 1 else 0
  {
    if m > 0 {
      CountDefinedPrefix(rows, w, m - 1);
      assert rows[..m][..m - 1] == rows[..m - 1];
    }
  }

  /** Of n bars, exactly n - w + 1 carry bands when 2 <= w <= n, and none otherwise. */
  lemma DefinedBandCount(closes: seq<real>, w: nat, sd: seq<Option<real>>)
    requires IsRollingStdDev(closes, w, sd)
    ensures var rows := BollingerBands(closes, w, sd);
      CountDefined(rows) == if 2 <= w <= |closes| then |closes| - w + 1 else 0
  {
    var rows := BollingerBands(closes, w, sd);
    forall i | 0 <= i < |rows| ensures rows[i].upper.Some? <==> 2 <= w <= i + 1 {
      BandsOrdered(closes, w, sd, i);
    }
    CountDefinedPrefix(rows, w, |rows|);
    assert rows[..|rows|] == rows;
  }
}
