/**
 * What `run_backtest` guarantees about the records it appends and about its
 * `holdings` counter, stated over the specification functions `ScanTo` and
 * `Backtest` that `Backtester.ApplyStrategy` is proved to follow.
 */
module BacktestProperties {
  import opened Options
  import Indicators
  import opened Backtesting

  /** Number of records carrying action `a`. */
  function Count(records: seq<Record>, a: Action): nat
  {
    if |records| == 0 then 0
    else Count(records[..|records| - 1], a) + (if records[|records| - 1].action == a then 1 else 0)
  }

  /** Bars in strictly increasing timestamp order, as the price frame's index is. */
  predicate Chronological(data: seq<Bar>)
  {
    forall i, j :: 0 <= i < j < |data| ==> data[i].timestamp < data[j].timestamp
  }

  /**
   * One loop iteration at bar i: it appends a Buy, after which holdings are
   * 100, exactly when holdings were 0 and the close is below the lower band
   * less the deviation; otherwise it appends a Sell, and holdings drop by
   * 100 whatever they were, exactly when the close is at or above the upper
   * band; otherwise it changes nothing.
   */
  lemma BarOutcome(data: seq<Bar>, frame: seq<Indicators.IndicatorRow>, deviation: real, i: nat)
    requires |frame| == |data| && 1 <= i < |data|
    ensures var prev := ScanTo(data, frame, deviation, i);
      var next := ScanTo(data, frame, deviation, i + 1);
      var buys := prev.holdings == 0 && BuySignal(data[i], frame[i], deviation);
      (next.records == prev.records + [Record(data[i].timestamp, Buy, data[i].close)] <==> buys) &&
      (buys ==> next.holdings == Lot) &&
      (next.records == prev.records + [Record(data[i].timestamp, Sell, data[i].close)] <==>
        !buys && SellSignal(data[i], frame[i])) &&
      (!buys && SellSignal(data[i], frame[i]) ==> next.holdings == prev.holdings - Lot) &&
      (next == prev <==> !buys && !SellSignal(data[i], frame[i]))
  {
    ScanToNext(data, frame, deviation, i);
    var prev := ScanTo(data, frame, deviation, i);
    var n := |prev.records|;
    var buy := prev.records + [Record(data[i].timestamp, Buy, data[i].close)];
    var sell := prev.records + [Record(data[i].timestamp, Sell, data[i].close)];
    assert buy[n] != sell[n];
    assert |buy| != |prev.records| && |sell| != |prev.records|;
  }

  /**
   * Holdings stay a multiple of 100 and never exceed 100, each visited bar
   * adds at most one record, and the loop never appends an end-of-period
   * record.
   */
  lemma {:induction false} ScanInvariants(data: seq<Bar>, frame: seq<Indicators.IndicatorRow>, deviation: real, k: nat)
    requires |frame| == |data| && (k <= 1 || k <= |data|)
    ensures var s := ScanTo(data, frame, deviation, k);
      s.holdings % Lot == 0 && s.holdings <= Lot &&
      (k >= 1 ==> |s.records| <= k - 1) &&
      (forall p :: 0 <= p < |s.records| ==> s.records[p].action != SellEndOfPeriod)
  {
    if k > 1 {
      ScanInvariants(data, frame, deviation, k - 1);
      ScanToNext(data, frame, deviation, k - 1);
    }
  }

  /** Appending `x` adds one to the count of its own action and leaves the others. */
  lemma CountSnoc(records: seq<Record>, x: Record, a: Action)
    ensures Count(records + [x], a) == Count(records, a) + (if x.action == a then 1 else 0)
  {
    assert (records + [x])[..|records|] == records;
  }

  /** Holdings are always 100 times the number of Buys less the number of Sells so far. */
  lemma {:induction false} HoldingsIsNetPosition(data: seq<Bar>, frame: seq<Indicators.IndicatorRow>, deviation: real, k: nat)
    requires |frame| == |data| && (k <= 1 || k <= |data|)
    ensures var s := ScanTo(data, frame, deviation, k);
      s.holdings == Lot * (Count(s.records, Buy) - Count(s.records, Sell))
  {
    if k > 1 {
      HoldingsIsNetPosition(data, frame, deviation, k - 1);
      ScanToNext(data, frame, deviation, k - 1);
      var prev := ScanTo(data, frame, deviation, k - 1).records;
      var bar := data[k - 1];
      CountSnoc(prev, Record(bar.timestamp, Buy, bar.close), Buy);
      CountSnoc(prev, Record(bar.timestamp, Buy, bar.close), Sell);
      CountSnoc(prev, Record(bar.timestamp, Sell, bar.close), Buy);
      CountSnoc(prev, Record(bar.timestamp, Sell, bar.close), Sell);
    }
  }

  /** One iteration keeps the records so far as a prefix. */
  lemma ScanStepExtends(data: seq<Bar>, frame: seq<Indicators.IndicatorRow>, deviation: real, i: nat)
    requires |frame| == |data| && 1 <= i < |data|
    ensures ScanTo(data, frame, deviation, i).records <= ScanTo(data, frame, deviation, i + 1).records
  {
    ScanToNext(data, frame, deviation, i);
  }

  /** Iterations only append: the records after bar j-1 are a prefix of those after bar k-1. */
  lemma {:induction false} ScanIsAppendOnly(data: seq<Bar>, frame: seq<Indicators.IndicatorRow>, deviation: real, j: nat, k: nat)
    requires |frame| == |data| && j <= k && (k <= 1 || k <= |data|)
    ensures ScanTo(data, frame, deviation, j).records <= ScanTo(data, frame, deviation, k).records
  {
    if j < k {
      ScanIsAppendOnly(data, frame, deviation, j, k - 1);
      if k > 1 {
        ScanStepExtends(data, frame, deviation, k - 1);
      }
    }
  }

  /**
   * `r` is what the loop appends at `bar`: the bar's timestamp and close, the
   * bar has bands, and the signal for the record's action held there.
   */
  predicate OfBar(r: Record, bar: Bar, row: Indicators.IndicatorRow, deviation: real)
  {
    r.timestamp == bar.timestamp && r.price == bar.close &&
    (row.lower.Some? || row.upper.Some?) &&
    (r.action == Buy ==> BuySignal(bar, row, deviation)) &&
    (r.action == Sell ==> SellSignal(bar, row))
  }

  /**
   * Every record of the loop belongs to one bar j >= 1 visited so far: it
   * carries that bar's timestamp and close, and that bar's signal held.
   * So no record comes from bar 0 or from a bar whose bands are NaN.
   */
  lemma {:induction false} RecordsComeFromBars(data: seq<Bar>, frame: seq<Indicators.IndicatorRow>, deviation: real, k: nat)
    requires |frame| == |data| && (k <= 1 || k <= |data|)
    ensures var recs := ScanTo(data, frame, deviation, k).records;
      forall p :: 0 <= p < |recs| ==>
        exists j :: 1 <= j < k && OfBar(recs[p], data[j], frame[j], deviation)
  {
    if k > 1 {
      RecordsComeFromBars(data, frame, deviation, k - 1);
      ScanToNext(data, frame, deviation, k - 1);
      var prev := ScanTo(data, frame, deviation, k - 1).records;
      var recs := ScanTo(data, frame, deviation, k).records;
      forall p | 0 <= p < |recs|
        ensures exists j :: 1 <= j < k && OfBar(recs[p], data[j], frame[j], deviation)
      {
        if p < |prev| {
          assert recs[p] == prev[p];
        } else {
          var j := k - 1;
          assert recs[p].timestamp == data[j].timestamp;
        }
      }
    }
  }

  /** With chronological bars, the loop's records have strictly increasing timestamps. */
  lemma {:induction false} RecordsInBarOrder(data: seq<Bar>, frame: seq<Indicators.IndicatorRow>, deviation: real, k: nat)
    requires |frame| == |data| && (k <= 1 || k <= |data|)
    requires Chronological(data)
    ensures var recs := ScanTo(data, frame, deviation, k).records;
      forall p, q :: 0 <= p < q < |recs| ==> recs[p].timestamp < recs[q].timestamp
  {
    if k > 1 {
      RecordsInBarOrder(data, frame, deviation, k - 1);
      RecordsComeFromBars(data, frame, deviation, k - 1);
      ScanToNext(data, frame, deviation, k - 1);
      var prev := ScanTo(data, frame, deviation, k - 1).records;
      var recs := ScanTo(data, frame, deviation, k).records;
      if |recs| > |prev| {
        forall p, q | 0 <= p < q < |recs|
          ensures recs[p].timestamp < recs[q].timestamp
        {
          if q == |prev| {
            var j :| 1 <= j < k - 1 && OfBar(prev[p], data[j], frame[j], deviation);
            assert recs[p] == prev[p];
          } else {
            assert recs[p] == prev[p] && recs[q] == prev[q];
          }
        }
      }
    }
  }

  /**
   * Once holdings are negative no Buy can fire again: holdings never rise
   * and no Buy follows among the later records.
   */
  lemma {:induction false} NoBuyOnceShort(data: seq<Bar>, frame: seq<Indicators.IndicatorRow>, deviation: real, j: nat, k: nat)
    requires |frame| == |data| && j <= k && (k <= 1 || k <= |data|)
    requires ScanTo(data, frame, deviation, j).holdings < 0
    ensures ScanTo(data, frame, deviation, k).holdings <= ScanTo(data, frame, deviation, j).holdings
    ensures forall p :: |ScanTo(data, frame, deviation, j).records| <= p < |ScanTo(data, frame, deviation, k).records| ==>
      ScanTo(data, frame, deviation, k).records[p].action != Buy
  {
    if j < k {
      NoBuyOnceShort(data, frame, deviation, j, k - 1);
      ScanIsAppendOnly(data, frame, deviation, j, k - 1);
      ScanToNext(data, frame, deviation, k - 1);
      var prev := ScanTo(data, frame, deviation, k - 1);
      var a := Decide(prev.holdings, data[k - 1], frame[k - 1], deviation);
      assert a != Some(Buy);
      assert ScanTo(data, frame, deviation, k).records[..|prev.records|] == prev.records;
    }
  }

  /** A Buy with no later Sell means the position is still open, holdings exactly 100. */
  lemma {:induction false} OpenBuyMeansLong(data: seq<Bar>, frame: seq<Indicators.IndicatorRow>, deviation: real, k: nat)
    requires |frame| == |data| && (k <= 1 || k <= |data|)
    ensures var s := ScanTo(data, frame, deviation, k);
      forall p :: 0 <= p < |s.records| && s.records[p].action == Buy ==>
        s.holdings == Lot || exists q :: p < q < |s.records| && s.records[q].action == Sell
  {
    if k > 1 {
      OpenBuyMeansLong(data, frame, deviation, k - 1);
      ScanToNext(data, frame, deviation, k - 1);
      var prev := ScanTo(data, frame, deviation, k - 1);
      var s := ScanTo(data, frame, deviation, k);
      assert prev.records <= s.records;
      forall p | 0 <= p < |s.records| && s.records[p].action == Buy
        ensures s.holdings == Lot || exists q :: p < q < |s.records| && s.records[q].action == Sell
      {
        if p < |prev.records| && s.holdings != Lot {
          assert s.records[p] == prev.records[p];
          if |s.records| > |prev.records| && s.records[|prev.records|].action == Sell {
            assert p < |prev.records| < |s.records|;
          } else {
            assert prev.holdings != Lot;
            assert exists q :: p < q < |prev.records| && prev.records[q].action == Sell;
            var q :| p < q < |prev.records| && prev.records[q].action == Sell;
            assert s.records[q] == prev.records[q];
          }
        }
      }
    }
  }

  /**
   * Liquidation: a `Sell (End of Period)` record is appended exactly when
   * holdings are not zero after the loop; it is then the last record and
   * carries the last bar's timestamp and close. A run of n bars appends at
   * most n records; the last bar can carry both a loop record and the
   * end-of-period sale.
   */
  lemma EndOfPeriodLiquidation(data: seq<Bar>, frame: seq<Indicators.IndicatorRow>, deviation: real)
    requires |frame| == |data|
    ensures var s := ScanTo(data, frame, deviation, |data|);
      var r := Backtest(data, frame, deviation);
      |r| <= |data| &&
      (s.holdings != 0 <==> exists p :: 0 <= p < |r| && r[p].action == SellEndOfPeriod) &&
      (s.holdings != 0 ==>
        |data| > 0 && r[..|r| - 1] == s.records &&
        r[|r| - 1] == Record(data[|data| - 1].timestamp, SellEndOfPeriod, data[|data| - 1].close)) &&
      (s.holdings == 0 ==> r == s.records) &&
      (forall p :: 0 <= p < |r| - 1 ==> r[p].action != SellEndOfPeriod)
  {
    var s := ScanTo(data, frame, deviation, |data|);
    var r := Backtest(data, frame, deviation);
    ScanInvariants(data, frame, deviation, |data|);
    if s.holdings != 0 {
      assert r[|r| - 1].action == SellEndOfPeriod;
      assert r[..|r| - 1] == s.records;
    }
  }

  /**
   * Every Buy that `run_backtest` appends is followed later in its records by
   * a Sell or by the end-of-period sale.
   */
  lemma EveryBuyIsClosed(data: seq<Bar>, frame: seq<Indicators.IndicatorRow>, deviation: real)
    requires |frame| == |data|
    ensures var r := Backtest(data, frame, deviation);
      forall p :: 0 <= p < |r| && r[p].action == Buy ==>
        exists q :: p < q < |r| && (r[q].action == Sell || r[q].action == SellEndOfPeriod)
  {
    var s := ScanTo(data, frame, deviation, |data|);
    var r := Backtest(data, frame, deviation);
    OpenBuyMeansLong(data, frame, deviation, |data|);
    EndOfPeriodLiquidation(data, frame, deviation);
    forall p | 0 <= p < |r| && r[p].action == Buy
      ensures exists q :: p < q < |r| && (r[q].action == Sell || r[q].action == SellEndOfPeriod)
    {
      assert p < |s.records| && r[p] == s.records[p];
      if s.holdings == Lot {
        assert r[|r| - 1].action == SellEndOfPeriod;
      } else {
        var q :| p < q < |s.records| && s.records[q].action == Sell;
        assert r[q] == s.records[q];
      }
    }
  }

  /**
   * On chronological bars the records of a whole run are in time order; only
   * the end-of-period sale may share the timestamp of the record before it.
   */
  lemma BacktestInTimeOrder(data: seq<Bar>, frame: seq<Indicators.IndicatorRow>, deviation: real)
    requires |frame| == |data| && Chronological(data)
    ensures var r := Backtest(data, frame, deviation);
      forall p, q :: 0 <= p < q < |r| ==>
        r[p].timestamp < r[q].timestamp || (q == |r| - 1 && r[q].action == SellEndOfPeriod && r[p].timestamp == r[q].timestamp)
  {
    var s := ScanTo(data, frame, deviation, |data|);
    var r := Backtest(data, frame, deviation);
    RecordsInBarOrder(data, frame, deviation, |data|);
    RecordsComeFromBars(data, frame, deviation, |data|);
    EndOfPeriodLiquidation(data, frame, deviation);
    forall p, q | 0 <= p < q < |r|
      ensures r[p].timestamp < r[q].timestamp ||
        (q == |r| - 1 && r[q].action == SellEndOfPeriod && r[p].timestamp == r[q].timestamp)
    {
      assert r[p] == s.records[p];
      if q >= |s.records| {
        var j :| 1 <= j < |data| && OfBar(s.records[p], data[j], frame[j], deviation);
        assert j == |data| - 1 || data[j].timestamp < data[|data| - 1].timestamp;
      } else {
        assert r[q] == s.records[q];
      }
    }
  }

  /** A non-negative close is never below itself less a non-negative deviation. */
  lemma NoBuyAtBand(c: real, deviation: real)
    requires c >= 0.0 && deviation >= 0.0
    ensures !(c < c * (1.0 - deviation))
  {
  }

  /** No bar signals a Buy, and exactly the bars from m on signal a Sell. */
  predicate SellsExactlyFrom(data: seq<Bar>, frame: seq<Indicators.IndicatorRow>, deviation: real, m: nat)
    requires |frame| == |data|
  {
    forall i :: 1 <= i < |data| ==>
      !BuySignal(data[i], frame[i], deviation) && (SellSignal(data[i], frame[i]) <==> i >= m)
  }

  /**
   * When no bar signals a Buy and exactly the bars from m on signal a Sell,
   * the loop appends a Sell at each of those bars, with no holdings guard:
   * holdings fall by 100 per bar.
   */
  lemma {:induction false} SellsFromBar(data: seq<Bar>, frame: seq<Indicators.IndicatorRow>, deviation: real, m: nat, k: nat)
    requires |frame| == |data| && (k <= 1 || k <= |data|) && m >= 1
    requires SellsExactlyFrom(data, frame, deviation, m)
    ensures var s := ScanTo(data, frame, deviation, k);
      |s.records| == (if k > m then k - m else 0) &&
      (forall p :: 0 <= p < |s.records| ==> s.records[p].action == Sell) &&
      s.holdings == -Lot * |s.records|
  {
    if k > 1 {
      SellsFromBar(data, frame, deviation, m, k - 1);
      ScanToNext(data, frame, deviation, k - 1);
    }
  }

  /**
   * If the bars from m on all signal a Sell and none signals a Buy, the run
   * ends short and closes with a `Sell (End of Period)` at the last bar.
   */
  lemma SellsToTheEnd(data: seq<Bar>, frame: seq<Indicators.IndicatorRow>, deviation: real, m: nat)
    requires |frame| == |data| && 1 <= m < |data|
    requires SellsExactlyFrom(data, frame, deviation, m)
    ensures var r := Backtest(data, frame, deviation);
      |r| == |data| - m + 1 &&
      (forall p :: 0 <= p < |r| - 1 ==> r[p].action == Sell) &&
      r[|r| - 1] == Record(data[|data| - 1].timestamp, SellEndOfPeriod, data[|data| - 1].close)
  {
    SellsFromBar(data, frame, deviation, m, |data|);
    EndOfPeriodLiquidation(data, frame, deviation);
  }

  /**
   * On a flat series the bands collapse onto the close: no bar signals a
   * Buy, and since the sell test is `>=`, every bar from w-1 on signals a Sell.
   */
  lemma FlatSeriesSignals(data: seq<Bar>, w: nat, sd: seq<Option<real>>, deviation: real, c: real)
    requires Indicators.IsRollingStdDev(Closes(data), w, sd)
    requires 2 <= w && c >= 0.0 && deviation >= 0.0
    requires forall i :: 0 <= i < |data| ==> data[i].close == c
    ensures SellsExactlyFrom(data, Indicators.BollingerBands(Closes(data), w, sd), deviation, w - 1)
  {
    var frame := Indicators.BollingerBands(Closes(data), w, sd);
    forall i | 1 <= i < |data|
      ensures !BuySignal(data[i], frame[i], deviation) && (SellSignal(data[i], frame[i]) <==> i >= w - 1)
    {
      if i + 1 >= w {
        Indicators.FlatWindowCollapsesBands(Closes(data), w, sd, i, c);
        NoBuyAtBand(c, deviation);
      } else {
        Indicators.BandsOrdered(Closes(data), w, sd, i);
      }
    }
  }

  /**
   * A flat series with at least w bars therefore ends short: the run
   * appends a Sell at every bar from w-1 on and closes with a
   * `Sell (End of Period)`, although no position was ever bought.
   */
  lemma FlatSeriesEndsShort(data: seq<Bar>, w: nat, sd: seq<Option<real>>, deviation: real, c: real)
    requires Indicators.IsRollingStdDev(Closes(data), w, sd)
    requires 2 <= w <= |data|
    requires c >= 0.0 && deviation >= 0.0
    requires forall i :: 0 <= i < |data| ==> data[i].close == c
    ensures var r := Backtest(data, Indicators.BollingerBands(Closes(data), w, sd), deviation);
      |r| == |data| - w + 2 &&
      (forall p :: 0 <= p < |r| - 1 ==> r[p].action == Sell) &&
      r[|r| - 1] == Record(data[|data| - 1].timestamp, SellEndOfPeriod, c)
  {
    var frame := Indicators.BollingerBands(Closes(data), w, sd);
    FlatSeriesSignals(data, w, sd, deviation, c);
    SellsToTheEnd(data, frame, deviation, w - 1);
  }
}
