/**
 * The backtester: a Bollinger-band signal scan over a series of bars that
 * appends Buy / Sell records to an append-only results list, driven by an
 * integer `holdings` counter, and liquidates at the end of the period when
 * `holdings` is not zero.
 *
 * The scan is specified by the pure functions `ScanTo` and `Backtest`; the
 * class `Backtester` runs it as a loop and is proved to append exactly
 * `Backtest` to its results.
 */
module Backtesting {
  import opened Options
  import Indicators

  /** One row of the price frame: its index label and its close. */
  datatype Bar = Bar(timestamp: int, close: real)

  datatype Action = Buy | Sell | SellEndOfPeriod

  /** One entry of `results`: `{'timestamp', 'action', 'price'}`. */
  datatype Record = Record(timestamp: int, action: Action, price: real)

  /** Size of every position change. */
  const Lot: int := 100

  /** The close column of the frame. */
  function Closes(data: seq<Bar>): (closes: seq<real>)
    ensures |closes| == |data|
    ensures forall i :: 0 <= i < |data| ==> closes[i] == data[i].close
  {
    seq(|data|, i requires 0 <= i < |data| => data[i].close)
  }

  /** Buy test of bar i: close below the lower band less the deviation; false on NaN. */
  predicate BuySignal(bar: Bar, row: Indicators.IndicatorRow, deviation: real)
  {
    row.lower.Some? && bar.close < row.lower.value * (1.0 - deviation)
  }

  /** Sell test of bar i: close at or above the upper band; false on NaN. */
  predicate SellSignal(bar: Bar, row: Indicators.IndicatorRow)
  {
    row.upper.Some? && bar.close >= row.upper.value
  }

  /** The `if` / `elif` of one loop iteration: which record, if any, bar i appends. */
  function Decide(holdings: int, bar: Bar, row: Indicators.IndicatorRow, deviation: real): Option<Action>
  {
    if BuySignal(bar, row, deviation) && holdings == 0 then Some(Buy)
    else if SellSignal(bar, row) then Some(Sell)
    else None
  }

  /** The holdings after an iteration that appended `a`. */
  function Settle(holdings: int, a: Option<Action>): int
  {
    match a
    case Some(Buy) => holdings + Lot
    case Some(Sell) => holdings - Lot
    case _ => holdings
  }

  /** Holdings and the records appended so far. */
  datatype ScanState = ScanState(holdings: int, records: seq<Record>)

  /** The state of the loop once bars 1 .. k-1 have been visited (bar 0 is never visited). */
  function ScanTo(data: seq<Bar>, frame: seq<Indicators.IndicatorRow>, deviation: real, k: nat): ScanState
    requires |frame| == |data|
    requires k <= 1 || k <= |data|
    decreases k
  {
    if k <= 1 then ScanState(0, [])
    else
      var prev := ScanTo(data, frame, deviation, k - 1);
      var bar := data[k - 1];
      var a := Decide(prev.holdings, bar, frame[k - 1], deviation);
      ScanState(
        Settle(prev.holdings, a),
        if a.Some? then prev.records + [Record(bar.timestamp, a.value, bar.close)] else prev.records)
  }

  /**
   * Everything `run_backtest` appends: the loop's records, then a
   * `Sell (End of Period)` at the last bar when holdings are not zero.
   */
  function Backtest(data: seq<Bar>, frame: seq<Indicators.IndicatorRow>, deviation: real): seq<Record>
    requires |frame| == |data|
  {
    var s := ScanTo(data, frame, deviation, |data|);
    if s.holdings != 0 then
      s.records + [Record(data[|data| - 1].timestamp, SellEndOfPeriod, data[|data| - 1].close)]
    else s.records
  }

  /** One more iteration of the loop, as `ScanTo` defines it. */
  lemma ScanToNext(data: seq<Bar>, frame: seq<Indicators.IndicatorRow>, deviation: real, i: nat)
    requires |frame| == |data| && 1 <= i < |data|
    ensures var prev := ScanTo(data, frame, deviation, i);
      var a := Decide(prev.holdings, data[i], frame[i], deviation);
      ScanTo(data, frame, deviation, i + 1) == ScanState(
        Settle(prev.holdings, a),
        if a.Some? then prev.records + [Record(data[i].timestamp, a.value, data[i].close)] else prev.records)
  {
  }

  class Backtester {
    var symbol: string
    var data: seq<Bar>
    var rollingWindow: nat
    var priceDeviation: real
    var results: seq<Record>

    constructor (symbol: string, data: seq<Bar>, rollingWindow: nat := 3, priceDeviation: real := 0.03)
      ensures this.symbol == symbol && this.data == data
      ensures this.rollingWindow == rollingWindow && this.priceDeviation == priceDeviation
      ensures results == []
    {
      this.symbol := symbol;
      this.data := data;
      this.rollingWindow := rollingWindow;
      this.priceDeviation := priceDeviation;
      results := [];
    }

    /**
     * `run_backtest`: computes the bands, then scans and liquidates.
     * `stdDev` is the rolling standard-deviation column of the closes.
     */
    method RunBacktest(stdDev: seq<Option<real>>)
      requires Indicators.IsRollingStdDev(Closes(data), rollingWindow, stdDev)
      modifies this`results
      ensures results == old(results) + Backtest(data, Indicators.BollingerBands(Closes(data), rollingWindow, stdDev), priceDeviation)
    {
      var frame := Indicators.BollingerBands(Closes(data), rollingWindow, stdDev);
      ApplyStrategy(frame);
    }

    /**
     * The body of `run_backtest` after the bands are computed: the loop over
     * bars 1 .. n-1 with its local `holdings`, then the end-of-period sale.
     * Entries already in `results` are kept as they were.
     */
    method ApplyStrategy(frame: seq<Indicators.IndicatorRow>)
      requires |frame| == |data|
      modifies this`results
      ensures results == old(results) + Backtest(data, frame, priceDeviation)
      ensures old(results) <= results
    {
      ghost var before := results;
      var holdings := 0;
      var i := 1;
      while i < |data|
        invariant 1 <= i && (i == 1 || i <= |data|)
        invariant holdings == ScanTo(data, frame, priceDeviation, i).holdings
        invariant results == before + ScanTo(data, frame, priceDeviation, i).records
      {
        var current := data[i];
        var row := frame[i];
        ScanToNext(data, frame, priceDeviation, i);
        if BuySignal(current, row, priceDeviation) && holdings == 0 {
          holdings := holdings + Lot;
          results := results + [Record(current.timestamp, Buy, current.close)];
        } else if SellSignal(current, row) {
          holdings := holdings - Lot;
          results := results + [Record(current.timestamp, Sell, current.close)];
        }
        i := i + 1;
      }
      if holdings != 0 {
        var finalPrice := data[|data| - 1].close;
        results := results + [Record(data[|data| - 1].timestamp, SellEndOfPeriod, finalPrice)];
        holdings := 0;
      }
    }

    /** `get_results`: the records appended so far, in order. */
    function GetResults(): (r: seq<Record>)
      reads this
      ensures r == results
    {
      results
    }
  }
}
