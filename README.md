# Bollinger-band backtester, modelled in Dafny

This project models the `Backtester` class of the trading-strategy backtest
service (`trading_strategy_backtest/app/routers/backtesting.py`). It covers
two parts.

- **The indicator step** (`calculate_bollinger_bands`). It computes the
  trailing moving average of the closes over `rolling_window` bars and the
  rolling sample standard deviation (pandas' `std`, one degree of freedom
  removed) over the same window. It then adds an upper band at MA + 1·StdDev
  and a lower band at MA − 1·StdDev. A NaN column value is `None`.
  - The moving average is defined from bar `w-1` on.
  - The standard deviation is defined from bar `w-1` on, and only when
    `w >= 2`. A one-bar window has no sample deviation.
  - A band is NaN when either of its operands is NaN.
- **The signal scan** (`run_backtest`). An integer `holdings` counter starts
  at 0. The scan visits bars 1 .. n-1. On each bar:
  - If `holdings == 0` and the close is below `LowerBand * (1 - price_deviation)`,
    it appends a `Buy` and adds 100 to `holdings`.
  - Otherwise, if the close is at or above `UpperBand`, it appends a `Sell`
    and subtracts 100. There is no holdings guard on this branch.
  - A NaN band makes both tests false.

  After the loop, a nonzero `holdings` appends a `Sell (End of Period)`
  record with the last bar's timestamp and close.

Files:

- `options.dfy`: `Option`, standing for a value pandas may leave as NaN.
- `indicators.dfy` (module `Indicators`): rolling sum, mean and sample
  variance; `MovingAverage`; `IsRollingStdDev`, which says which
  standard-deviation columns pandas can produce; `BollingerBands`. Also the
  lemmas about these.
- `backtesting.dfy` (module `Backtesting`): the bar and record datatypes; the
  pure specification of the scan (`ScanTo` for the loop after bars 1 .. k-1,
  `Backtest` for everything a run appends); and the class `Backtester`, whose
  fields are the attributes `__init__` sets.
  - `RunBacktest` computes the bands.
  - It then calls `ApplyStrategy`, which holds the source's loop and the
    end-of-period sale.
  - `ApplyStrategy` is proved to append exactly `Backtest` to `results`.
- `backtesting_properties.dfy` (module `BacktestProperties`): the properties
  of the scan, proved over `ScanTo` and `Backtest`.

Facts about the code that shape the model:
- The sell test is `>=`, so a close equal to `UpperBand` sells.
- The sell branch has no holdings guard, so `holdings` can go negative. Once
  it is negative, no Buy fires again.
- Results are `{timestamp, action, price}` records with no profit field.
- A series too short for any band produces no records and raises no error.

`FlatSeriesEndsShort` shows the consequence on a constant series. The bands
collapse onto the close, every bar from `w-1` on sells, and the run ends with
a `Sell (End of Period)` although nothing was ever bought.

## Model

| member | source | states |
|---|---|---|
| `Indicators.MovingAverage` | trading_strategy_backtest/app/routers/backtesting.py:16 | the rolling mean at bar i is defined exactly when 1 <= w <= i+1 (NaN before the window fills) |
| `Indicators.BollingerBands` | trading_strategy_backtest/app/routers/backtesting.py:14-19 | one row per bar. MA is the rolling mean and StdDev the given column. A band is defined iff both MA and StdDev are, and then UpperBand − MA = MA − LowerBand = StdDev |
| `Indicators.IsRollingStdDev` | trading_strategy_backtest/app/routers/backtesting.py:17 | which StdDev columns `rolling(window=w).std()` can produce: NaN exactly before the window fills and everywhere when w < 2; otherwise a non-negative value whose square is the window's sample variance, zero exactly when that variance is |
| `Indicators.BandRow` | trading_strategy_backtest/app/routers/backtesting.py:18-19 | one row's UpperBand = MA + StdDev·1 and LowerBand = MA − StdDev·1, NaN when either operand is NaN. It has no `ensures` of its own; `BollingerBands` states its properties for every row |
| `Indicators.MovingAverageWithinWindow` | trading_strategy_backtest/app/routers/backtesting.py:16 | the moving average lies within any bounds that hold for every close in its window |
| `Indicators.RollingSumSlides` | trading_strategy_backtest/app/routers/backtesting.py:16 | moving the window one bar forward adds the new close to the window sum and drops the close that left |
| `Indicators.MovingAverageSlides` | trading_strategy_backtest/app/routers/backtesting.py:16 | MA[i] = MA[i-1] + (close[i] − close[i-w]) / w for w <= i |
| `Indicators.FlatWindowCollapsesBands` | trading_strategy_backtest/app/routers/backtesting.py:16-19 | a window of identical closes c has StdDev 0, and MA, UpperBand and LowerBand all equal c |
| `Indicators.BandsOrdered` | trading_strategy_backtest/app/routers/backtesting.py:16-19 | both bands are defined exactly when 2 <= w <= i+1, and then LowerBand <= MA <= UpperBand |
| `Indicators.DefinedBandCount` | trading_strategy_backtest/app/routers/backtesting.py:16-19 | of n bars, exactly n − w + 1 carry bands when 2 <= w <= n, and none otherwise |
| `Backtesting.Decide` | trading_strategy_backtest/app/routers/backtesting.py:30-37 | the `if`/`elif` of one iteration: Buy when the close is below LowerBand·(1 − deviation) and holdings are 0, otherwise Sell when the close is at or above UpperBand, otherwise nothing. It has no `ensures` of its own; `BacktestProperties.BarOutcome` states it as iff facts |
| `Backtesting.Settle` | trading_strategy_backtest/app/routers/backtesting.py:30-37 | the holdings update: +100 after a Buy, −100 after a Sell, unchanged otherwise. It has no `ensures` of its own; `BacktestProperties.BarOutcome` and `BacktestProperties.HoldingsIsNetPosition` state its effect |
| `Backtesting.ScanTo` | trading_strategy_backtest/app/routers/backtesting.py:24-37 | the holdings and records after the loop has visited bars 1 .. k-1. It has no `ensures` of its own; its properties are the `BacktestProperties` lemmas (`ScanInvariants`, `HoldingsIsNetPosition`, `ScanIsAppendOnly`, `RecordsComeFromBars`, `NoBuyOnceShort`) |
| `Backtesting.Backtest` | trading_strategy_backtest/app/routers/backtesting.py:24-45 | everything one run appends: the loop's records, then a `Sell (End of Period)` at the last bar when holdings are not 0. It has no `ensures` of its own; its properties are `BacktestProperties.EndOfPeriodLiquidation`, `EveryBuyIsClosed` and `BacktestInTimeOrder` |
| `Backtesting.Backtester.constructor` | trading_strategy_backtest/app/routers/backtesting.py:7-12 | stores symbol, data, rolling_window (default 3) and price_deviation (default 0.03); results start empty |
| `Backtesting.Backtester.RunBacktest` | trading_strategy_backtest/app/routers/backtesting.py:21-47 | computes the bands from the closes and the given StdDev column. Results become the old results followed by `Backtest` over those bands |
| `Backtesting.Backtester.ApplyStrategy` | trading_strategy_backtest/app/routers/backtesting.py:24-47 | the loop and the liquidation append exactly `Backtest(data, frame, price_deviation)`. Earlier entries are kept as a prefix |
| `Backtesting.Backtester.GetResults` | trading_strategy_backtest/app/routers/backtesting.py:50-52 | returns the results list itself |
| `BacktestProperties.BarOutcome` | trading_strategy_backtest/app/routers/backtesting.py:29-37 | at bar i a Buy is appended iff holdings == 0 and close < LowerBand·(1 − deviation), and holdings then is 100. Otherwise a Sell is appended iff close >= UpperBand, and holdings drops by 100. Otherwise nothing changes |
| `BacktestProperties.ScanInvariants` | trading_strategy_backtest/app/routers/backtesting.py:24-37 | holdings stay a multiple of 100 and at most 100. Bars 1 .. k-1 add at most k-1 records, and the loop never appends an end-of-period record |
| `BacktestProperties.HoldingsIsNetPosition` | trading_strategy_backtest/app/routers/backtesting.py:24-37 | holdings = 100 · (number of Buys − number of Sells) appended so far |
| `BacktestProperties.ScanIsAppendOnly` | trading_strategy_backtest/app/routers/backtesting.py:25-37 | the records after fewer bars are a prefix of the records after more bars |
| `BacktestProperties.RecordsComeFromBars` | trading_strategy_backtest/app/routers/backtesting.py:25-37 | every loop record comes from a bar j >= 1 that has bands. It carries that bar's timestamp and close, and the signal for its action held at that bar |
| `BacktestProperties.RecordsInBarOrder` | trading_strategy_backtest/app/routers/backtesting.py:25-37 | with chronological bars, loop records have strictly increasing timestamps (at most one per bar) |
| `BacktestProperties.NoBuyOnceShort` | trading_strategy_backtest/app/routers/backtesting.py:30-37 | once holdings are negative they never rise again, and no later record is a Buy |
| `BacktestProperties.OpenBuyMeansLong` | trading_strategy_backtest/app/routers/backtesting.py:30-37 | a Buy with no later Sell means holdings are exactly 100 |
| `BacktestProperties.EndOfPeriodLiquidation` | trading_strategy_backtest/app/routers/backtesting.py:39-47 | a run of n bars appends at most n records; the last bar can carry both a loop record and the end-of-period sale. A `Sell (End of Period)` is appended iff holdings != 0 after the loop. It is then the only such record, the last one, and carries the last bar's timestamp and close |
| `BacktestProperties.EveryBuyIsClosed` | trading_strategy_backtest/app/routers/backtesting.py:30-45 | every appended Buy is followed later by a Sell or a `Sell (End of Period)` |
| `BacktestProperties.BacktestInTimeOrder` | trading_strategy_backtest/app/routers/backtesting.py:25-45 | with chronological bars, a run's records are in time order. Only the end-of-period sale may share the timestamp of an earlier record |
| `BacktestProperties.SellsFromBar` | trading_strategy_backtest/app/routers/backtesting.py:35-37 | with no Buy signal and Sell signals exactly from bar m on, the loop appends a Sell at each of those bars, and holdings equal −100 times the number of Sells |
| `BacktestProperties.SellsToTheEnd` | trading_strategy_backtest/app/routers/backtesting.py:35-45 | in that situation the run appends n − m Sells followed by a `Sell (End of Period)` at the last bar |
| `BacktestProperties.FlatSeriesSignals` | trading_strategy_backtest/app/routers/backtesting.py:16-35 | with a window w >= 2 and a deviation >= 0, on a constant non-negative series no bar signals a Buy, and exactly the bars from w-1 on signal a Sell, because the test is `>=` |
| `BacktestProperties.FlatSeriesEndsShort` | trading_strategy_backtest/app/routers/backtesting.py:16-45 | a constant series of at least w >= 2 bars yields Sells at bars w-1 .. n-1 and then a `Sell (End of Period)`, with no Buy at all |

## Left out

- `IsRollingStdDev`: the square root is not computed. The standard-deviation
  column is an input to `RunBacktest`, required to be NaN exactly where
  pandas leaves it NaN. Elsewhere it must be non-negative, with its square
  equal to the window's sample variance. That it is zero exactly when the
  variance is zero is stated as part of the input condition rather than
  derived.
- Floating point: closes, bands and the deviation are exact reals. Rounding
  in pandas' rolling mean and std is not modelled. NaN appears only as a
  `None` band (no NaN closes).
- `Backtesting.Backtester.RunBacktest`: the `close`, `MA`, `StdDev`,
  `UpperBand` and `LowerBand` columns are not stored back into `data`. The
  bands are a local sequence handed to `ApplyStrategy`.
- `rolling_window` is a natural number. A negative window, which pandas
  rejects with an error, is excluded by the type. A window of 0 leaves the
  moving average undefined.
- Bars are `(timestamp, close)` pairs with integer timestamps that stand for
  the frame's datetime index. The other OHLCV columns are unused by the backtester.
- The `holdings = 0` reset at line 47 assigns a local that is never read
  again. The model performs the assignment, but nothing can observe it.
- `print` at line 46: console output only.
- `get_results` wraps the list in a DataFrame (line 52). `GetResults`
  returns the list.
- `plot_bollinger_bands` and `save_results` (lines 54-121): chart rendering
  and CSV/PNG file output.
- `trading_strategy_backtest/app/routers/data_ingestion.py`: HTTP fetches
  from the market-data API, CSV persistence and route handlers.
- `trading_strategy_backtest/app/main.py` and
  `trading_strategy_backtest/app/utils.py`: web application wiring and a
  request schema, with no logic.
