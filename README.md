# NagaFlow core, modelled in Dafny

NagaFlow is a crypto backtesting system. Its core has three layers.

- **Strategy factors** (`crypto_cta/factors`). ATR breakout, mean reversion, KDJ, MACD and RSI each turn a table of candle bars into a position column: 1 long, -1 short, 0 flat. `signal` builds the columns bar by bar. `para_list` enumerates the parameter grid.
- **Data services** (`bn_data`, `backend/app/services`).
  - `symbols.py` and `common.py` describe symbols, intervals and the candle cache file names.
  - The local data manager converts between BTCUSDT and BTC-USDT spellings, reads stored candles and reports coverage. Every lookup uses the conversion as written, in which a listed base prefix decides the key, so ETHFIUSDT reads ETH's data (see "## Findings").
  - The data adapter sits between that store and the backtest engine. It lists USDT and spot symbols, prepares a frame for the engine (columns, returns) and picks spot or swap data.
  - The database service keeps strategies, tasks and results in in-memory tables when no database is configured.
- **Results pages** (`frontend/src`).
  - Stores: the backtest results store and the loading store.
  - Hooks: responsive breakpoints and translation.
  - Components: the time-range hint, the factor configuration form, the trade table, the result filter, the statistics panel, the strategy comparison card, the export button, the monthly-returns heatmap and the trade analysis chart.

## How the code is modelled

- **Factor signals** are imperative. Each `Signal` method builds its columns in arrays, with loops that carry invariants. It is proved equal to column-level specification functions, and lemmas state the trading rules those functions encode: entries, exits, which write wins, and the first bar.
- **Pandas primitives** are defined exactly, column by column, in module `Columns`: `rolling` with `min_periods=1`, `shift`, `ffill`, `fillna`, masked `df.loc` assignment and `ewm(adjust=True)` as its recurrence. A missing value (NaN) is `None`.
- **Python integers** are unbounded here too. `int()` on a parameter truncates toward zero.
- **In-memory tables** of the database service are a class. Its fields are insertion-ordered tables (key order plus map). Its methods state the whole new state.
- **Stores** are classes. Each action is one method that states the store's new fields.
- **JavaScript helpers.** Number-to-text and locale formatting are passed in as functions. Array `sort()` with no comparator compares decimal texts, as JavaScript does.

Every `.dfy` file is one module. The helper modules are:

| module | contents |
|---|---|
| `Wrappers` | `Option`/`Result` |
| `Strs` | string helpers |
| `Seqs` | filter, dedup, min/max |
| `Sorting` | a stable insertion sort over a total preorder |
| `Js` | JavaScript values and truthiness |
| `Metrics` | the result record read by the panels |

## Model

| member | source | states |
|---|---|---|
| AtrBreakout.ParamsFallBack | crypto_cta/factors/atr_breakout.py:20-22 | missing `para` entries give period 20, entry multiplier 2.0 and exit multiplier 1.5; a given period is `int()` of the first entry |
| AtrBreakout.TrueRangeIsMax | crypto_cta/factors/atr_breakout.py:26-29 | the true range is at least each of high−low, \|high−prev close\| and \|low−prev close\|, equals one of them, and is high−low at bar 0 where the shifted close is missing |
| AtrBreakout.TrueRanges | crypto_cta/factors/atr_breakout.py:29 | one true range per bar |
| AtrBreakout.TrueRangeColumn | crypto_cta/factors/atr_breakout.py:26-29 | the column built bar by bar equals the true-range specification |
| AtrBreakout.Signal | crypto_cta/factors/atr_breakout.py:20-76 | a window below 1 is an error (pandas raises); otherwise every column the factor adds equals the reference frame, including pos = signal·proportion |
| AtrBreakout.SignalInRange | crypto_cta/factors/atr_breakout.py:68-73 | the filled signal has one value per bar, each −1, 0 or 1 |
| AtrBreakout.FlatAtFirstBar | crypto_cta/factors/atr_breakout.py:49-64 | no leg is written at bar 0, so the first signal is 0 |
| AtrBreakout.ExitWins | crypto_cta/factors/atr_breakout.py:50-55 | on a bar meeting the long stop rule the long leg is 0, whatever the entry rule wrote before |
| AtrBreakout.IndicatorsAreTrailing | crypto_cta/factors/atr_breakout.py:32-36 | ATR, highest and lowest at bar i are the same for any two frames agreeing on bars 0..i |
| AtrBreakout.BandsAreTrailing | crypto_cta/factors/atr_breakout.py:39-44 | the four bands at bar i depend on bars 0..i only |
| AtrBreakout.NoLookAhead | crypto_cta/factors/atr_breakout.py:48-73 | the signal at bar i depends on bars 0..i only |
| AtrBreakout.AtrNonNegative | crypto_cta/factors/atr_breakout.py:26-32 | on candles with low ≤ close ≤ high the ATR is never negative |
| AtrBreakout.NoEntryAt | crypto_cta/factors/atr_breakout.py:35-58 | on such candles with a non-negative entry multiplier the close never exceeds the upper breakout or falls below the lower one, so no entry fires |
| AtrBreakout.NeverEnters | crypto_cta/factors/atr_breakout.py:35-74 | hence the signal column and the pos column are 0 on every bar, whatever the proportion: as written, the strategy never enters on well-formed candles |
| MeanReversion.ParamsFallBack | crypto_cta/factors/mean_reversion.py:20-22 | missing entries give period 20, entry threshold 2.0 and exit threshold 0.5 |
| MeanReversion.Deviation | crypto_cta/factors/mean_reversion.py:32 | one deviation per bar |
| MeanReversion.Legs | crypto_cta/factors/mean_reversion.py:44-67 | the masked writes, in source order, leave each leg as entry, then exit, then forced close |
| MeanReversion.Signal | crypto_cta/factors/mean_reversion.py:20-78 | a window below 1 is an error; otherwise the frame equals the reference, with the square root given |
| MeanReversion.MissingWhereWindowIsOneBar | crypto_cta/factors/mean_reversion.py:29-40 | the std, the deviation and the bands are missing exactly at bar 0 or everywhere with period 1 |
| MeanReversion.BandsNest | crypto_cta/factors/mean_reversion.py:35-40 | with 0 ≤ exit ≤ entry thresholds: lower band ≤ lower exit ≤ ma ≤ upper exit ≤ upper band |
| MeanReversion.DeviationSign | crypto_cta/factors/mean_reversion.py:32 | the deviation is positive (negative) exactly when the close is above (below) the mean |
| MeanReversion.ForcedCloseWins | crypto_cta/factors/mean_reversion.py:64-67 | a forced close sets its leg to 0 over any earlier write on that bar |
| MeanReversion.ForcedCloseSide | crypto_cta/factors/mean_reversion.py:65-67 | with a non-negative entry threshold, a forced long close happens only below the mean and a forced short close only above it |
| MeanReversion.SignalInRange | crypto_cta/factors/mean_reversion.py:70-75 | the filled signal is −1, 0 or 1 on every bar |
| MeanReversion.PeriodOneIsFlat | crypto_cta/factors/mean_reversion.py:26-75 | with period 1 every band is missing, no rule fires and the signal is 0 throughout |
| MeanReversion.LegsMissingAtPeriodOne | crypto_cta/factors/mean_reversion.py:43-67 | with period 1 neither leg is written at any bar: no entry, exit or forced close can fire on missing bands |
| MeanReversion.FlatAtFirstBar | crypto_cta/factors/mean_reversion.py:45-60 | nothing is written at bar 0 and the first signal is 0 |
| MeanReversion.IndicatorsAreTrailing | crypto_cta/factors/mean_reversion.py:26-32 | ma, std and deviation at bar i depend on bars 0..i only |
| MeanReversion.BandsAreTrailing | crypto_cta/factors/mean_reversion.py:35-40 | the bands at bar i depend on bars 0..i only |
| MeanReversion.NoLookAhead | crypto_cta/factors/mean_reversion.py:44-75 | the signal at bar i depends on bars 0..i only |
| Kdj.ParamsFallBack | crypto_cta/factors/kdj.py:20-24 | missing entries give 9, 3, 3, 80 and 20 |
| Kdj.FirstInvalidWindow | crypto_cta/factors/kdj.py:28-38 | reports a window below 1 exactly when one of the three windows is invalid |
| Kdj.RangeNonNegative | crypto_cta/factors/kdj.py:28-29 | with high ≥ low the rolling low ≤ low ≤ high ≤ rolling high |
| Kdj.Rsv | crypto_cta/factors/kdj.py:32 | one rsv per bar |
| Kdj.J | crypto_cta/factors/kdj.py:41 | one j per bar, j = 3k − 2d |
| Kdj.RsvColumn | crypto_cta/factors/kdj.py:32 | the column built bar by bar equals the rsv specification |
| Kdj.Signal | crypto_cta/factors/kdj.py:20-75 | an invalid window is an error; otherwise the frame equals the reference |
| Kdj.RsvInRange | crypto_cta/factors/kdj.py:28-32 | on candles with low ≤ close ≤ high, 0 ≤ rsv < 100 |
| Kdj.KdjInRange | crypto_cta/factors/kdj.py:35-41 | k and d (trailing means of rsv and k) lie in [0, 100), and −200 < j < 300 |
| Kdj.SignalInRange | crypto_cta/factors/kdj.py:67-72 | the filled signal is −1, 0 or 1 on every bar |
| Kdj.LevelExits | crypto_cta/factors/kdj.py:51-64 | k above overbought forces the long leg to 0 and k below oversold the short leg, overriding an entry on that bar |
| Kdj.NoEntryAtFirstBar | crypto_cta/factors/kdj.py:45-64 | at bar 0 only the level exits can write |
| Kdj.RsvIsTrailing | crypto_cta/factors/kdj.py:28-32 | rsv up to bar i depends on bars 0..i only |
| Kdj.KdIsTrailing | crypto_cta/factors/kdj.py:35-38 | k and d up to bar i depend on bars 0..i only |
| Kdj.NoLookAhead | crypto_cta/factors/kdj.py:45-72 | the signal at bar i depends on bars 0..i only |
| Macd.ParamsFallBack | crypto_cta/factors/macd.py:20-22 | missing entries give spans 12, 26 and 9 |
| Macd.FirstInvalidSpan | crypto_cta/factors/macd.py:26-33 | reports a span below 1 exactly when one of the three spans is invalid |
| Macd.Decay | crypto_cta/factors/macd.py:26-33 | the decay 1 − 2/(span+1) lies in [0, 1) |
| Macd.EwmDenAtLeastOne | crypto_cta/factors/macd.py:26-33 | the weight total of the adjusted EWM is at least 1 |
| Macd.Ewms | crypto_cta/factors/macd.py:26-27 | one EWM value per bar |
| Macd.EwmColumn | crypto_cta/factors/macd.py:26-33 | the EWM column built by its recurrence equals the weighted-mean specification |
| Macd.StepBounds | crypto_cta/factors/macd.py:26-27 | one recurrence step keeps a weighted sum within the bounds of its values |
| Macd.StepBoundsAt | crypto_cta/factors/macd.py:26-27 | the numerator and denominator one recurrence step produces still weigh values within the bounds |
| Macd.EwmNumBounds | crypto_cta/factors/macd.py:26-27 | the weighted sum lies between lo and hi times the weight total |
| Macd.DivBounds | crypto_cta/factors/macd.py:26-27 | dividing such a sum by its positive weight total stays within [lo, hi] |
| Macd.WeightedMeanBounds | crypto_cta/factors/macd.py:26-27 | the weighted mean of values in [lo, hi] is in [lo, hi] |
| Macd.EwmBounds | crypto_cta/factors/macd.py:26-33 | an EWM lies between the bounds of the values it averages |
| Macd.EwmIsTrailing | crypto_cta/factors/macd.py:26-33 | an EWM at bar i depends on bars 0..i only |
| Macd.Difference | crypto_cta/factors/macd.py:30-36 | element-wise difference of two columns |
| Macd.MacdLine | crypto_cta/factors/macd.py:30 | one macd value per bar |
| Macd.SignalLine | crypto_cta/factors/macd.py:33 | one signal-line value per bar |
| Macd.Signal | crypto_cta/factors/macd.py:20-68 | an invalid span is an error; otherwise the frame equals the reference |
| Macd.SignalFollowsLastCross | crypto_cta/factors/macd.py:40-65 | the filled signal at bar i is +1 if the latest cross up to i was bullish, −1 if bearish, 0 before any |
| Macd.InMarketAfterCross | crypto_cta/factors/macd.py:40-66 | once a cross happened the signal is ±1 at every later bar |
| Macd.CrossSetsSignal | crypto_cta/factors/macd.py:40-57 | a bullish cross gives signal 1 and a bearish one −1 on that bar |
| Macd.ConstantCloseIsFlat | crypto_cta/factors/macd.py:26-66 | a constant close gives macd 0, no cross and signal 0 |
| Macd.SignalInRange | crypto_cta/factors/macd.py:60-65 | the filled signal is −1, 0 or 1 |
| Macd.NoLookAhead | crypto_cta/factors/macd.py:26-65 | the signal at bar i depends on bars 0..i only |
| Rsi.ParamsFallBack | crypto_cta/factors/rsi.py:20-22 | missing entries give 14, 70 and 30 |
| Rsi.Gain | crypto_cta/factors/rsi.py:29 | one gain per bar |
| Rsi.Loss | crypto_cta/factors/rsi.py:30 | one loss per bar |
| Rsi.GainLossSplit | crypto_cta/factors/rsi.py:26-30 | gain, loss ≥ 0, at most one nonzero, gain − loss is the close change, both 0 at bar 0 |
| Rsi.AveragesNonNegative | crypto_cta/factors/rsi.py:33-34 | the average gain and loss are never negative |
| Rsi.Rs | crypto_cta/factors/rsi.py:37 | one rs per bar |
| Rsi.RsNonNegative | crypto_cta/factors/rsi.py:37 | rs ≥ 0 |
| Rsi.RsiLine | crypto_cta/factors/rsi.py:38 | one rsi per bar |
| Rsi.RsiColumns | crypto_cta/factors/rsi.py:37-38 | the columns built bar by bar equal the rs and rsi specifications |
| Rsi.GainLossColumns | crypto_cta/factors/rsi.py:26-30 | the columns built bar by bar equal the gain and loss specifications |
| Rsi.Signal | crypto_cta/factors/rsi.py:20-70 | a window below 1 is an error; otherwise the frame equals the reference |
| Rsi.RsiInRange | crypto_cta/factors/rsi.py:33-38 | 0 ≤ rsi < 100 |
| Rsi.RsiAtFirstBar | crypto_cta/factors/rsi.py:26-38 | at bar 0 both averages and the rsi are 0 |
| Rsi.SignalInRange | crypto_cta/factors/rsi.py:62-67 | the filled signal is −1, 0 or 1 |
| Rsi.EntryHolds | crypto_cta/factors/rsi.py:42-59 | with oversold ≤ 50 an entry is not undone by the exit on the same bar (and likewise short with overbought ≥ 50) |
| Rsi.UnreachableLevels | crypto_cta/factors/rsi.py:42-54 | oversold ≤ 0 makes the long entry impossible and overbought ≥ 100 the short one |
| Rsi.NoLookAhead | crypto_cta/factors/rsi.py:26-67 | the signal at bar i depends on bars 0..i only |
| Columns.MeanWithinExtremes | crypto_cta/factors/mean_reversion.py:26 | a rolling mean lies between the smallest and largest value of its window |
| Columns.MaxOfIsMax | crypto_cta/factors/atr_breakout.py:35 | the window maximum bounds every value and is one of them |
| Columns.MinOfIsMin | crypto_cta/factors/atr_breakout.py:36 | the window minimum bounds every value from below and is one of them |
| Columns.Window | crypto_cta/factors/atr_breakout.py:32 | the window `rolling(window=w, min_periods=1)` uses at bar i ends at bar i and holds between 1 and w bars |
| Columns.RollingMeans | crypto_cta/factors/atr_breakout.py:32 | one rolling mean per bar |
| Columns.RollingMaxes | crypto_cta/factors/atr_breakout.py:35 | one rolling maximum per bar |
| Columns.RollingMins | crypto_cta/factors/atr_breakout.py:36 | one rolling minimum per bar |
| Columns.RollingIsTrailing | crypto_cta/factors/atr_breakout.py:32-36 | rolling values at bar i are fixed by bars 0..i |
| Columns.RollingIncludesCurrent | crypto_cta/factors/atr_breakout.py:35-36 | the rolling maximum is at least, and the minimum at most, the bar's own value |
| Columns.RollingMeanColumn | crypto_cta/factors/atr_breakout.py:32 | the column computed by a running-sum loop equals the rolling-mean specification |
| Columns.RollingMaxColumn | crypto_cta/factors/atr_breakout.py:35 | the loop's column equals the rolling-maximum specification |
| Columns.RollingMinColumn | crypto_cta/factors/atr_breakout.py:36 | the loop's column equals the rolling-minimum specification |
| Columns.CrossAbove | crypto_cta/factors/macd.py:40-42 | x > y now and x ≤ y on the previous bar; false at bar 0, where the shift is NaN |
| Columns.CrossBelow | crypto_cta/factors/macd.py:50-52 | x < y now and x ≥ y on the previous bar; false at bar 0 |
| Columns.CrossingsExclusive | crypto_cta/factors/macd.py:40-52 | no bar is both an upward and a downward cross, and bar 0 is neither |
| Columns.CrossingIsLocal | crypto_cta/factors/macd.py:40-52 | a cross at bar i depends on bars i−1 and i only |
| Columns.CrossingsAreTrailing | crypto_cta/factors/macd.py:40-52 | crossings up to bar i depend on bars 0..i only |
| Columns.Band | crypto_cta/factors/atr_breakout.py:39-44 | the column centre + width·m |
| Columns.BandIsLocal | crypto_cta/factors/atr_breakout.py:39-44 | a band at bar i depends on that bar's centre and width |
| Columns.BandSide | crypto_cta/factors/atr_breakout.py:39-44 | with a non-negative width, m ≥ 0 puts the band on or above the centre and m ≤ 0 on or below it |
| Columns.Above | crypto_cta/factors/kdj.py:52 | `x > c` element-wise |
| Columns.Under | crypto_cta/factors/kdj.py:63 | `x < c` element-wise |
| Columns.And | crypto_cta/factors/kdj.py:45-48 | `a & b` element-wise |
| Columns.Or | crypto_cta/factors/kdj.py:51-53 | `a \| b` element-wise |
| Columns.Constant | crypto_cta/factors/rsi.py:43 | a scalar broadcast to every bar |
| Columns.SampleVarianceNonNegative | crypto_cta/factors/mean_reversion.py:29 | the sample variance (ddof 1) is never negative |
| Columns.RollingStds | crypto_cta/factors/mean_reversion.py:29 | one rolling std cell per bar |
| Columns.RollingStdShape | crypto_cta/factors/mean_reversion.py:29 | the rolling std is NaN exactly where the window holds one bar (bar 0, or period 1) |
| Columns.RollingStdsNonNegative | crypto_cta/factors/mean_reversion.py:29 | every present rolling std is ≥ 0 |
| Columns.SumSquaresOf | crypto_cta/factors/mean_reversion.py:29 | the loop's sum equals Σ (x − m)² |
| Columns.RollingStdColumn | crypto_cta/factors/mean_reversion.py:29 | the loop's column equals the rolling-std specification |
| Columns.RollingStdIsTrailing | crypto_cta/factors/mean_reversion.py:29 | the rolling std at bar i depends on bars 0..i only |
| Columns.OptBand | crypto_cta/factors/mean_reversion.py:35-40 | centre + std·m, NaN where the std is NaN |
| Columns.OptBandSide | crypto_cta/factors/mean_reversion.py:35-40 | a present band lies on the side of the mean that the sign of m gives |
| Columns.OptBandMonotone | crypto_cta/factors/mean_reversion.py:35-40 | a larger multiplier gives a band at least as high |
| Columns.OptBandIsLocal | crypto_cta/factors/mean_reversion.py:35-40 | a band at bar i depends on that bar only |
| Columns.OptCrossAbove | crypto_cta/factors/mean_reversion.py:49-51 | a cross above a column that may be NaN; a comparison with NaN is false |
| Columns.OptCrossBelow | crypto_cta/factors/mean_reversion.py:44-46 | a cross below such a column |
| Columns.OptCrossingsAreTrailing | crypto_cta/factors/mean_reversion.py:44-61 | these crossings up to bar i depend on bars 0..i only |
| Columns.Exceeds | crypto_cta/factors/mean_reversion.py:65 | `x > c` where a NaN cell compares false |
| Columns.FallsBelow | crypto_cta/factors/mean_reversion.py:66 | `x < c` where a NaN cell compares false |
| Columns.Leg | crypto_cta/factors/atr_breakout.py:48-55 | after the entry write and then the exit write, a leg is 0 where the exit holds, v where only the entry holds and missing elsewhere |
| Columns.LegSignalInRange | crypto_cta/factors/atr_breakout.py:48-73 | legs written this way give a filled signal in {−1, 0, 1} |
| Columns.NoEntryIsFlat | crypto_cta/factors/atr_breakout.py:48-73 | without any entry the filled signal is 0 everywhere |
| Columns.FilledSignalIsTrailing | crypto_cta/factors/atr_breakout.py:68-73 | the filled signal at bar i depends on the legs up to bar i |
| Columns.LegIsTrailing | crypto_cta/factors/atr_breakout.py:48-65 | a leg up to bar i depends on its masks up to bar i |
| Columns.ForceFlat | crypto_cta/factors/mean_reversion.py:65-67 | a further write of 0 under a mask overrides the leg there |
| Columns.ForcedLegSignalInRange | crypto_cta/factors/mean_reversion.py:44-75 | with forced closes the filled signal still stays in {−1, 0, 1} |
| Columns.ForceFlatIsTrailing | crypto_cta/factors/mean_reversion.py:65-67 | a forced-close leg up to bar i depends on bars 0..i only |
| Columns.LocAssign | crypto_cta/factors/atr_breakout.py:49-50 | `df.loc[mask, col] = v` in place: masked rows take v, the rest keep their value |
| Columns.LegColumn | crypto_cta/factors/atr_breakout.py:48-55 | a fresh column after the entry write and then the exit write equals the leg of those two masks |
| Columns.MergeCell | crypto_cta/factors/atr_breakout.py:68 | `sum(axis=1, min_count=1)`: missing iff both cells are, else the sum of the present ones |
| Columns.MergeInRange | crypto_cta/factors/atr_breakout.py:68 | merging a long cell (1, 0, missing) with a short cell (−1, 0, missing) stays in {−1, 0, 1} |
| Columns.Merged | crypto_cta/factors/atr_breakout.py:68 | the merged column, cell by cell |
| Columns.LastKnownSource | crypto_cta/factors/atr_breakout.py:72-73 | the filled value at bar i is the latest present cell up to i, or 0 if none |
| Columns.LastKnownValues | crypto_cta/factors/atr_breakout.py:72-73 | each filled value is a present cell or 0 |
| Columns.LastKnownZero | crypto_cta/factors/atr_breakout.py:72-73 | when every present cell is 0 every filled value is 0 |
| Columns.LastKnownIsTrailing | crypto_cta/factors/atr_breakout.py:72-73 | the filled value at bar i depends on cells 0..i only |
| Columns.FillForward | crypto_cta/factors/atr_breakout.py:72-73 | `fillna(method='ffill')` then `fillna(0)` in place: every cell is present and holds the latest known value |
| Columns.NothingKnown | crypto_cta/factors/atr_breakout.py:72-73 | with no present cell up to i the filled value is 0 |
| Columns.Scaled | crypto_cta/factors/atr_breakout.py:74 | `signal * proportion` element-wise |
| Columns.Trunc | crypto_cta/factors/atr_breakout.py:20 | Python `int()` on a float truncates toward zero: the floor for x ≥ 0 and the ceiling for x < 0 |
| Columns.FilledSignal | crypto_cta/factors/atr_breakout.py:68-73 | the signal column: the latest merged value up to each bar, 0 before any |
| Columns.FilledSignalInRange | crypto_cta/factors/atr_breakout.py:68-73 | with legs in range every filled value is −1, 0 or 1 |
| Columns.FinishSignal | crypto_cta/factors/atr_breakout.py:68-74 | merging into a fresh column, forward-filling it and filling with 0 gives the signal FilledSignal of the legs, and pos is that signal times the proportion |
| Heatmap.YearColumn | frontend/src/components/Charts/MonthlyReturnsHeatmap.tsx:51 | `data.map(d => d.year)`, one year per entry |
| Heatmap.TextLeIsPreorder | frontend/src/components/Charts/MonthlyReturnsHeatmap.tsx:51 | comparing years as decimal text, the way a default `sort()` does, is a total preorder |
| Heatmap.NumLeIsPreorder | frontend/src/components/Charts/MonthlyReturnsHeatmap.tsx:51 | numeric order on years is a total preorder |
| Heatmap.SortedYears | frontend/src/components/Charts/MonthlyReturnsHeatmap.tsx:51 | sorting the de-duplicated years under any total preorder gives each year of the data exactly once |
| Heatmap.YearsAsWritten | frontend/src/components/Charts/MonthlyReturnsHeatmap.tsx:51 | the row list as written: distinct, in text order, and exactly the years of the data |
| Heatmap.Years | frontend/src/components/Charts/MonthlyReturnsHeatmap.tsx:51 | the intended row list: strictly ascending, exactly the years of the data |
| Heatmap.TextOrderOf999And2024 | frontend/src/components/Charts/MonthlyReturnsHeatmap.tsx:51 | the text "999" sorts after "2024" |
| Heatmap.TextSortMisordersYears | frontend/src/components/Charts/MonthlyReturnsHeatmap.tsx:51 | data for the years 999 and 2024 gets the rows [2024, 999] |
| Heatmap.FourDigitYearsAgree | frontend/src/components/Charts/MonthlyReturnsHeatmap.tsx:51 | when every year has four digits the rows as written are exactly the ascending years |
| Heatmap.FindMonth | frontend/src/components/Charts/MonthlyReturnsHeatmap.tsx:66 | `find` is None iff no entry has that year and month; otherwise it is the first such entry |
| Heatmap.CellIsFirstMatch | frontend/src/components/Charts/MonthlyReturnsHeatmap.tsx:66-69 | a cell shows 100 × the return of the first entry for its year and month, later duplicates ignored |
| Heatmap.EmptyCell | frontend/src/components/Charts/MonthlyReturnsHeatmap.tsx:67-73 | a missing month, or a return of exactly 0, gives z 0, an empty label and the "无数据" hover text |
| Heatmap.BuildGrid | frontend/src/components/Charts/MonthlyReturnsHeatmap.tsx:56-80 | one row of 12 cells per year; the cell for month m is the value, label and hover text of that year and month |
| Heatmap.YearlyReturns | frontend/src/components/Charts/MonthlyReturnsHeatmap.tsx:123-127 | one entry per year: the year and (Π(1 + return) − 1)·100 over that year's entries |
| Heatmap.GrowthConcat | frontend/src/components/Charts/MonthlyReturnsHeatmap.tsx:125 | the compounded growth of two runs of months is the product of their growths |
| Heatmap.GrowthPositive | frontend/src/components/Charts/MonthlyReturnsHeatmap.tsx:125 | if no month lost everything (each return > −1) the growth is positive |
| Heatmap.YearlyAboveTotalLoss | frontend/src/components/Charts/MonthlyReturnsHeatmap.tsx:123-127 | hence the yearly return is above −100% |
| Heatmap.RepeatedMonthCountsTwice | frontend/src/components/Charts/MonthlyReturnsHeatmap.tsx:66-125 | two entries for the same month: the cell shows only the first (10.0) while the yearly figure compounds both (21.0) |
| Heatmap.CellValue | frontend/src/components/Charts/MonthlyReturnsHeatmap.tsx:66-69 | `returnValue \|\| 0`; Heatmap.CellIsFirstMatch and Heatmap.EmptyCell state what a cell shows |
| Heatmap.Growth | frontend/src/components/Charts/MonthlyReturnsHeatmap.tsx:125 | the compounded product Π(1 + return); Heatmap.GrowthConcat and Heatmap.GrowthPositive state its properties |
| Heatmap.YearlyReturn | frontend/src/components/Charts/MonthlyReturnsHeatmap.tsx:123-127 | (growth − 1)·100 over the year's entries; Heatmap.YearlyAboveTotalLoss states its bound |
| TradeChart.TimeLeIsPreorder | frontend/src/components/Charts/TradeAnalysisChart.tsx:53-55 | ordering trades by time is a total preorder |
| TradeChart.SortedTrades | frontend/src/components/Charts/TradeAnalysisChart.tsx:53-55 | the sorted copy is a permutation of the trades, in non-decreasing time |
| TradeChart.Bars | frontend/src/components/Charts/TradeAnalysisChart.tsx:63-82 | bar i is numbered i+1 and has the pnl of the i-th trade on that side, in time order |
| TradeChart.BarsCoverTrades | frontend/src/components/Charts/TradeAnalysisChart.tsx:63-64 | winning bars + losing bars + break-even trades = all trades; winning bars are positive and losing bars negative |
| TradeChart.DateColumn | frontend/src/components/Charts/TradeAnalysisChart.tsx:109 | the day of each trade, the text before the first 'T' |
| TradeChart.DatesOfTrades | frontend/src/components/Charts/TradeAnalysisChart.tsx:108-118 | the day keys are distinct, and a day is a key iff some trade falls on it |
| TradeChart.Summaries | frontend/src/components/Charts/TradeAnalysisChart.tsx:110-114 | one summary per listed day: its trade count and traded value |
| TradeChart.DailyEntries | frontend/src/components/Charts/TradeAnalysisChart.tsx:108-118 | the daily entries have distinct days in first-seen order, each with that day's trade count and Σ quantity·price |
| TradeChart.VolumeOfSnoc | frontend/src/components/Charts/TradeAnalysisChart.tsx:113 | one more trade adds its quantity·price to the traded value |
| TradeChart.DaySummarySnoc | frontend/src/components/Charts/TradeAnalysisChart.tsx:110-114 | one more trade updates its own day's summary only |
| TradeChart.DatesSnoc | frontend/src/components/Charts/TradeAnalysisChart.tsx:110-111 | a trade on a new day appends that day; on a known day the keys stay the same |
| TradeChart.NoneOnDate | frontend/src/components/Charts/TradeAnalysisChart.tsx:110-114 | a day with no trade has count 0 and volume 0 |
| TradeChart.DailyStepExisting | frontend/src/components/Charts/TradeAnalysisChart.tsx:113-114 | a trade on a listed day adds its value and 1 to that day's entry and changes nothing else |
| TradeChart.DailyStepNew | frontend/src/components/Charts/TradeAnalysisChart.tsx:110-114 | a trade on a new day appends the entry (day, value, 1) |
| TradeChart.BuildDailyVolume | frontend/src/components/Charts/TradeAnalysisChart.tsx:108-118 | the `reduce` loop, with `acc[date]` found by search, produces exactly the daily entries |
| TradeChart.TotalsUpdate | frontend/src/components/Charts/TradeAnalysisChart.tsx:113-114 | replacing one day's entry changes the totals by the difference |
| TradeChart.TotalsSnoc | frontend/src/components/Charts/TradeAnalysisChart.tsx:111 | appending a day adds its count and volume to the totals |
| TradeChart.TotalsStep | frontend/src/components/Charts/TradeAnalysisChart.tsx:108-116 | one more trade raises the daily counts by 1 and the volumes by its value |
| TradeChart.DailyTotals | frontend/src/components/Charts/TradeAnalysisChart.tsx:108-118 | the daily counts add up to the number of trades and the volumes to the total traded value |
| TradeChart.DailyVolumes | frontend/src/components/Charts/TradeAnalysisChart.tsx:108-118 | one entry per trading day in first-seen order; TradeChart.DailyEntries and TradeChart.DailyTotals state its properties and TradeChart.BuildDailyVolume computes it |
| TradeChart.TotalPnlConcat | frontend/src/components/Charts/TradeAnalysisChart.tsx:149-151 | the pnl total of two runs is the sum of their totals |
| TradeChart.InsertKeepsTotal | frontend/src/components/Charts/TradeAnalysisChart.tsx:53-55 | inserting a trade into a sorted run adds its pnl to the total |
| TradeChart.SortKeepsTotal | frontend/src/components/Charts/TradeAnalysisChart.tsx:53-55 | sorting does not change the total pnl |
| TradeChart.CumulativeSeries | frontend/src/components/Charts/TradeAnalysisChart.tsx:149-157 | point i copies trade i's timestamp and pnl, and its cumulative value is the pnl total of trades 0..i |
| TradeChart.CurveEndsAtTotal | frontend/src/components/Charts/TradeAnalysisChart.tsx:149-157 | the last point of the curve is the pnl total of all the trades |
| TradeChart.MarkerColors | frontend/src/components/Charts/TradeAnalysisChart.tsx:171 | a marker is green iff its trade's pnl is positive and red iff it is ≤ 0 |
| TradeChart.Chart | frontend/src/components/Charts/TradeAnalysisChart.tsx:33-157 | the placeholder shows iff loading, the timer still runs, or there are no trades; otherwise the plot for the chosen type is built from the time-sorted trades |
| Symbols.StableSymbols | bn_data/core/symbols.py:69-71 | one stablecoin pair per listed stable asset, the asset followed by "USDT" |
| Symbols.SpotSymbolsFilter | bn_data/core/symbols.py:67-89 | the loop gives the symbols the rule keeps and those it drops, each list in input order |
| Symbols.SpotStep | bn_data/core/symbols.py:67-89 | the classification of one symbol by the if-chain extends exactly one of the two filtered lists |
| Symbols.SpotFilterPartitions | bn_data/core/symbols.py:67-89 | every symbol lands in exactly one of the two lists, and each list keeps the input order |
| Symbols.SpotFilterClassifies | bn_data/core/symbols.py:75-87 | JUPUSDT is kept; otherwise a leveraged suffix (UP/DOWN/BULL/BEAR + USDT) or a stablecoin pair is dropped, and every other symbol is kept |
| Symbols.JupIsSpecial | bn_data/core/symbols.py:73-79 | JUPUSDT ends in UPUSDT yet is kept only because it is on the special list |
| Symbols.UsdtSymbols | bn_data/core/symbols.py:61-65 | the set holds exactly the listed symbols that end in "USDT" |
| Symbols.SymbolFromListing | bn_data/core/symbols.py:13-15 | for a listing prefix `dir/…/SYMBOL/`, the second-to-last "/" piece is SYMBOL |
| Common.DownloadPrefix | bn_data/core/common.py:41-45 | the download prefix always ends in "/" |
| Common.RootSplits | bn_data/core/common.py:42-44 | the root is "data/futures/um" for "swap" and "data/spot" otherwise, split into its pieces |
| Common.UpperKeepsSlashFree | bn_data/core/common.py:45 | upper-casing a symbol adds no "/" |
| Common.DownloadPrefixPieces | bn_data/core/common.py:41-45 | splitting the prefix on "/" gives the root pieces, then period, data type, upper-case symbol, interval and an empty last piece |
| Common.DownloadPrefixNamesSymbol | bn_data/core/common.py:41-45 | the prefix cut after its symbol piece is a listing prefix that names the upper-case symbol |
| Common.LocalPathWithSymbol | bn_data/core/common.py:51-53 | a non-empty symbol is joined, upper-cased, under the path without one; an empty symbol adds nothing |
| Common.PlainJoin | bn_data/core/common.py:49 | `os.path.join` of a non-empty path not ending in "/" and a relative piece inserts exactly one "/" |
| Common.Underscored | bn_data/core/common.py:48-49 | a piece built with "_" is neither absolute nor ends in "/" when its ends are not |
| Common.JoinedNotSlash | bn_data/core/common.py:49-52 | a join ending in a non-empty piece without a final "/" does not end in "/" |
| Common.LocalPathLayout | bn_data/core/common.py:47-49 | for a relative root, the path is root/type_interval/period_datatype, with the interval defaulting to "5m" |
| Common.LocalPathEnd | bn_data/core/common.py:47-49 | the path without a symbol is non-empty and does not end in "/", since it ends in the market data type |
| Common.LocalPathSymbolLayout | bn_data/core/common.py:51-53 | with a symbol this path is followed by "/" and the upper-case symbol |
| LocalData.ListedBase | backend/app/services/local_data_manager.py:168-172 | the first listed base the symbol starts with, when it also ends in USDT; None iff no later base matches or the symbol does not end in USDT |
| LocalData.EthFiFindsEth | backend/app/services/local_data_manager.py:170-172 | ETHFIUSDT matches the listed base ETH |
| LocalData.EthFindsEth | backend/app/services/local_data_manager.py:170-172 | ETHUSDT matches the listed base ETH |
| LocalData.ConvertAsWrittenConflates | backend/app/services/local_data_manager.py:164-179 | as written, ETHFIUSDT and ETHUSDT both convert to ETH-USDT, and removing the hyphen does not give ETHFIUSDT back |
| LocalData.RemoveShorter | backend/app/services/local_data_manager.py:116 | `replace("-", "")` never lengthens a name |
| LocalData.RemoveAbsent | backend/app/services/local_data_manager.py:116 | removing a character that does not occur changes nothing |
| LocalData.ConvertToLocalFormat | backend/app/services/local_data_manager.py:164-179 | a hyphenated symbol, or one not ending in USDT, is left alone; otherwise the quote is split off as BASE-USDT |
| LocalData.ConvertRoundTrip | backend/app/services/local_data_manager.py:116-179 | on hyphen-free symbols, removing the hyphen undoes the conversion |
| LocalData.ConvertInjective | backend/app/services/local_data_manager.py:164-179 | two hyphen-free symbols with the same local key are the same symbol |
| LocalData.ConvertVersionsAgree | backend/app/services/local_data_manager.py:168-177 | the code as written differs from the corrected conversion only on a hyphen-free symbol whose listed base prefix is not all of its base |
| LocalData.RemoveConcat | backend/app/services/local_data_manager.py:116 | removing a character distributes over concatenation |
| LocalData.TimeLeIsPreorder | backend/app/services/local_data_manager.py:201 | ordering rows by candle time is a total preorder |
| LocalData.WithSymbols | backend/app/services/local_data_manager.py:204-205 | each row gets the symbol cell, nothing else changes |
| LocalData.SortedComplete | backend/app/services/local_data_manager.py:194-201 | the rows with complete OHLC, as a permutation sorted by time |
| LocalData.Standardize | backend/app/services/local_data_manager.py:181-209 | `_standardize_dataframe`: the empty frame without the required columns, otherwise the complete rows by time with a symbol cell; its properties are stated by LocalData.StandardizeShape |
| LocalData.StandardizeShape | backend/app/services/local_data_manager.py:181-209 | with a required column missing the result is the empty frame; otherwise the rows are the complete rows sorted by time, with a symbol column filled with the given symbol when the frame had none |
| LocalData.FilterByDateRangeKeeps | backend/app/services/local_data_manager.py:211-227 | the filter keeps exactly the rows in [start, end + 1 day), each bound applied only when given, in order |
| LocalData.FilterByDateRange | backend/app/services/local_data_manager.py:211-227 | `_filter_by_date_range`: the start bound, then the end bound, each only when given; LocalData.FilterByDateRangeKeeps states what it keeps |
| LocalData.DataUnderKey | backend/app/services/local_data_manager.py:141-155 | the entry under a local key, standardised and date-filtered when a bound is given; None when the market lacks the key |
| LocalData.GetSymbolData | backend/app/services/local_data_manager.py:121-157 | `get_symbol_data` as written: the lookup goes through `_convert_to_local_format` (LocalData.ConvertAsWritten) |
| LocalData.GetSymbolDataFound | backend/app/services/local_data_manager.py:121-157 | the data is found iff the as-written local key is in the market's dictionary, and without bounds it is that entry standardised for the requested symbol |
| LocalData.CorrectedSymbolData | backend/app/services/local_data_manager.py:121-157 | the same lookup under the corrected conversion LocalData.ConvertToLocalFormat |
| LocalData.LookupsAgree | backend/app/services/local_data_manager.py:138-146 | on every symbol where the two conversions agree, the two lookups return the same thing |
| LocalData.EthFiCorrected | backend/app/services/local_data_manager.py:174-177 | the corrected conversion sends ETHFIUSDT to ETHFI-USDT |
| LocalData.LookupConflates | backend/app/services/local_data_manager.py:138-151 | a store holding only ETH-USDT spot data answers a request for ETHFIUSDT with that data, standardised under the name ETHFIUSDT; the corrected lookup finds nothing |
| LocalData.PreferSpot | backend/app/services/local_data_manager.py:298-305 | the market is spot iff the spot lookup (with the as-written key) has rows; otherwise the swap lookup is used |
| LocalData.LexLeIsPreorder | backend/app/services/local_data_manager.py:119 | string order, which `sorted` uses, is a total preorder |
| LocalData.StandardNames | backend/app/services/local_data_manager.py:114-117 | the loop gives the hyphen-free name of every collected key |
| LocalData.SortedNames | backend/app/services/local_data_manager.py:119 | `sorted(list(set(...)))`: each name once, in ascending string order |
| LocalData.AvailableSymbols | backend/app/services/local_data_manager.py:93-119 | the names of the requested market's keys (both markets for "all"), hyphen removed, sorted and without repeats |
| LocalData.AvailableSymbolsSource | backend/app/services/local_data_manager.py:105-117 | every listed name is hyphen-free and comes from a key of a requested market; an unknown market type lists nothing |
| LocalData.QualityMapSnoc | backend/app/services/local_data_manager.py:315-326 | one more symbol adds its quality entry, if any, and keeps the others |
| LocalData.QualityMapAt | backend/app/services/local_data_manager.py:315-326 | the quality entries of the first i + 1 symbols are those of the first i plus symbol i's entry, if it has one |
| LocalData.Assess | backend/app/services/local_data_manager.py:298-326 | one symbol's quality entry, None when neither market has rows; its properties are stated by LocalData.AssessOne and LocalData.AssessRates |
| LocalData.AssessOne | backend/app/services/local_data_manager.py:298-326 | one symbol's step: spot first, then swap; no entry without rows, otherwise the market, the count of rows with a close, and good / acceptable / insufficient |
| LocalData.AssessRates | backend/app/services/local_data_manager.py:298-326 | an entry is good iff it has at least 1.5 × min (and min) valid rows, insufficient iff fewer than min, and its market is spot iff spot has rows |
| LocalData.QualityMapEntry | backend/app/services/local_data_manager.py:307-326 | a symbol has a quality entry iff it is listed and has rows in either market, and the entry is its assessment |
| LocalData.Classify | backend/app/services/local_data_manager.py:296-326 | the loop fills the available and unavailable lists in input order and the quality map |
| LocalData.CheckDataAvailability | backend/app/services/local_data_manager.py:272-337 | the report holds the symbol count, both lists, the quality map and the two recommendations under their conditions |
| LocalData.AvailabilityClassifies | backend/app/services/local_data_manager.py:296-326 | each symbol is in exactly one list; an available symbol has ≥ min records and is good iff ≥ 1.5 × min; the market is spot iff spot has rows; a symbol without an entry is unavailable |
| LocalData.AvailabilityOf | backend/app/services/local_data_manager.py:272-337 | what `check_data_availability` reports; LocalData.AvailabilityClassifies states its properties and LocalData.CheckDataAvailability computes it |
| LocalData.DayFloor | backend/app/services/local_data_manager.py:260-261 | writing a time as `%Y-%m-%d` and reading it back gives the start of its day |
| LocalData.TimeBounds | backend/app/services/local_data_manager.py:260-261 | the earliest and latest candle times bound every row |
| LocalData.StoredRowsComplete | backend/app/services/local_data_manager.py:194-252 | a standardised frame has a close on every row, so `dropna(subset=['close'])` keeps them all |
| LocalData.DataRange | backend/app/services/local_data_manager.py:229-270 | `get_data_info`'s availability and first and last day with a close; LocalData.TimeBounds and LocalData.DayFloor state what those days are |
| LocalData.SymbolRange | backend/app/services/local_data_manager.py:357-361 | the day range from spot data when spot has one, else from swap |
| LocalData.Ranges | backend/app/services/local_data_manager.py:357-366 | the collected day ranges are empty iff no symbol has data |
| LocalData.RangesAt | backend/app/services/local_data_manager.py:357-364 | the ranges of the first i + 1 symbols are those of the first i plus symbol i's day range, if it has data |
| LocalData.CommonRangeBounds | backend/app/services/local_data_manager.py:375-379 | the common start is the latest start and the common end the earliest end of the ranges |
| LocalData.AdjustedIsClamp | backend/app/services/local_data_manager.py:386-392 | the suggestion is either a non-empty range inside both the common and the requested range, or the common range when their intersection is empty |
| LocalData.CollectRanges | backend/app/services/local_data_manager.py:357-364 | the loop collects the day range of each symbol that has data, spot first |
| LocalData.PassingSymbols | backend/app/services/local_data_manager.py:395-410 | the loop keeps, in order, the symbols with at least min records in the adjusted range |
| LocalData.CheckPasses | backend/app/services/local_data_manager.py:397-410 | one symbol passes iff the spot data over the adjusted range (swap when spot has none) holds at least min records |
| LocalData.GetIntelligentTimeRange | backend/app/services/local_data_manager.py:339-426 | the method returns the report of the time-range specification |
| LocalData.ShareInUnit | backend/app/services/local_data_manager.py:425 | a share n/m with n ≤ m lies in [0, 1] |
| LocalData.RestFails | backend/app/services/local_data_manager.py:424 | `[s for s in symbols if s not in final]` is exactly the symbols that fail the test |
| LocalData.IntelligentRangeReport | backend/app/services/local_data_manager.py:366-426 | no data for any symbol gives the failure report; otherwise the two lists split the symbols, success iff one passes, and the coverage is in [0, 1] |
| LocalData.IntelligentRange | backend/app/services/local_data_manager.py:339-426 | what `get_intelligent_time_range` reports; LocalData.IntelligentRangeReport states its properties and LocalData.GetIntelligentTimeRange computes it |
| DataAdapter.UsdtSymbols | backend/app/services/data_adapter.py:22-40 | a failed listing gives []; otherwise exactly the listed names ending in USDT, in listing order |
| DataAdapter.UsdtSymbolsOfListing | backend/app/services/data_adapter.py:31-33 | on the store's sorted, duplicate-free listing the USDT pairs stay sorted and duplicate-free |
| DataAdapter.SpotSymbolsFilter | backend/app/services/data_adapter.py:42-62 | a failed spot listing gives back the request unchanged; otherwise exactly the requested symbols the spot listing has, in request order |
| DataAdapter.SetColumn | backend/app/services/data_adapter.py:139 | `df[name] = cells` adds the column and sets row i's cell to cells[i], nothing else |
| DataAdapter.IfAbsent | backend/app/services/data_adapter.py:138-154 | a column the frame has keeps its cells, a missing one takes the given cells; other cells, times and closes are unchanged |
| DataAdapter.Constant | backend/app/services/data_adapter.py:142-151 | a scalar assigned to a column fills every row |
| DataAdapter.ColumnCells | backend/app/services/data_adapter.py:148 | the cells of a named column, one per row |
| DataAdapter.QuoteVolumeCells | backend/app/services/data_adapter.py:139 | volume × close per row |
| DataAdapter.Halved | backend/app/services/data_adapter.py:145-148 | a column times 0.5 |
| DataAdapter.VolumeCells | backend/app/services/data_adapter.py:145 | the volume cells, one per row |
| DataAdapter.PctChange | backend/app/services/data_adapter.py:154 | `pct_change().fillna(0)`, one cell per row |
| DataAdapter.PrepareShape | backend/app/services/data_adapter.py:103-159 | with the required columns: the complete rows sorted by time, each with a close and the given symbol, plus every engine column |
| DataAdapter.PrepareForBacktest | backend/app/services/data_adapter.py:103-159 | `_prepare_for_backtest`; its properties are stated by DataAdapter.PrepareShape and the lemmas after it |
| DataAdapter.EngineColumnsKeepRows | backend/app/services/data_adapter.py:138-154 | adding the engine columns keeps row count, time, close and volume |
| DataAdapter.EngineColumnsKeep | backend/app/services/data_adapter.py:141-154 | the later stages leave the quote-volume cells alone |
| DataAdapter.PrepareQuoteVolumes | backend/app/services/data_adapter.py:138-148 | where absent, quote volume is volume × close and taker-buy quote volume half of the quote volume; present columns keep their cells |
| DataAdapter.PrepareConstantColumns | backend/app/services/data_adapter.py:141-151 | where absent, taker-buy base volume is half the volume and trade count and offset are 0 |
| DataAdapter.PrepareKlinePct | backend/app/services/data_adapter.py:153-154 | where absent, kline_pct is 0 on the first row and close/previous close − 1 when the previous close is non-zero |
| DataAdapter.KlinePctIsPctChange | backend/app/services/data_adapter.py:153-154 | the kline_pct column is the percent change of the frame it is added to |
| DataAdapter.PctChangeAt | backend/app/services/data_adapter.py:154 | percent change is 0 at row 0 and the relative change of the close later |
| DataAdapter.PrefixKeepsClose | backend/app/services/data_adapter.py:138-151 | the stages before kline_pct keep every close |
| DataAdapter.BacktestDataSource | backend/app/services/data_adapter.py:64-101 | through the as-written lookup, spot rows are prepared when present, else swap rows, else the result is None |
| DataAdapter.SymbolDataForBacktest | backend/app/services/data_adapter.py:64-101 | `get_symbol_data_for_backtest`: spot, else swap, else None, then prepared; DataAdapter.BacktestDataSource states the three cases |
| DataAdapter.ValidateSymbolFormat | backend/app/services/data_adapter.py:239-256 | the standard name has no hyphen and is no longer than the input; no input is rejected |
| DataAdapter.RemoveHyphenShorter | backend/app/services/data_adapter.py:250 | removing hyphens never lengthens a name |
| DataAdapter.UpperKeepsHyphenFree | backend/app/services/data_adapter.py:250 | upper-casing adds no hyphen |
| DataAdapter.UpperIdempotent | backend/app/services/data_adapter.py:250 | upper-casing twice is upper-casing once |
| DataAdapter.ValidateIdempotent | backend/app/services/data_adapter.py:250 | validating twice is validating once, and validating a local key gives back the upper-case symbol |
| DatabaseService.ToDict | backend/app/models/strategy.py:40-47 | `to_dict` has exactly the model's columns, with a falsy list column given as [] and a falsy dict column as {} |
| DatabaseService.Construct | backend/app/services/database_service.py:178 | `Model(**data)` succeeds iff every keyword is a column, and then carries exactly the given attributes; otherwise it fails with the keyword error |
| DatabaseService.StrategyFromDict | backend/app/models/strategy.py:54-62 | `from_dict` takes the six fields, keeps the request's id, and defaults is_active to True |
| DatabaseService.Put | backend/app/services/database_service.py:80 | `d[k] = v` keeps the old key order and contains k |
| DatabaseService.Remove | backend/app/services/database_service.py:118 | `del d[k]` keeps the order of the other keys and removes k |
| DatabaseService.PutKeepsTable | backend/app/services/database_service.py:80 | after a store the key order still lists exactly the keys of the map, each once |
| DatabaseService.RemoveKeepsTable | backend/app/services/database_service.py:118 | the same after a delete |
| DatabaseService.Values | backend/app/services/database_service.py:56 | `list(d.values())` in key insertion order |
| DatabaseService.SliceIndex | backend/app/services/database_service.py:59 | a Python slice bound is clamped into [0, n], negative bounds counting from the end |
| DatabaseService.PySlice | backend/app/services/database_service.py:59 | `s[lo:hi]` is never longer than s, and for 0 ≤ lo ≤ hi it is the clamped sub-range |
| DatabaseService.Dicts | backend/app/services/database_service.py:59 | `to_dict` of each record, in order |
| DatabaseService.StrategiesListing | backend/app/services/database_service.py:55-59 | the intended listing: never longer than the table, nor than limit when the bounds are non-negative |
| DatabaseService.TasksListing | backend/app/services/database_service.py:154-158 | the intended task listing, with the same bounds |
| DatabaseService.PageOf | backend/app/services/database_service.py:59 | a page with non-negative bounds is records [skip, skip + limit) of the chosen list, as dictionaries |
| DatabaseService.StrategiesPage | backend/app/services/database_service.py:55-59 | the listing is that page of the chosen strategies; with active_only, exactly the active ones are chosen |
| DatabaseService.TasksPage | backend/app/services/database_service.py:154-158 | with a status, exactly the tasks having it are chosen and the listing is their page |
| DatabaseService.TasksUnfiltered | backend/app/services/database_service.py:156 | with no status, or an empty one, the listing is the page of all tasks |
| DatabaseService.ListingsAsWrittenFail | backend/app/services/database_service.py:58 | as written, filtering a non-empty table calls `.get` on a model object and raises AttributeError |
| DatabaseService.StrategiesListingAsWritten | backend/app/services/database_service.py:55-59 | `get_strategies` as written: AttributeError once a strategy is stored and active_only is set; DatabaseService.ListingsAsWrittenFail states it |
| DatabaseService.TasksListingAsWritten | backend/app/services/database_service.py:154-158 | `get_backtest_tasks` as written: AttributeError once a task is stored and a status is given |
| DatabaseService.DefaultListingOfOneStrategy | backend/app/services/database_service.py:55-81 | one created strategy: the default listing as written raises, the corrected one returns that strategy |
| DatabaseService.SetAttrs | backend/app/services/database_service.py:99-100 | the `setattr` loop sets exactly the supplied attributes and keeps all others |
| DatabaseService.Service.constructor | backend/app/services/database_service.py:20-27 | the mode comes from the settings; all four tables start empty and there is no status record |
| DatabaseService.Service.GetStrategy | backend/app/services/database_service.py:31-45 | memory mode: the stored strategy as a dict, or None; database mode: the session error |
| DatabaseService.Service.GetStrategies | backend/app/services/database_service.py:47-69 | memory mode: the corrected listing of the strategies in insertion order |
| DatabaseService.Service.CreateStrategy | backend/app/services/database_service.py:71-87 | stores `from_dict(data)` under its id, replacing any strategy with that id, and returns its dict; nothing else changes |
| DatabaseService.Service.UpdateStrategy | backend/app/services/database_service.py:89-108 | an unknown id gives None and no change; otherwise exactly the supplied attributes are set, and the updated dict is returned |
| DatabaseService.Service.DeleteStrategy | backend/app/services/database_service.py:110-126 | True iff the id was stored; only that entry goes |
| DatabaseService.Service.GetBacktestTask | backend/app/services/database_service.py:130-144 | the stored task as a dict, or None |
| DatabaseService.Service.GetBacktestTasks | backend/app/services/database_service.py:146-168 | memory mode: the corrected task listing |
| DatabaseService.Service.CreateBacktestTask | backend/app/services/database_service.py:170-186 | an invalid keyword raises and stores nothing; otherwise the task is stored under its task_id |
| DatabaseService.Service.UpdateBacktestTask | backend/app/services/database_service.py:188-210 | an unknown id gives None and no change; otherwise exactly the supplied attributes are set |
| DatabaseService.Service.CreateBacktestResult | backend/app/services/database_service.py:212-232 | an invalid keyword raises and stores nothing; otherwise the result is appended to the list of its task_id (None when absent), the list being created when missing |
| DatabaseService.Service.GetBacktestResults | backend/app/services/database_service.py:234-248 | the task's results in insertion order as dicts, or [] |
| DatabaseService.Service.GetDataStatus | backend/app/services/database_service.py:252-279 | the stored record as a dict, or the idle default before the first update |
| DatabaseService.Service.UpdateDataStatus | backend/app/services/database_service.py:281-308 | the first call constructs the record (an invalid keyword raises); later calls set the supplied attributes |
| DatabaseService.Service.SwitchToDatabaseMode | backend/app/services/database_service.py:312-314 | memory mode off; the stored data is untouched |
| DatabaseService.Service.SwitchToMemoryMode | backend/app/services/database_service.py:317-319 | memory mode on; the stored data is untouched |
| DatabaseService.Service.ClearMemoryStorage | backend/app/services/database_service.py:322-329 | all four tables back to their initial state, the mode unchanged |
| DatabaseService.CreateThenGet | backend/app/services/database_service.py:31-81 | in memory mode, a created strategy is returned by `get_strategy` under its id |
| DatabaseService.ClearThenRead | backend/app/services/database_service.py:322-329 | after clearing, every lookup misses and the status is idle |
| LoadingStore.AnyTrueUpdate | frontend/src/stores/loadingStore.ts:44-72 | after setting flag k to b, some flag is true iff b is true or some other flag already was |
| LoadingStore.Loading.constructor | frontend/src/stores/loadingStore.ts:35-39 | every flag starts cleared, so nothing is loading |
| LoadingStore.Loading.HasAnyLoading | frontend/src/stores/loadingStore.ts:68-76 | true iff the global flag or some page, component or action flag is true |
| LoadingStore.Loading.SetGlobalLoading | frontend/src/stores/loadingStore.ts:41-42 | sets the global flag only |
| LoadingStore.Loading.SetPageLoading | frontend/src/stores/loadingStore.ts:44-50 | sets one page flag only; setting it true makes something loading |
| LoadingStore.Loading.SetComponentLoading | frontend/src/stores/loadingStore.ts:52-58 | sets one component flag only; setting it true makes something loading |
| LoadingStore.Loading.SetActionLoading | frontend/src/stores/loadingStore.ts:60-66 | sets one action flag only; setting it true makes something loading |
| LoadingStore.Loading.ClearAllLoading | frontend/src/stores/loadingStore.ts:78-84 | back to the initial state, with nothing loading |
| ResultsStore.FindTask | frontend/src/stores/backtestResultsStore.ts:61-84 | `find(r => r.task_id === id) \|\| null` is None iff no result has that task id, and otherwise the first result that has it |
| ResultsStore.CompletedResultsMembers | frontend/src/stores/backtestResultsStore.ts:76-77 | a result is kept iff it belongs to a completed task that has results |
| ResultsStore.CompletedResultsConcat | frontend/src/stores/backtestResultsStore.ts:77 | `flatMap` over the completed tasks keeps task order |
| ResultsStore.NothingCompared | frontend/src/stores/backtestResultsStore.ts:67 | no result is in an empty comparison |
| ResultsStore.RemoveIdKeepsDistinct | frontend/src/stores/backtestResultsStore.ts:133 | removing an id keeps the rest distinct and in order |
| ResultsStore.RemoveIdExactly | frontend/src/stores/backtestResultsStore.ts:133 | removing an id drops exactly that id |
| ResultsStore.Store.constructor | frontend/src/stores/backtestResultsStore.ts:43-52 | the initial state: nothing loaded, selected or compared |
| ResultsStore.Store.SetResults | frontend/src/stores/backtestResultsStore.ts:55-69 | the results are replaced; while a non-empty task id is selected its first result is selected again; the compared results are recomputed |
| ResultsStore.Store.SetTasks | frontend/src/stores/backtestResultsStore.ts:72-79 | the tasks are stored and the results become those of the completed tasks, in task order, through `setResults` |
| ResultsStore.Store.SelectTask | frontend/src/stores/backtestResultsStore.ts:82-89 | selects the id and the first result of that task, or none |
| ResultsStore.Store.ClearSelection | frontend/src/stores/backtestResultsStore.ts:92-97 | clears both selection fields only |
| ResultsStore.Store.ToggleCompareMode | frontend/src/stores/backtestResultsStore.ts:100-108 | flips compare mode; leaving the mode also empties the comparison |
| ResultsStore.Store.AddToCompare | frontend/src/stores/backtestResultsStore.ts:111-128 | no change once four ids are held or when the id is already held; otherwise the id goes last and the compared results are recomputed |
| ResultsStore.Store.RemoveFromCompare | frontend/src/stores/backtestResultsStore.ts:131-140 | exactly that id goes, the others keep their order, and the compared results are recomputed |
| ResultsStore.Store.ClearCompare | frontend/src/stores/backtestResultsStore.ts:143-148 | empties the comparison only |
| ResultsStore.Store.SetLoading | frontend/src/stores/backtestResultsStore.ts:151 | sets the loading flag only |
| ResultsStore.Store.SetError | frontend/src/stores/backtestResultsStore.ts:154 | sets the error only |
| Responsive.Rank | frontend/src/hooks/useResponsive.ts:137 | the position of a breakpoint in the order xs < sm < md < lg < xl < 2xl, from 0 to 5 |
| Responsive.Next | frontend/src/hooks/useResponsive.ts:82-89 | the next larger breakpoint, and none only after 2xl |
| Responsive.ThresholdsIncrease | frontend/src/hooks/useResponsive.ts:8-15 | the thresholds 0, 576, 768, 992, 1200, 1400 grow strictly with the order |
| Responsive.CurrentIsLargestMatch | frontend/src/hooks/useResponsive.ts:18-30 | the current breakpoint is the largest whose threshold the width reaches, xs below 576, and the width is below the next threshold |
| Responsive.DeviceClassesPartition | frontend/src/hooks/useResponsive.ts:73-75 | every non-negative width is exactly one of mobile, tablet and desktop |
| Responsive.ComparisonsFollowCurrent | frontend/src/hooks/useResponsive.ts:78-95 | `isAtLeast(b)` iff b is at most the current breakpoint and `isAtMost(b)` iff b is at least it; `isAtMost('2xl')` always holds |
| Responsive.OrderRanks | frontend/src/hooks/useResponsive.ts:137 | the lookup order lists the breakpoints from largest to smallest |
| Responsive.ResponsiveValue | frontend/src/hooks/useResponsive.ts:133-149 | the value of the largest breakpoint with a value that is not above the current one, or the default when there is none |
| Responsive.CurrentBreakpoint | frontend/src/hooks/useResponsive.ts:18-30 | `getCurrentBreakpoint`: the if-chain from 2xl down to xs; Responsive.CurrentIsLargestMatch states what it picks |
| Translation.LookupConcat | frontend/src/hooks/useTranslation.ts:8 | the `reduce` over a longer path follows its prefix first |
| Translation.LookupFromMissing | frontend/src/hooks/useTranslation.ts:8 | once a segment is missing, every longer path is missing too |
| Translation.NestedValue | frontend/src/hooks/useTranslation.ts:7-9 | the value at the dotted path when it is truthy, otherwise the path itself |
| Translation.NestedValueOfSegments | frontend/src/hooks/useTranslation.ts:7-9 | a key joined from dot-free segments looks up exactly those segments |
| Translation.WordRun | frontend/src/hooks/useTranslation.ts:13 | the longest prefix of `\w` characters |
| Translation.WordRunStops | frontend/src/hooks/useTranslation.ts:13 | word characters followed by a non-word character form exactly that run |
| Translation.PlaceholderAt | frontend/src/hooks/useTranslation.ts:13 | a match of `\{(\w+)\}` at the start: a non-empty word name between braces |
| Translation.Substitute | frontend/src/hooks/useTranslation.ts:14 | the parameter's text when present and non-empty, otherwise the placeholder itself |
| Translation.InterpolateFills | frontend/src/hooks/useTranslation.ts:12-16 | a placeholder at the front is replaced by its parameter and the pass goes on after it |
| Translation.InterpolateUnchanged | frontend/src/hooks/useTranslation.ts:12-16 | a template none of whose placeholders has a non-empty parameter comes back unchanged |
| Translation.InterpolatePlain | frontend/src/hooks/useTranslation.ts:12-16 | text without "{" holds no placeholder and is copied as it is |
| Translation.NoReexpansion | frontend/src/hooks/useTranslation.ts:13-15 | an inserted value is not expanded again: "{a}" with a = "{b}" and b = "x" gives "{b}" |
| Translation.Translate | frontend/src/hooks/useTranslation.ts:19-22 | a text entry is interpolated; a non-text entry is an error, since `replace` is not defined on it |
| Translation.TranslateMissing | frontend/src/hooks/useTranslation.ts:8-22 | a missing key translates to the key itself, interpolated |
| Translation.Lookup | frontend/src/hooks/useTranslation.ts:8 | the `reduce` over the path segments, each step `current?.[key]`; Translation.LookupConcat and Translation.LookupFromMissing state its properties |
| Translation.Interpolate | frontend/src/hooks/useTranslation.ts:12-16 | one left-to-right `replace` pass over the template; Translation.InterpolateFills, InterpolateUnchanged, InterpolatePlain and NoReexpansion state its properties |
| TimeRangeHint.DayDiffBelow | frontend/src/components/TimeRangeHint/index.tsx:199-200 | fewer than n whole days apart, with the difference taken as dayjs takes it, holds iff the two instants are less than n days apart |
| TimeRangeHint.AssessDataQuality | frontend/src/components/TimeRangeHint/index.tsx:161-211 | auto-fetch wins outright and is recommended; otherwise the grade is high from 5000 records, medium from 2000, else low; it is recommended iff there are at least 2000 records and the span is not under 30 days; the short-span suffix appears exactly in that last case |
| TimeRangeHint.RecommendedNeedsData | frontend/src/components/TimeRangeHint/index.tsx:179-203 | outside auto-fetch a recommended range has at least 2000 records and, when it has both dates, spans at least 30 days |
| TimeRangeHint.Starts | frontend/src/components/TimeRangeHint/index.tsx:243 | the start date of each range, in order |
| TimeRangeHint.Ends | frontend/src/components/TimeRangeHint/index.tsx:244 | the end date of each range, in order |
| TimeRangeHint.Latest | frontend/src/components/TimeRangeHint/index.tsx:247-249 | the reduce returns an element of the list that no element exceeds |
| TimeRangeHint.Earliest | frontend/src/components/TimeRangeHint/index.tsx:250-252 | the reduce returns an element of the list that no element undercuts |
| TimeRangeHint.AnalyzeDataRanges | frontend/src/components/TimeRangeHint/index.tsx:213-304 | an overlapping range is reported exactly when the data is valid and some range is usable |
| TimeRangeHint.NoUsableRange | frontend/src/components/TimeRangeHint/index.tsx:214-240 | with no usable range there is no overlap, and the data counts as valid iff some symbol will be fetched automatically |
| TimeRangeHint.OverlapStartIsLatest | frontend/src/components/TimeRangeHint/index.tsx:243-249 | the overlap starts at the start of some usable range, and no usable range starts later |
| TimeRangeHint.OverlapEndIsEarliest | frontend/src/components/TimeRangeHint/index.tsx:243-252 | the overlap ends at the end of some usable range, and no usable range ends earlier |
| TimeRangeHint.AnalysisWithUsable | frontend/src/components/TimeRangeHint/index.tsx:254-300 | with a usable range the whole analysis follows from the latest start and the earliest end: no overlap gives the single "no overlap" warning, otherwise the overlap and the advice about the user's range |
| TimeRangeHint.OverlapAnalysis | frontend/src/components/TimeRangeHint/index.tsx:213-300 | with a usable range the data is valid iff every usable range starts no later than every usable range ends; the overlap shown is then [latest start, earliest end], and otherwise the only warning is the missing overlap |
| TimeRangeHint.DisjointUserRange | frontend/src/components/TimeRangeHint/index.tsx:269-271 | a user range wholly outside the overlap gives the disjoint warning and the suggestion to choose inside the overlap |
| TimeRangeHint.OverlappingUserRange | frontend/src/components/TimeRangeHint/index.tsx:272-286 | otherwise the clamped range lies inside both the overlap and the user's range; the short-range warning appears iff it spans under 30 days and the auto-adjust suggestion iff the user's range reaches outside the overlap |
| TimeRangeHint.DayDiff | frontend/src/components/TimeRangeHint/index.tsx:199 | `diff(..., 'day')`: whole days, truncated toward zero; TimeRangeHint.DayDiffBelow states its meaning |
| TimeRangeHint.UserRangeAdvice | frontend/src/components/TimeRangeHint/index.tsx:265-290 | what the user's own range adds once the data overlaps; TimeRangeHint.DisjointUserRange and TimeRangeHint.OverlappingUserRange state its two cases |
| FactorConfiguration.FactorOfParamKey | frontend/src/components/FactorConfiguration/index.tsx:98-109 | a key built from a dot-free factor name belongs to that factor |
| FactorConfiguration.FindFactor | frontend/src/components/FactorConfiguration/index.tsx:106 | none iff no factor has the name; otherwise one of the factors, with that name |
| FactorConfiguration.ParamDefaults | frontend/src/components/FactorConfiguration/index.tsx:108-113 | one (key, default) pair per parameter, in declaration order |
| FactorConfiguration.HasPairConcat | frontend/src/components/FactorConfiguration/index.tsx:105-115 | a key occurs in two batches of pairs iff it occurs in one of them |
| FactorConfiguration.FillMissingConcat | frontend/src/components/FactorConfiguration/index.tsx:105-115 | filling in two batches one after the other is filling in their concatenation |
| FactorConfiguration.FillMissingHas | frontend/src/components/FactorConfiguration/index.tsx:110-112 | a key is present afterwards iff it was present before or some pair has it |
| FactorConfiguration.FillMissingKeeps | frontend/src/components/FactorConfiguration/index.tsx:110 | a key already present keeps its value |
| FactorConfiguration.FillMissingFirst | frontend/src/components/FactorConfiguration/index.tsx:110-112 | a missing key gets the value of the first pair that has it |
| FactorConfiguration.FactorDefaultsKeys | frontend/src/components/FactorConfiguration/index.tsx:106-113 | one factor's pairs have exactly the keys of its parameters when the factor is known, and none otherwise |
| FactorConfiguration.DefaultsKeys | frontend/src/components/FactorConfiguration/index.tsx:105-115 | the default pairs have exactly the keys of the parameters of the selected, known factors |
| FactorConfiguration.DropUnselected | frontend/src/components/FactorConfiguration/index.tsx:96-102 | the loop deletes exactly the entries whose factor is no longer selected |
| FactorConfiguration.AddFactorDefaults | frontend/src/components/FactorConfiguration/index.tsx:108-113 | the loop gives each parameter of the factor its default unless its key already has an entry |
| FactorConfiguration.DefaultsStep | frontend/src/components/FactorConfiguration/index.tsx:105 | one more selected factor appends its defaults |
| FactorConfiguration.HandleFactorChange | frontend/src/components/FactorConfiguration/index.tsx:92-118 | the new map is the kept entries with the selected factors' defaults filled in |
| FactorConfiguration.FactorChangeCoversParameters | frontend/src/components/FactorConfiguration/index.tsx:105-115 | every parameter of every selected factor found in the list has an entry afterwards |
| FactorConfiguration.FactorChangePreserves | frontend/src/components/FactorConfiguration/index.tsx:97-113 | an entry of a factor that stays selected keeps its value and is not reset to the default |
| FactorConfiguration.FactorChangeKeys | frontend/src/components/FactorConfiguration/index.tsx:92-118 | a key is present afterwards iff it was kept or is a parameter key of a selected, known factor; a kept key keeps its value |
| FactorConfiguration.FactorChangeDefault | frontend/src/components/FactorConfiguration/index.tsx:105-113 | a key that was not kept gets the default of the first parameter that produces it |
| FactorConfiguration.SecondSegmentOfKey | frontend/src/components/FactorConfiguration/index.tsx:132 | a key made of a dot-free factor name and a dot-free remainder yields that remainder |
| FactorConfiguration.HandleParameterChange | frontend/src/components/FactorConfiguration/index.tsx:120-138 | the edited key gets the value and every other key is unchanged; the parameters sent to validation are exactly the second segments of the keys that start with the factor name and a dot, with their values |
| FactorConfiguration.FactorParamsExact | frontend/src/components/FactorConfiguration/index.tsx:129-135 | when the names after the dot are dot-free, the validated parameters are exactly that factor's entries |
| FactorConfiguration.DisplayedValue | frontend/src/components/FactorConfiguration/index.tsx:141-142 | the stored value unless it is missing, undefined or null, and then the parameter's default |
| FactorConfiguration.EditThenDisplay | frontend/src/components/FactorConfiguration/index.tsx:121-142 | an edited value that is neither undefined nor null is what the input shows next |
| FactorConfiguration.Kept | frontend/src/components/FactorConfiguration/index.tsx:96-102 | the entries whose factor is still selected; FactorConfiguration.DropUnselected computes it |
| FactorConfiguration.Defaults | frontend/src/components/FactorConfiguration/index.tsx:105-115 | the default pairs of the selected, known factors in visiting order; FactorConfiguration.DefaultsKeys states its keys |
| FactorConfiguration.FillMissing | frontend/src/components/FactorConfiguration/index.tsx:110-112 | each pair whose key is missing is added in order; FactorConfiguration.FillMissingHas, FillMissingKeeps and FillMissingFirst state its properties |
| TradeTable.FilteredTrades | frontend/src/components/BacktestResults/TradeDetailsTable.tsx:37-60 | the trades that pass the search, side, profit and date tests, in their original order |
| TradeTable.NoFilterShowsAll | frontend/src/components/BacktestResults/TradeDetailsTable.tsx:31-60 | with every control at its initial value every trade is shown |
| TradeTable.SearchIgnoresCase | frontend/src/components/BacktestResults/TradeDetailsTable.tsx:40-42 | a search and its upper-case form match the same trades |
| TradeTable.ZeroPnlOnlyUnderAll | frontend/src/components/BacktestResults/TradeDetailsTable.tsx:48-50 | a break-even trade passes the profit/loss control only under "all" |
| TradeTable.DateRangeIsOpen | frontend/src/components/BacktestResults/TradeDetailsTable.tsx:53-56 | a trade stamped exactly at either end of the date range is left out |
| TradeTable.Summarize | frontend/src/components/BacktestResults/TradeDetailsTable.tsx:197-214 | the count of shown trades, the numbers of wins and losses, which together are at most the count, and the win rate, which is 0 for an empty table and between 0 and 100 |
| TradeTable.WinRate | frontend/src/components/BacktestResults/TradeDetailsTable.tsx:203 | a percentage between 0 and 100 that times the count gives 100 times the wins |
| TradeTable.WinsAndLosses | frontend/src/components/BacktestResults/TradeDetailsTable.tsx:201-202 | no trade is both a win and a loss |
| TradeTable.TotalPnlSnoc | frontend/src/components/BacktestResults/TradeDetailsTable.tsx:198 | each further trade adds its profit to the running sum |
| TradeTable.SidePnlSnoc | frontend/src/components/BacktestResults/TradeDetailsTable.tsx:198-202 | one more trade adds its profit to the side it belongs to |
| TradeTable.PnlSplitsIntoWinsAndLosses | frontend/src/components/BacktestResults/TradeDetailsTable.tsx:198-202 | total profit is the winners' profit plus the losers' loss; break-even trades add nothing |
| TradeTable.SummaryOfShown | frontend/src/components/BacktestResults/TradeDetailsTable.tsx:197-214 | the summary row counts at most the trades given and totals the profit of exactly the shown trades |
| Metrics.Column | frontend/src/components/BacktestResults/ResultsFilter.tsx:65 | one scaled metric value per result, in order |
| ResultsFilter.AvailableStrategies | frontend/src/components/BacktestResults/ResultsFilter.tsx:59 | the distinct strategies, in the order of first appearance, and exactly those of the results |
| ResultsFilter.StrategyColumn | frontend/src/components/BacktestResults/ResultsFilter.tsx:59 | the strategy of each result, in order |
| ResultsFilter.AvailableSymbols | frontend/src/components/BacktestResults/ResultsFilter.tsx:60 | the distinct symbols, in the order of first appearance, and exactly those of the results |
| ResultsFilter.SymbolColumn | frontend/src/components/BacktestResults/ResultsFilter.tsx:60 | the symbol of each result, in order |
| ResultsFilter.MetricRange | frontend/src/components/BacktestResults/ResultsFilter.tsx:63-84 | the default without results; otherwise both ends are scaled values of some result and every scaled value lies between them |
| ResultsFilter.DataRangesOrdered | frontend/src/components/BacktestResults/ResultsFilter.tsx:63-84 | every derived range has its low end at most its high end, and without results the ranges are the fixed defaults |
| ResultsFilter.InitialCriteria | frontend/src/components/BacktestResults/ResultsFilter.tsx:86-99 | no strategy, symbol or date chosen, the sliders at the data ranges, sorted by final return descending, all results shown, at least 10 trades |
| ResultsFilter.WriteChangesOneField | frontend/src/components/BacktestResults/ResultsFilter.tsx:102 | writing a field stores the value there and leaves every other field as it was |
| ResultsFilter.ReadDetermines | frontend/src/components/BacktestResults/ResultsFilter.tsx:29-42 | criteria agreeing on every field are equal |
| ResultsFilter.Panel.constructor | frontend/src/components/BacktestResults/ResultsFilter.tsx:63-99 | the panel starts with the ranges of its results, the initial criteria and nothing reported |
| ResultsFilter.Panel.HandleFilterChange | frontend/src/components/BacktestResults/ResultsFilter.tsx:101-105 | the criteria with one field replaced are stored and reported |
| ResultsFilter.Panel.HandleReset | frontend/src/components/BacktestResults/ResultsFilter.tsx:107-125 | back to the initial criteria over the ranges of the current results, which are reported too |
| ResultsFilter.Panel.SetResults | frontend/src/components/BacktestResults/ResultsFilter.tsx:63-84 | a render with new results derives the ranges afresh; the criteria and the reports stay as they were |
| ResultsFilter.ChangeThenReset | frontend/src/components/BacktestResults/ResultsFilter.tsx:101-125 | a change followed by a reset ends at the initial criteria, after reporting the changed criteria and then the initial ones |
| ResultsFilter.NewResultsThenReset | frontend/src/components/BacktestResults/ResultsFilter.tsx:63-125 | after the parent passes new results, a reset goes to the criteria over the new results' ranges |
| StatisticsPanel.Stat | frontend/src/components/BacktestResults/StatisticsPanel.tsx:28-61 | 0 without results; the sum over the results for the trade count; the sum divided by the number of results for every other metric |
| StatisticsPanel.CalculateStats | frontend/src/components/BacktestResults/StatisticsPanel.tsx:28-61 | each of the twelve statistics is its metric's statistic |
| StatisticsPanel.EmptyStatsAreZero | frontend/src/components/BacktestResults/StatisticsPanel.tsx:29-44 | without results every statistic is 0 |
| StatisticsPanel.AverageWithinRange | frontend/src/components/BacktestResults/StatisticsPanel.tsx:46-58 | each averaged statistic lies between the smallest and the largest value of its metric |
| StatisticsPanel.TotalTradesAdds | frontend/src/components/BacktestResults/StatisticsPanel.tsx:55 | the trade count is a sum: one more result adds its trades |
| StatisticsPanel.ValueColor | frontend/src/components/BacktestResults/StatisticsPanel.tsx:72-77 | neutral for 0; otherwise green iff the sign of the value is the good one, and red iff it is the bad one |
| StatisticsPanel.ColourInverts | frontend/src/components/BacktestResults/StatisticsPanel.tsx:72-77 | marking a metric as "lower is better" colours a value as its negation is coloured |
| StrategyComparison.Scores | frontend/src/components/BacktestResults/StrategyComparison.tsx:222-225 | the score of each result, a missing or falsy metric counting as 0 |
| StrategyComparison.GetBestStrategy | frontend/src/components/BacktestResults/StrategyComparison.tsx:218-233 | -1 iff there are no results; otherwise an index whose score no result beats and that beats every earlier result, which makes it the first best one |
| StrategyComparison.BestIsExtreme | frontend/src/components/BacktestResults/StrategyComparison.tsx:218-233 | the best score is the largest score when higher is better and the smallest otherwise |
| StrategyComparison.BestIsUnique | frontend/src/components/BacktestResults/StrategyComparison.tsx:221-232 | two indices that both meet the contract of the best-strategy search are the same |
| StrategyComparison.DrawdownSizes | frontend/src/components/BacktestResults/StrategyComparison.tsx:301 | the absolute drawdown of each result, a missing one counting as 0 |
| StrategyComparison.Overview | frontend/src/components/BacktestResults/StrategyComparison.tsx:260-322 | nothing iff outside compare mode or without results; otherwise each figure is the value of some result and bounds every result's value: the largest return, Sharpe ratio and win rate and the smallest absolute drawdown |
| StrategyComparison.MissingDrawdownIsZero | frontend/src/components/BacktestResults/StrategyComparison.tsx:301 | a result without a drawdown makes the smallest drawdown shown 0 |
| StrategyComparison.ValueColorAsWritten | frontend/src/components/BacktestResults/StrategyComparison.tsx:32-37 | as written: neutral for 0, otherwise green iff the value is positive, whatever the flag |
| StrategyComparison.FlagIgnoredAsWritten | frontend/src/components/BacktestResults/StrategyComparison.tsx:34-36 | as written, the flag has no effect on the colour |
| StrategyComparison.FlagIgnoredWitness | frontend/src/components/BacktestResults/StrategyComparison.tsx:36 | a gain marked "lower is better" is green as written, where the statistics panel shows it red |
| StrategyComparison.CallSitesAgree | frontend/src/components/BacktestResults/StrategyComparison.tsx:84-103 | with the default flag, as every call passes it, the written and the corrected colouring agree |
| StrategyComparison.ReturnCellColor | frontend/src/components/BacktestResults/StrategyComparison.tsx:84-103 | a return cell is green for a gain, red for a loss and neutral for 0 |
| Export.AllKeys | frontend/src/components/BacktestResults/ExportButton.tsx:74 | the key of every exportable field, in the table's order |
| Export.FindLabel | frontend/src/components/BacktestResults/ExportButton.tsx:141 | none iff no entry has the key; otherwise the title of the first entry with it |
| Export.LabelOfField | frontend/src/components/BacktestResults/ExportButton.tsx:43-63 | a known field is titled with its label, any other field with its own key |
| Export.LabelOf | frontend/src/components/BacktestResults/ExportButton.tsx:141 | `availableFields.find(...)?.label \|\| field`; Export.LabelOfField states its cases |
| Export.FindFirstOfDistinct | frontend/src/components/BacktestResults/ExportButton.tsx:141 | with distinct keys the entry found for a key is the one that holds it |
| Export.KeysDistinct | frontend/src/components/BacktestResults/ExportButton.tsx:43-63 | no two exportable fields share a key |
| Export.TitlesNonEmpty | frontend/src/components/BacktestResults/ExportButton.tsx:43-63 | every label is non-empty, so the `|| field` fallback is taken only for unknown fields |
| Export.QuickExportOptions | frontend/src/components/BacktestResults/ExportButton.tsx:68-75 | the quick export selects every field, includes statistics but not trades, and includes charts and the equity curve iff the format is PDF |
| Export.KindOf | frontend/src/components/BacktestResults/ExportButton.tsx:133-139 | percentage fields first, then ratio fields, then the creation date; any other field is kept as it is |
| Export.FormatCell | frontend/src/components/BacktestResults/ExportButton.tsx:133-139 | formatting throws exactly for a ratio field that is not a number; a plain field is kept; a percentage becomes text ending in "%" |
| Export.Keys | frontend/src/components/BacktestResults/ExportButton.tsx:157 | the keys of a row in insertion order |
| Export.Lookup | frontend/src/components/BacktestResults/ExportButton.tsx:160 | a key the row lacks reads as undefined |
| Export.Put | frontend/src/components/BacktestResults/ExportButton.tsx:141 | an existing key keeps its place and a new key goes last; the key then holds the value and every other key is unchanged |
| Export.RowColumns | frontend/src/components/BacktestResults/ExportButton.tsx:126-145 | a row's columns are the titles of the selected fields the result has, each once, in order of first appearance |
| Export.ColumnsStep | frontend/src/components/BacktestResults/ExportButton.tsx:141 | storing one more title extends the columns as de-duplication extends the titles |
| Export.RowCell | frontend/src/components/BacktestResults/ExportButton.tsx:128-142 | a column holds the formatted value of the last selected field with that title |
| Export.RowFails | frontend/src/components/BacktestResults/ExportButton.tsx:128-142 | building a row fails iff a selected ratio field the result has is not a number |
| Export.RowOf | frontend/src/components/BacktestResults/ExportButton.tsx:127-143 | the row of one result; Export.RowColumns, Export.RowCell and Export.RowFails state its columns, cells and failure, and Export.BuildRow computes it |
| Export.BuildRow | frontend/src/components/BacktestResults/ExportButton.tsx:127-144 | the loop builds the row the definition describes, or meets its error |
| Export.RowErrorPersists | frontend/src/components/BacktestResults/ExportButton.tsx:128-142 | once part of the selection fails, the whole selection fails with that error |
| Export.RowsOf | frontend/src/components/BacktestResults/ExportButton.tsx:126-145 | one row per result, in order, or a failure that some result's row causes |
| Export.MapAll | frontend/src/components/BacktestResults/ExportButton.tsx:126-145 | every item mapped, in order, or the failure of some item |
| Export.BuildRows | frontend/src/components/BacktestResults/ExportButton.tsx:126-145 | the loop builds the rows the definition describes, or meets the first error |
| Export.RowsErrorPersists | frontend/src/components/BacktestResults/ExportButton.tsx:126-145 | once some result fails, the whole export fails with that error |
| Export.CellText | frontend/src/components/BacktestResults/ExportButton.tsx:160 | falsy cells are empty and text cells are their text |
| Export.QuotedCells | frontend/src/components/BacktestResults/ExportButton.tsx:160 | one quoted cell per header, holding that column's text |
| Export.Lines | frontend/src/components/BacktestResults/ExportButton.tsx:160 | one line per row, in order |
| Export.CsvContent | frontend/src/components/BacktestResults/ExportButton.tsx:154-163 | no file iff there are no rows |
| Export.JoinAvoids | frontend/src/components/BacktestResults/ExportButton.tsx:158-161 | a joined text holds a character only if a piece or the separator does |
| Export.CsvLayout | frontend/src/components/BacktestResults/ExportButton.tsx:154-163 | when no key and no cell holds a newline, the file is a byte-order mark followed by the header line and one line per row |
| Export.LinesClean | frontend/src/components/BacktestResults/ExportButton.tsx:154-163 | neither the header line nor any row line holds a newline when no key and no cell does |
| Export.LineAvoidsNewline | frontend/src/components/BacktestResults/ExportButton.tsx:160 | a row line holds a newline only if one of its cells does |
| Export.MissingColumnIsEmpty | frontend/src/components/BacktestResults/ExportButton.tsx:160 | a row lacking a header column shows an empty quoted cell there |
| Export.QuotesNotEscaped | frontend/src/components/BacktestResults/ExportButton.tsx:160 | a quote inside a cell is written as it is |
| Export.DefaultExport | frontend/src/components/BacktestResults/ExportButton.tsx:124-152 | fails iff a row fails; otherwise only CSV and JSON write a file; CSV writes none iff there are no results; JSON writes the rows, and the trades iff they are included |
| Export.QuickExport | frontend/src/components/BacktestResults/ExportButton.tsx:65-91 | with a handler the default options are handed over; otherwise the default export runs and a failure is reported exactly when it throws; CSV is the only file it can write |

## Left out

- File and network I/O: reading CSV or pickle candle files, the Binance REST session, `ping`, `request_session`, and the pagination loop of `get_symbols_by_session`. The model takes the files' contents and the exchange's answers as parameters.
- `get_or_create_eventloop`: asyncio event-loop plumbing with no data logic.
- The delegating wrappers of the data adapter: `get_data_status_summary`, `check_data_availability_for_backtest` and `get_intelligent_time_range_for_backtest`. Each passes its arguments to a local data manager operation that is modelled (`check_data_availability`, `get_intelligent_time_range`) or only collects counts for display.
- `_load_data` of the local data manager: it reads the pickle files from disk. The model starts from the loaded frames, keyed by local name.
- `price_range` in `get_data_info`: a min/max over floats, left out with the other floating-point statistics.
- Floating point: every amount is a Dafny `real`. IEEE rounding, infinities and NaN propagation through arithmetic are not modelled; a NaN cell is `None`.
- `ewm` and the rolling standard deviation: `sqrt` is a parameter known only to be non-negative.
- The database branch of the database service. Only the memory mode (the `use_memory` path) is modelled; the ORM queries are not.
- JavaScript's prototype chain: `in` on objects sees only the object's own keys.
- Integer-like object keys: JavaScript enumerates them before other keys; the model keeps insertion order.
- Negative or fractional years in the heatmap data.
- Date parsing: a date is given as milliseconds since the epoch (`time`). `toLocaleString`, `toFixed` and `format('YYYY-MM-DD')` are opaque formatter functions.
- Case mapping in search is ASCII-only; the source's Unicode `toLowerCase` is wider.
- Js.NumOrZero: a value under `|| 0` that is not a number reads as 0. JavaScript keeps a truthy non-number, such as a numeric string, as it is.
- The resize listener of `useResponsive` (the window width is a parameter), `useResponsiveSpacing` and the design tokens.
- `refreshData` and the mock data of the results store.
- The 800 ms start-up timer of the trade analysis chart: whether it is still running is a parameter of `TradeChart.Chart`.
- `form.resetFields`, `form.validateFields` and `handleCustomExport`: UI form plumbing over the modelled default export.
- The Blob, DOM-link download and `JSON.stringify`: the model stops at the file contents.
- The TradeAnalysisChart hovertemplate, layout and colours other than the bar colours.
- The MonthlyReturnsHeatmap loading guard: the same guard as the trade chart's, modelled once in `TradeChart.Chart`.
- Export.QuickExport: requires a format other than JSON, because the source's quick-export menu offers only CSV, Excel and PDF.
- Export.QuickExportOptions: same restriction, for the same reason.
- Kdj.Signal: requires every bar's low to be at most its high (and so do the Kdj column functions and lemmas), because only then is the rsv denominator `highest - lowest + 1e-10` known to be non-zero; the source accepts malformed bars and would divide by zero at the single value that makes the denominator vanish.
- TimeRangeHint: the fetch-and-retry effect and the 300 ms debounce are left out. The model starts from the per-symbol ranges the endpoint returned.
- DataAdapter.ValidateSymbolFormat: upper-casing is ASCII-only, so `|r| <= |symbol|` is a property of the model; Python's `str.upper()` maps the whole of Unicode and can lengthen a string ('ß' becomes 'SS').
- DataAdapter.UpperIdempotent, DataAdapter.UpperKeepsHyphenFree and DataAdapter.ValidateIdempotent: likewise stated for ASCII upper-casing.
- Common.DownloadPrefix, Common.DownloadPrefixPieces, Common.DownloadPrefixNamesSymbol, Common.LocalPathWithSymbol and Common.LocalPathSymbolLayout: the symbol is upper-cased as ASCII; for a symbol outside ASCII, Python's `upper()` may give other text.
- LocalData.SortedComplete: the contract says sorted by time and a permutation, nothing about rows with equal times; pandas' default quicksort need not keep them in input order, while the model's insertion sort does.
- Export.ToNumber: an array converts to NaN; JavaScript's `Number` gives 0 for `[]` and the single element's number for a one-element array.
- TimeRangeHint.DayDiff: counts 24-hour days in milliseconds; dayjs counts local calendar days, which differ across a daylight-saving change.
- FactorConfiguration.HandleParameterChange: when two keys of the factor share the part after the dot, the contract says one of them supplies the value, not which; JavaScript takes the last in `Object.keys` order.

## Findings

| source | as written | input that shows it | evidently intended | confidence | as-written member | corrected member |
|---|---|---|---|---|---|---|
| backend/app/services/local_data_manager.py:170-172 | a listed base prefix wins whenever the symbol ends in USDT | ETHFIUSDT becomes ETH-USDT, the same key as ETHUSDT | split off the USDT quote, giving ETHFI-USDT | medium, not executed | LocalData.ConvertAsWritten and LocalData.GetSymbolData, which every lookup of the model uses as the source does (shown by LocalData.ConvertAsWrittenConflates and LocalData.LookupConflates) | LocalData.ConvertToLocalFormat and LocalData.CorrectedSymbolData (proved by LocalData.ConvertRoundTrip, LocalData.ConvertInjective and LocalData.LookupsAgree) |
| backend/app/services/database_service.py:58 | the active filter calls `.get` on stored Strategy objects, which have no `get` | any stored strategy with `active_only=True` (the default) raises AttributeError; the task listing with a status at line 157 likewise | filter on the `is_active` attribute (and `status` for tasks) | high, not executed | DatabaseService.StrategiesListingAsWritten and DatabaseService.TasksListingAsWritten (shown by DatabaseService.ListingsAsWrittenFail) | DatabaseService.StrategiesListing and DatabaseService.TasksListing |
| frontend/src/components/BacktestResults/StrategyComparison.tsx:36 | the `isPositive = false` branch tests `value < 0`, which gives the same colours as the true branch | value 1 with `isPositive = false` is green | red, as the statistics panel's version gives | high, not executed | StrategyComparison.ValueColorAsWritten (shown by StrategyComparison.FlagIgnoredWitness) | StatisticsPanel.ValueColor |
| frontend/src/components/Charts/MonthlyReturnsHeatmap.tsx:51 | `sort()` with no comparator orders the years as text | years 999 and 2024 are ordered [2024, 999] | numeric order; the two agree on four-digit years (Heatmap.FourDigitYearsAgree) | low, not executed | Heatmap.YearsAsWritten (shown by Heatmap.TextSortMisordersYears) | Heatmap.Years |
