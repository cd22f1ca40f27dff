# Taiwan stock dashboard: breakout backtest and market scan

This project models the computational core of a Streamlit dashboard for
Taiwan-listed stocks (`app.py`). It covers two parts.

- **`calculate_win_rate`** takes a daily bar frame and flags *breakout* bars.
  A bar is flagged when the close rises more than 3% over the previous close
  and the volume is more than twice the mean volume of the five bars before
  it. Each flagged bar is then traded: buy at the next bar's open and sell at
  the close `hold_days` bars after the signal. The function returns the
  percentage of winning trades, rounded to one decimal, and the number of
  trades that could be made. When the frame has at least 20 bars, it writes
  the `Signal` column into the frame it is given.
- **The market scan** keeps the rows of a whole-market snapshot whose
  `return_rate` is above 3 and whose `Volume` is above 2000. It turns each
  kept row into a display record (`fetch_scanner_data`), rounding the return
  to two decimals. Rows whose record cannot be built are dropped.

Modules:

- `Wrappers` (`wrappers.dfy`): the `Option` type.
- `Rounding` (`rounding.dfy`): Python's `round(x, 1)` and `round(x, 2)` on
  exact reals. The value is scaled, moved to the nearest integer with an exact
  half going to the even neighbour, and scaled back.
- `Breakout` (`breakout.dfy`): the `Bar` record, the signal rule, the
  `Signal` column and the ordered signal indices.
- `Backtest` (`backtest.dfy`): the trade counts, the win-rate expression, the
  trade loop (`TallyTrades`), the frame as a class (`PriceFrame`) and
  `CalculateWinRate`. `CalculateWinRate` writes the frame's `signal` field and
  nothing else. Its result equals the specification function
  `BacktestResult`, and the lemmas state what that result means.
- `Scanner` (`scanner.dfy`): the snapshot row, the filter, the record
  builder, the order-preserving map and the drop of failed rows. The scan
  pipeline is proved equal to a one-pass reference (`ScanOnePass`), and its
  membership and order properties follow from that.

The signal rule is stated for every previous close, including zero. A zero
previous close gives a ratio of +inf when the close is positive, which
passes the price test, and -inf or NaN otherwise, which fails it; the volume
test and the five-bar warm-up still apply. `Breakout.SignalRule`
restates the rule without division for a positive previous close.

## Model

| member | source | states |
|---|---|---|
| `Rounding.RoundHalfEven` | app.py:39 | the result is an integer within 1/2 of the input, and an exact half goes to the even integer |
| `Rounding.RoundHalfEvenIsNearest` | app.py:39 | no integer is strictly closer to the input than the rounded value |
| `Rounding.RoundHalfEvenIsUnique` | app.py:39 | the two clauses of `RoundHalfEven`'s contract admit exactly one integer |
| `Rounding.Round1` | app.py:39 | `round(x, 1)` is a multiple of 0.1 within 0.05 of `x`, with an even last digit when `x` is exactly halfway |
| `Rounding.Round2` | app.py:50 | `round(x, 2)` is a multiple of 0.01 within 0.005 of `x`, with an even last digit when `x` is exactly halfway |
| `Rounding.Round1IsUnique` | app.py:39 | any real meeting `Round1`'s contract is `Round1(x)`, so the contract fixes the rounded value |
| `Rounding.Round2IsUnique` | app.py:50 | any real meeting `Round2`'s contract is `Round2(x)` |
| `Rounding.Round1KeepsGridBound` | app.py:39 | `round(x, 1)` never crosses a multiple of 0.1 (so values in [0, 100] stay in [0, 100]) |
| `Rounding.Round2KeepsGridBound` | app.py:50 | `round(x, 2)` never crosses a multiple of 0.01 |
| `Breakout.PctChangeAbove` | app.py:25 | `pct_change() > 0.03` at one bar: `close / prev - 1 > 0.03` for a non-zero previous close; with a zero previous close the ratio is +inf (passes) for a positive close, and -inf or NaN (fails) otherwise |
| `Breakout.TrailingVolumeMean` | app.py:26 | `Volume.rolling(5).mean().shift(1)` at bar `i >= 5`: the mean volume of bars `i-5` to `i-1`, bar `i` excluded |
| `Breakout.IsSignal` | app.py:25-26 | the breakout rule at bar `i`: `i >= 5` (earlier bars compare against NaN), the price test, and volume above twice the trailing mean |
| `Breakout.SignalColumn` | app.py:25-26 | the `Signal` column has one entry per bar, and entry `i` is the breakout rule at bar `i` |
| `Breakout.Positions` | app.py:28 | the row labels where a boolean column is true: strictly increasing, each a true row, and every true row listed |
| `Breakout.SignalIndices` | app.py:25-28 | the signal indices are strictly increasing, each is a signalling bar at position 5 or later, and every signalling bar is listed |
| `Breakout.SignalRule` | app.py:25-26 | with a positive previous close, bar `i` signals exactly when `i >= 5`, `close[i] > 1.03 * close[i-1]` and `5 * volume[i] > 2 * (volume[i-5] + ... + volume[i-1])`; bar `i`'s own volume is not in the mean |
| `Breakout.NoEarlySignal` | app.py:25-26 | bars 0 to 4 never signal, because the NaN warm-up values compare false |
| `Breakout.SignalIsCausal` | app.py:25-26 | whether bar `i` signals does not depend on any bar after `i` |
| `Breakout.SignalColumnOfPrefix` | app.py:25-26 | the signal column of the first `m` bars is the first `m` entries of the whole column |
| `Backtest.Realizable` | app.py:34 | a trade from signal bar `i` is made only when `i + hold_days < len(df)` |
| `Backtest.IsWin` | app.py:35-37 | a realizable trade wins when the close of bar `i + hold_days` is strictly above the open of bar `i + 1` |
| `Backtest.ValidCount` | app.py:32-38 | the `valid_signals` counter: the number of signal indices whose trade is realizable |
| `Backtest.WinCount` | app.py:31-37 | the `wins` counter: the number of realizable signal indices whose trade wins |
| `Backtest.BacktestResult` | app.py:21-39 | the value of `calculate_win_rate`: `(0, 0)` under 20 bars or with no signal, otherwise the rounded win rate and the realizable count over the signal indices |
| `Backtest.PriceFrame.constructor` | app.py:21-25 | the frame passed to `calculate_win_rate` (class `PriceFrame`): it holds the bars and has no `Signal` column until one is written |
| `Backtest.WinRate` | app.py:39 | the rate is 0 with no trades; otherwise it has one decimal, is within 0.05 of `wins / valid * 100`, and has an even last digit on an exact tie (by `Round1IsUnique`, exactly `round(wins / valid * 100, 1)`) |
| `Backtest.WinRateBounds` | app.py:39 | with `wins <= valid` the rate is in [0, 100], exactly 0 with no wins and exactly 100 when every trade won |
| `Backtest.TallyTrades` | app.py:31-38 | the loop returns the number of realizable trades and the number of winning ones, and `wins <= valid_signals <= len(sig_indices)` holds throughout |
| `Backtest.CalculateWinRate` | app.py:21-39 | the result equals `BacktestResult` of the bars; the bars are unchanged; the `Signal` column is written only when there are at least 20 bars, and then holds the signal rule |
| `Backtest.WinsAtMostValid` | app.py:31-38 | wins never exceed realizable trades, because both counters move in the same branch |
| `Backtest.ValidAtMostSignals` | app.py:33-38 | realizable trades never exceed signals |
| `Backtest.ResultBounds` | app.py:23-39 | under 20 bars or with no signal the result is `(0, 0)`; the win rate is in [0, 100]; a zero count means a zero rate; the count never exceeds the number of signals |
| `Backtest.ValidCountOfPositions` | app.py:33-34 | among the true rows of a column, the rows whose trade fits in `lim + hold` bars are exactly the true rows among the first `lim` |
| `Backtest.CountIsRealizableSignals` | app.py:28-38 | the count is the number of signals among the first `n - hold_days` bars (the signals whose exit bar exists); later signals are skipped, not an error |
| `Backtest.SingleSignalOutcome` | app.py:33-39 | one realizable signal gives count 1 and rate 100 when `close[i + hold] > open[i + 1]`, and rate 0 otherwise, a tie included |
| `Scanner.PassesFilter` | app.py:103 | a snapshot row passes when `return_rate > 3` and `Volume > 2000`, both strict |
| `Scanner.Potential` | app.py:103 | the kept rows all pass both strict thresholds, come from the snapshot, and every passing row is kept |
| `Scanner.FetchScannerData` | app.py:41-54 | a record is built exactly when the id, name and close columns are present; it carries the row's id, name, close and volume, and its change is `return_rate` rounded to two decimals: a multiple of 0.01 within 0.005 of it, even in the last digit on an exact tie |
| `Scanner.FetchAll` | app.py:105-106 | the map gives one result per kept row, in the same order |
| `Scanner.DropFailed` | app.py:108 | the `None` results are removed and every built record is kept |
| `Scanner.Scan` | app.py:103-108 | the scan: filter the snapshot, build a record per kept row in order, and drop the rows whose record failed |
| `Scanner.ScanOnePass` | app.py:103-108 | the one-pass reference the scan is proved equal to; it models no source line of its own, and lists the record of each row that passes the filter and builds, in snapshot order |
| `Scanner.ScanIsOnePass` | app.py:103-108 | filter, map and drop together equal one pass that keeps each passing row whose record builds |
| `Scanner.ScanPreservesOrder` | app.py:103-108 | scanning two consecutive parts of a snapshot and joining the results equals scanning the whole |
| `Scanner.ScanMembership` | app.py:103-108 | a record is listed exactly when some snapshot row passes both thresholds and builds that record |
| `Scanner.ScanRecordsMeetThresholds` | app.py:103-108 | every listed record has volume above 2000 and a displayed change of at least 3.00 |
| `Scanner.ScanOfQuietMarket` | app.py:103-108 | a snapshot in which no row passes the filter gives an empty list |

## Left out

- Page setup, tabs, inputs, metrics, messages and the duplicated first-tab block (app.py:11, 57-116) are user interface.
- The FinMind client, its login and the fetches `get_stock_data` and `taiwan_stock_daily_all` (app.py:1-2, 12, 15-19, 101) are network I/O. The frame and the snapshot are parameters instead.
- The one-hour result cache (app.py:15) belongs to the framework.
- The candlestick and volume chart (app.py:89-92) is presentation.
- The thread pool (app.py:105-106) only adds parallelism. `executor.map` keeps input order, so it is modelled as a sequential map (`Scanner.FetchAll`).
- Floating point is modelled with exact reals. NaN appears only where the rule compares it: the warm-up bars 0 to 4 and a zero previous close. NaN or missing values inside the price and volume data are not modelled.
- Breakout.PctChangeAbove: compares `close / prev - 1` with 0.03 on exact reals and keeps the strict "more than 3%" of the source's own comment (app.py:24). In doubles an exact 3% rise usually lands just above the threshold (`103 / 100 - 1` evaluates to 0.030000000000000027), so the source's price test usually passes on such a bar and in effect flags "at least 3%"; the model does not flag it.
- Rounding.Round1: rounds the exact ratio half-to-even. Python rounds the binary float of `wins / valid * 100`, so near an exact tie the last digit may differ.
- Rounding.Round2: the same difference as for `Round1`, applied to `return_rate`.
- The frame's index is taken to be the default range index, so signal labels are row positions. The source mixes labels (app.py:28, 34) with `iloc` (app.py:35-36), so another index would change its behaviour.
- `calculate_win_rate` returns the integer 0 as its rate on its early exits (app.py:23, 29) and when no signal is realizable (app.py:39), and a float otherwise. The model returns the real 0.0 in all these cases.
- The default `days_hold=3` (app.py:21) is not modelled: `Backtest.CalculateWinRate` always takes the hold period as an argument, as both call sites pass it (app.py:68, 81).
- A frame without `close`, `Volume` or `open` raises `KeyError` in the source once the code reads the missing column: from 20 bars on for `close` and `Volume` (app.py:25-26), and at the first realizable signal for `open` (app.py:35). Shorter frames, and frames with no realizable signal, return normally without reading them. A snapshot without `return_rate` or `Volume` raises `KeyError` at the filter (app.py:103). The model's `Bar` and `SnapshotRow` always have these fields.
- `hold_days` must be at least 1, which is the slider's lower bound (app.py:77). With 0, a signal on the last bar would make `iloc` fail.
- `app.py` computes no moving averages, RSI, MACD, Bollinger bands or stochastics, does not clean or re-sort the bars it is given, reports no average return or per-trade details, does not search earlier dates when the snapshot is empty, and does not sort the scan results; none of this is modelled. The scan filter is the snapshot's own `return_rate` with strict `>` thresholds of 3 and 2000; no change is computed from open and close, and no `>=` comparison is made.
