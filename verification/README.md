# Algo-Trader backtest engines in Dafny

This project models the backtest scripts of the Algo-Trader repository and proves properties
of them. Each script replays candles of NSE symbols through one trading rule and reports trades,
wins, P&L, drawdown and costs. The model works on candle lists that are already in memory,
with prices and money as `real`. The JSON files, directory listings and printing are left
out, as is everything the scripts do around the engines.

- **Upgraded intraday engine** (`scripts/validate_upgraded.py`). Modules `IntradayIndicators`,
  `UpgradedSignals`, `TrailingExit`, `IntradayTrade`, `Ledger`, `UpgradedEngine`,
  `UpgradedSymbol`, `UpgradedProperties` and `UpgradedSymbolProperties`.
  - The indicators: the mean-seeded EMA, the ATR over the last 14 true ranges, the
    first-hour volatility filter, the trend gate, the trade-quality score, and trend and
    pullback detection.
  - The candle loop of one day: the two-trade cap, the 1% daily-loss stop, the gates, sizing
    and the trailing-stop exit.
  - The day loop with the rolling-drawdown kill switch.
  - The closing metrics.
  - The kill switch never resets the rolling peak, and a halted symbol books nothing. So once
    the rolling drawdown reaches 5%, it stays there and the symbol never trades again
    (`KillSwitchIsFinal`).
- **Unfiltered intraday engine** (`scripts/validate_intraday.py`). Modules `IntradayEngine`
  and `IntradayProperties`. It shares the indicators, the sizing, the exit scan, the cost
  model and the ledger with the upgraded engine.
- **Daily swing engine** (`scripts/validate_swing.py`). Modules `SwingIndicators`,
  `Bookkeeping`, `SwingEngine` and `SwingProperties`. A flat or long state machine over daily
  candles: the first-price-seeded EMA, the full-window ATR and a ratcheting stop.
- **Base benchmark** (`scripts/validate_base_comparison.py`). Module `BaseBenchmark`. Days
  are laid end to end with a `[start, end)` range per day. Each day takes at most one
  unfiltered trade, which is closed at the day's last close.
- **Unified comparison** (`scripts/compare_strategies_unified.py`). Module
  `UnifiedComparison`. A fixed intraday estimate, plus a flat or long toggle on each daily
  close against the EMA of the twenty closes before it.
- **Day grouping** (`group_by_day` in `scripts/fetch_tv_data.py`). Module `DayGrouping`. An
  order-preserving partition of candles by date key.

## How the model is built

Code that changes variables step by step becomes a `method` with a loop, and that method is
proved equal to a specification function. The properties are then proved about the function.
- The candle loop of the upgraded engine is `UpgradedEngine.RunDay`. It is proved to compute
  the recursive function `UpgradedEngine.Session`.
- The day loop is `UpgradedSymbol.ProcessSymbolWithFilters`. It is proved to compute
  `Summarize(Run(...))`, where `Run` is a fold of `StepDay`.

Both candle loops take the entry rule and the trade executor as function parameters, so that
the loop proofs do not carry the indicator arithmetic. The validators' own instances are:
- `UpgradedEngine.DecideOn` and `IntradayEngine.Signal` for the entry rule;
- `IntradayTrade.DayExecutor(SCRIPT_FILL, ...)` for the executor. Its exit scan fills a
  stopped trade as the scripts write it, and it is what `UpgradedEngine.CloseTrade` and
  `TrailingExit.SimulateExit` compute. `DayExecutor(WorstCase, ...)` is the corrected
  executor (see "## Findings"); the loops and their lemmas hold for it as well.

A Python dict that the scripts fill in insertion order becomes one of two things:
- a `map` together with the sequence of its keys (`DayGrouping.GroupByDay`);
- a `map<string, real>` that is reassigned (`daily_returns`).

The engines also return the list of trades they took. The scripts do not keep this list. The
model uses it to state what the counters in the report add up to.

## Model

| member | source | states |
|---|---|---|
| Candles.Trunc | scripts/validate_upgraded.py:359 | Python's `int()` truncates toward zero: for a non-negative argument the result is the largest integer not above it, and a negative argument never gives a positive result |
| Candles.BudgetCoversRisk | scripts/validate_upgraded.py:358-362 | a quantity `int(budget / risk) >= 1` risks at most the budget in total, and the budget is then positive |
| Candles.BudgetBelowNextShare | scripts/validate_upgraded.py:358-359 | `int(budget / risk)` is the largest such count: one more share would exceed the budget |
| Candles.Tail | scripts/validate_upgraded.py:76 | Python's `s[-n:]`: the last `min(n, len)` elements of `s`, as a suffix |
| Candles.Closes | scripts/validate_upgraded.py:102 | the list of closes, position by position |
| Candles.TrueRange | scripts/validate_upgraded.py:62-70 | the true range is at least each of its three terms, so it is never negative |
| Candles.TrueRanges | scripts/validate_upgraded.py:60-71 | one true range per candle after the first, each taken against its predecessor's close, all non-negative; empty for fewer than two candles |
| Candles.MaxHigh | scripts/validate_upgraded.py:348 | the highest high bounds every high and is attained by some candle |
| Candles.MinLow | scripts/validate_upgraded.py:349 | the lowest low bounds every low and is attained by some candle |
| IntradayIndicators.Multiplier | scripts/validate_upgraded.py:47 | the smoothing factor `2 / (period + 1)` lies in (0, 1] |
| IntradayIndicators.SeededEma | scripts/validate_upgraded.py:42-53 | 0 for fewer than `period` prices; the plain mean for exactly `period` prices |
| IntradayIndicators.CalculateEma | scripts/validate_upgraded.py:42-53 | the loop that seeds with the mean of the first `period` prices and then applies the recurrence computes SeededEma |
| IntradayIndicators.EmaFoldBounds | scripts/validate_upgraded.py:50-51 | the recurrence keeps the average inside any interval that holds the seed and every price |
| IntradayIndicators.SeededEmaBounds | scripts/validate_upgraded.py:42-53 | once defined, the EMA lies between the smallest and the largest price |
| IntradayIndicators.EmaFoldPositive | scripts/validate_upgraded.py:50-51 | the recurrence over positive prices from a positive seed stays positive |
| IntradayIndicators.SeededEmaPositive | scripts/validate_upgraded.py:42-53 | once defined, the EMA of positive prices is positive |
| IntradayIndicators.SeededEmaOfConstant | scripts/validate_upgraded.py:42-53 | a constant series has that constant as its EMA |
| IntradayIndicators.RecentAtr | scripts/validate_upgraded.py:55-76 | the ATR is never negative |
| IntradayIndicators.RecentAtrIsTailMean | scripts/validate_upgraded.py:73-76 | for two or more candles the ATR is the mean of the last `min(period, n - 1)` true ranges |
| IntradayIndicators.CalculateAtr | scripts/validate_upgraded.py:55-76 | the loop that appends a true range per candle, followed by the tail mean, computes RecentAtr |
| UpgradedSignals.LowVolatilityMeansNarrowFirstHour | scripts/validate_upgraded.py:82-91 | a day is quiet exactly when the ATR is positive, the first hour is not empty and no high-to-low span across its candles reaches 0.4 ATR |
| UpgradedSignals.TrendGateOnlyChecksHistory | scripts/validate_upgraded.py:97-110 | with the slope threshold at 0, the trend gate passes exactly when there are at least `ema_period + 10` candles and the past EMA is not 0 |
| UpgradedSignals.TrendGatePassesPositiveCloses | scripts/validate_upgraded.py:97-110 | so with positive closes and enough history the gate always passes |
| UpgradedSignals.HasEntryConfirmation | scripts/validate_upgraded.py:116-131 | `(False, 0, 0)` for fewer than ten candles |
| UpgradedSignals.ConfirmationNeverHolds | scripts/validate_upgraded.py:116-131 | the ten-candle window contains the current candle, so when its close lies in its own range the confirmation never holds, in either direction |
| UpgradedSignals.TrendStrength | scripts/validate_upgraded.py:145-148 | the trend-strength component lies in [0, 1] |
| UpgradedSignals.PullbackDepth | scripts/validate_upgraded.py:155-160 | the depth, taken from whichever end of the range is further away, is at least 0.5 |
| UpgradedSignals.PullbackScore | scripts/validate_upgraded.py:150-168 | the pullback component lies in [0, 1] |
| UpgradedSignals.Volumes | scripts/validate_upgraded.py:172 | the list of volumes, position by position |
| UpgradedSignals.VolumeScore | scripts/validate_upgraded.py:171-177 | the volume component is at most 1, and it is not negative when the last volume is not negative |
| UpgradedSignals.TradeQuality | scripts/validate_upgraded.py:137-181 | 0 below 39 candles; in [0, 1] whenever the last volume is not negative, as the docstring promises |
| UpgradedSignals.ClassifyTrend | scripts/validate_upgraded.py:198-203 | 'UP' exactly when fast > slow and close > slow, and 'DOWN' exactly in the mirrored case |
| UpgradedSignals.PullbackBetweenEmas | scripts/validate_upgraded.py:205-212 | a pullback needs a positive ATR and puts the close strictly between the EMAs, between 0.6 and 2 ATR from the fast one |
| UpgradedSignals.Atr | scripts/validate_upgraded.py:196 | the detection ATR is never negative |
| UpgradedSignals.DetectTrendAndPullback | scripts/validate_upgraded.py:187-214 | ('NEUTRAL', False) below 39 candles; a pullback is only reported for a non-neutral trend |
| UpgradedSignals.TrendAndPullbackConditions | scripts/validate_upgraded.py:187-214 | with enough history, 'UP' and 'DOWN' are each reported exactly under their own EMA condition, and a reported pullback lies 0.6 to 2 ATR from the fast EMA, on the slow EMA's side |
| TrailingExit.Ratchet | scripts/validate_upgraded.py:372-380 | the trailing stop never falls for 'UP' and never rises for 'DOWN' |
| TrailingExit.StopFillAsWritten | scripts/validate_upgraded.py:372-383 | the as-written fill is at least both the stop and the open, less slippage, and equals one of them, for 'UP' (mirrored for 'DOWN'): `max(stop, open) - slip`, the better price for the trade |
| TrailingExit.AsWrittenFillIsOptimistic | scripts/validate_upgraded.py:376 | concrete candles where the as-written long fill is above the worst-case one, and one where it is above the candle's high |
| TrailingExit.StopFill | scripts/validate_upgraded.py:372-383 | the corrected fill is the worse of stop and open for the trade, with slippage against it |
| TrailingExit.WindowEnd | scripts/validate_upgraded.py:369 | the scan ends after the entry, inside the day, and at most 39 candles past the entry |
| TrailingExit.SimulateExit | scripts/validate_upgraded.py:365-383 | the exit loop (ratchet, touch test, fill at `max(stop, open) - slip` or `min(stop, open) + slip`, break; otherwise the day's last close) computes ExitPrice under the as-written fill rule |
| TrailingExit.ScanStopMonotone | scripts/validate_upgraded.py:369-383 | under either fill rule, after a scan the stop has moved only in the trade's favour |
| TrailingExit.ScanFillBound | scripts/validate_upgraded.py:369-383 | the stop a stopped trade hit has moved only in the trade's favour; the worst-case fill is no better than that stop beyond slippage, the as-written fill no worse |
| TrailingExit.ScanStoppedAt | scripts/validate_upgraded.py:369-383 | a stopped scan was stopped by one of its candles touching the final stop, and its price is that candle's fill under the rule |
| TrailingExit.ExitPriceBound | scripts/validate_upgraded.py:365-383 | an unstopped trade exits at the day's last close; a stopped one at a candle strictly after the entry and inside the scan range that touches the final stop, at `max(stop, open) - slip` for 'UP' as written (`min` under the worst-case rule), mirrored with `+ slip` for 'DOWN' |
| TrailingExit.ScanRulesAgree | scripts/validate_upgraded.py:369-383 | both fill rules stop at the same candle with the same stop, and the as-written fill is never worse for the trade |
| TrailingExit.AsWrittenExitNoWorse | scripts/validate_upgraded.py:365-383 | the as-written exit price is at least the worst-case one for 'UP' and at most it for 'DOWN' |
| TrailingExit.ExitIgnoresPast | scripts/validate_upgraded.py:369 | under either fill rule, the exit reads no candle at or before the entry: two days that agree after index i give the same exit |
| IntradayTrade.SizeEntry | scripts/validate_intraday.py:125-146 | an entry keeps the signal's direction, has a positive risk equal to the distance from entry to stop, a budget of 0.3% of equity, and the truncated quantity, which is at least 1 |
| IntradayTrade.EntryFitsBudget | scripts/validate_intraday.py:142-146 | a sized entry risks at most its budget, and that budget is positive |
| IntradayTrade.SlippageIsAdverse | scripts/validate_intraday.py:126-128 | a long pays at least the close, and a short sells at most at the close |
| IntradayTrade.StopIsProtective | scripts/validate_intraday.py:131-136 | for well-formed candles the stop is below the entry for 'UP' and above it for 'DOWN' |
| IntradayTrade.Costs | scripts/validate_intraday.py:170-172 | costs are at least the two brokerage legs, so `net <= gross - 40`, and a trade nets a profit only when its gross clears 40 |
| IntradayTrade.Lookback | scripts/validate_intraday.py:118 | the signal window is non-empty, at most 61 candles, and ends at the decision candle |
| IntradayTrade.LookbackIsPast | scripts/validate_intraday.py:118 | the signal window is a suffix of the candles up to and including i: no lookahead |
| IntradayTrade.DayExecutor | scripts/validate_intraday.py:149-172 | the executor stamps the candle index, the entry, the equity, the day index and the key, and inside the day it is the exit scan under the given fill rule followed by the cost model |
| IntradayTrade.AsWrittenNetNoWorse | scripts/validate_intraday.py:149-172 | a trade filled as written nets at least what the worst-case fill gives it, so the reported P&L is never below the corrected one trade by trade |
| IntradayTrade.CountWins | scripts/validate_intraday.py:185-186 | wins never outnumber trades |
| IntradayTrade.SumNetAppend | scripts/validate_intraday.py:176 | the summed P&L of two runs of trades is the sum of their sums |
| Ledger.Start | scripts/validate_intraday.py:98-103 | the opening accumulators are consistent |
| Ledger.Record | scripts/validate_intraday.py:174-186 | one trade advances trades, P&L and equity by the trade; the peak covers the new equity; peak and maximum drawdown never decrease; the maximum covers the current drawdown |
| Ledger.RecordConsistent | scripts/validate_intraday.py:174-186 | recording keeps `equity = capital + pnl`, the peak at or above the capital and the equity, `max_dd >= 0` and `wins <= trades` |
| Ledger.RecordAll | scripts/validate_intraday.py:174-186 | recording a list of trades adds their count, their summed net and their wins, and never lowers the peak or the maximum drawdown |
| Ledger.RecordAllConsistent | scripts/validate_intraday.py:174-186 | recording any list of trades keeps the accumulators consistent |
| Ledger.EquityIsCapitalPlusPnl | scripts/validate_intraday.py:174-177 | from the start, equity is the capital plus the summed net, trades is the length of the list, wins are at most the trades, and `max_dd >= 0` |
| Ledger.RecordAllAppend | scripts/validate_intraday.py:174-186 | recording two runs of trades one after the other is recording their concatenation |
| Ledger.WinRate | scripts/validate_intraday.py:191 | 0 without trades, and in [0, 100] when wins are at most trades |
| Ledger.Average | scripts/validate_intraday.py:193 | 0 without trades; otherwise times the count it gives the total back |
| Ledger.AddReturn | scripts/validate_intraday.py:188 | the key is present afterwards and holds its old value (0 if absent) plus the net; no other key changes |
| Ledger.AddReturnsIsDayTotal | scripts/validate_intraday.py:188 | booking a day's trades one by one adds the day's summed net to its entry, and adds no entry for a day without trades |
| TradeLog.SizedFromAppend | scripts/validate_intraday.py:142 | trades sized from the equity left by an earlier chained run extend that run's chain |
| TradeLog.DayKeysBound | scripts/validate_intraday.py:206 | a list of trades spans no more days than it has trades |
| TradeLog.BookingReplays | scripts/validate_intraday.py:174-188 | booking one day's trades in the tally and the daily returns keeps the ledger the replay of the log |
| TradeLog.KeysAfterBooking | scripts/validate_intraday.py:188 | the keys of the daily returns are exactly the days that traded |
| TradeLog.LoggedAfterBooking | scripts/validate_intraday.py:106-116 | appending one day's trades, at most two of them and in candle order, keeps the log in time order with at most two trades a day |
| IntradayEngine.DetectTrend | scripts/validate_intraday.py:63-77 | 'NEUTRAL' below 39 candles; otherwise 'UP' exactly when fast > slow and close > slow, and 'DOWN' exactly in the mirrored case |
| IntradayEngine.DetectTrendAgrees | scripts/validate_intraday.py:63-77 | detect_trend gives the same label as detect_trend_and_pullback of the upgraded validator |
| IntradayEngine.Signal | scripts/validate_intraday.py:119-146 | no entry on a neutral trend; an entry goes in the detected direction with positive risk and the truncated quantity of at least 1 |
| IntradayEngine.Session | scripts/validate_intraday.py:114-116 | the candle loop never returns fewer trades than it started with, and never more than two a day |
| IntradayEngine.SessionExtends | scripts/validate_intraday.py:114-188 | the trades the loop starts with are a prefix of those it returns |
| IntradayEngine.SessionSkipStep | scripts/validate_intraday.py:121-146 | a candle without an entry moves the loop on at the same equity |
| IntradayEngine.SessionEnterStep | scripts/validate_intraday.py:124-177 | an entry appends its executed trade and moves on with equity grown by its net |
| IntradayEngine.SessionEnds | scripts/validate_intraday.py:114-116 | at the last five candles of the day, or with two trades taken, the loop stops and adds nothing |
| IntradayEngine.TakeCandle | scripts/validate_intraday.py:118-188 | one pass of the loop body keeps the tally and the daily returns equal to recording the trades so far, and preserves the loop's eventual result |
| IntradayEngine.RunDay | scripts/validate_intraday.py:112-188 | the candle loop returns exactly Session's trades, with the tally and daily returns having recorded them |
| IntradayEngine.Initial | scripts/validate_intraday.py:98-104 | the loop starts with consistent accumulators at the capital, no trades and no daily returns |
| IntradayEngine.DayTrades | scripts/validate_intraday.py:109-116 | a day adds at most two trades, and none when it has fewer than 75 candles |
| IntradayEngine.StepDay | scripts/validate_intraday.py:106-188 | a day never lowers the peak or the maximum drawdown |
| IntradayEngine.Run | scripts/validate_intraday.py:106-188 | the peak stays at or above the capital |
| IntradayEngine.Summarize | scripts/validate_intraday.py:191-207 | the report copies trades, wins and P&L, gives return and drawdown in percent and the number of traded days, and guards win rate and average against zero trades |
| IntradayEngine.ProcessDay | scripts/validate_intraday.py:106-188 | one pass of the day loop computes StepDay |
| IntradayEngine.ProcessSymbol | scripts/validate_intraday.py:97-207 | the day loop followed by the metrics computes `Summarize(Run(days))` |
| IntradayProperties.ChainedIsDayLog | scripts/validate_intraday.py:112-188 | trades that are chained one by one, and at most two, form a day log |
| IntradayProperties.ChainedSnoc | scripts/validate_intraday.py:124-177 | the trade entered at a later candle, at the equity left so far, keeps the day's trades chained |
| IntradayProperties.SessionIsChained | scripts/validate_intraday.py:114-188 | induction over the candle loop: its trades are chained from the day's opening equity |
| IntradayProperties.EnterStepChained | scripts/validate_intraday.py:124-177 | the entry step of that induction keeps the chain and the equity |
| IntradayProperties.DayTradesAreDayLog | scripts/validate_intraday.py:112-188 | the trades of a day are each taken at a candle between 64 and the sixth from last, by the rule at the equity left by the earlier trades, in candle order, at most two |
| IntradayProperties.SignalTradeIsSized | scripts/validate_intraday.py:119-146 | a trade taken on Signal has a non-neutral trend, positive risk, at least one share, and risks at most 0.3% of a positive equity |
| IntradayProperties.DayTradesLogged | scripts/validate_intraday.py:109-116 | a day's trades form its day log and carry the day's index and key, and only a day of at least 75 candles adds any |
| IntradayProperties.StepDayReplayed | scripts/validate_intraday.py:174-188 | every day keeps the ledger the replay of the log |
| IntradayProperties.RunReplayed | scripts/validate_intraday.py:106-188 | the ledger of a run is the replay of its trade log |
| IntradayProperties.StepDayChained | scripts/validate_intraday.py:142 | every day keeps each trade sized from the equity that all earlier trades left |
| IntradayProperties.RunEquityChained | scripts/validate_intraday.py:142-177 | in a run, each trade is sized from the capital plus the net of all earlier trades |
| IntradayProperties.StepDayLogged | scripts/validate_intraday.py:106-116 | every day keeps the log in time order, taken day by day, at most two trades a day |
| IntradayProperties.RunLoggedUpTo | scripts/validate_intraday.py:106-116 | the log after n days is logged over those days |
| IntradayProperties.RunLogged | scripts/validate_intraday.py:106-116 | every trade of a run was taken on its own day of at least 75 candles by that day's loop; the trades are in time order, at most two a day |
| IntradayProperties.RunTradesAreSized | scripts/validate_intraday.py:136-172 | every trade of a run has a non-neutral trend, at least one share, risk within 0.3% of a positive equity, and `net <= gross - 40` |
| IntradayProperties.ReportOfRun | scripts/validate_intraday.py:191-207 | the report reads off the trade log: counts, wins at most trades, P&L and return, win rate in [0, 100], `max_dd >= 0`, the average, and traded days at most the trades |
| UpgradedEngine.DecideOnGates | scripts/validate_upgraded.py:311-362 | every entry has passed the trend gate, a pullback in the detected direction, the confirming candle and the quality threshold, and is sized within 0.3% of a positive equity; the trend-gate and quality skips happen exactly when their own gate fails |
| UpgradedEngine.DecideNoLookahead | scripts/validate_upgraded.py:311-345 | the decision at candle i depends only on the candles up to i |
| UpgradedEngine.SumRAppend | scripts/validate_upgraded.py:391-392 | summed R-multiples of two runs of trades add up |
| UpgradedEngine.Booked | scripts/validate_upgraded.py:394-397 | a taken trade is appended and its net added to `daily_pnl`; the skip counters and the loss flag do not change |
| UpgradedEngine.Skipped | scripts/validate_upgraded.py:313-340 | a skip raises only the counter of its reason (trend gate or quality) |
| UpgradedEngine.SessionStops | scripts/validate_upgraded.py:300-309 | once the day is at its last five candles, has two trades, or has `daily_pnl <= -1%` of equity, no further trade is taken |
| UpgradedEngine.SessionSkipStep | scripts/validate_upgraded.py:313-340 | a skipped candle moves the loop on at the same equity with its counter raised |
| UpgradedEngine.SessionEnterStep | scripts/validate_upgraded.py:342-409 | an entry books its executed trade and moves on with equity grown by its net |
| UpgradedEngine.CloseTrade | scripts/validate_upgraded.py:365-388 | the exit scan and P&L block compute the trade of the day executor under the as-written fill |
| UpgradedEngine.RunDay | scripts/validate_upgraded.py:299-409 | the candle loop returns Session's result, with the tally, the daily returns and the R-multiple total having recorded exactly its trades |
| UpgradedEngine.DecideCandle | scripts/validate_upgraded.py:311-409 | one pass of the loop body keeps the accumulators equal to recording the trades so far, and preserves the loop's result |
| UpgradedProperties.ChainedOrdered | scripts/validate_upgraded.py:300 | chained trades end with the latest entry candle |
| UpgradedProperties.ChainedEquity | scripts/validate_upgraded.py:394-398 | along chained trades the equity is the opening equity plus the summed net |
| UpgradedProperties.ChainedIsDayLog | scripts/validate_upgraded.py:300-409 | chained trades, at most two, form a day log |
| UpgradedProperties.ChainedSnoc | scripts/validate_upgraded.py:342-409 | an entry taken while `daily_pnl` is above -1% of equity keeps the day's trades chained |
| UpgradedProperties.SessionInduction | scripts/validate_upgraded.py:300-409 | any invariant that every decided candle keeps, and that gives a goal wherever the loop stops, gives that goal for the loop's result |
| UpgradedProperties.SessionChained | scripts/validate_upgraded.py:300-409 | the trades of a day are chained from its opening equity, at most two, and `daily_pnl` is the equity they gained |
| UpgradedProperties.DayTradesAreDayLog | scripts/validate_upgraded.py:300-409 | each trade of a day was taken by the rule at its candle, at the equity left by the earlier ones, while `daily_pnl` stayed above -1%, in candle order, at most two |
| UpgradedSymbol.Initial | scripts/validate_upgraded.py:238-259 | the loop starts at the capital, with the rolling peak at the capital, no kill switch, no trades and no returns |
| UpgradedSymbol.AddDay | scripts/validate_upgraded.py:305-309 | a traded day counts one daily-loss breach exactly when its loop stopped on the limit, and does not touch the volatility, confirmation or kill-switch counters |
| UpgradedSymbol.StepDay | scripts/validate_upgraded.py:261-297 | a day never lowers the peak |
| UpgradedSymbol.OpenDay | scripts/validate_upgraded.py:291-409 | a day past the kill switch raises the volatility and breach counters by at most one together, and leaves the others alone |
| UpgradedSymbol.Run | scripts/validate_upgraded.py:261-409 | the peak stays at or above the capital |
| UpgradedSymbol.Summarize | scripts/validate_upgraded.py:411-439 | the report copies counts and risk counters, gives return and drawdown in percent, and guards win rate, average P&L and average R against zero trades |
| UpgradedSymbol.ProcessDay | scripts/validate_upgraded.py:261-297 | one pass of the day loop (short-day skip, kill switch, rolling peak) computes StepDay |
| UpgradedSymbol.ProcessOpenDay | scripts/validate_upgraded.py:291-409 | the volatility filter and the candle loop compute OpenDay |
| UpgradedSymbol.ProcessSymbolWithFilters | scripts/validate_upgraded.py:237-439 | the day loop followed by the metrics computes `Summarize(Run(rule, days))` |
| UpgradedSymbolProperties.StepDayBooks | scripts/validate_upgraded.py:261-409 | a day appends its trades to the log and books exactly those in the tally, the daily returns and the R total |
| UpgradedSymbolProperties.DayTradesLogged | scripts/validate_upgraded.py:261-309 | a day's trades form its day log and carry its index and key, and only a trading day (long enough, not paused, below the 5% drawdown, not quiet) adds any |
| UpgradedSymbolProperties.ReplayedEquity | scripts/validate_upgraded.py:394-398 | under replay, equity is the capital plus the log's net |
| UpgradedSymbolProperties.BookingReplayed | scripts/validate_upgraded.py:394-409 | booking a day's trades keeps the ledger the replay of the log |
| UpgradedSymbolProperties.StepDayReplayed | scripts/validate_upgraded.py:261-409 | every day keeps the ledger the replay of the log |
| UpgradedSymbolProperties.RunReplayed | scripts/validate_upgraded.py:261-409 | the ledger of a run is the replay of its trade log |
| UpgradedSymbolProperties.StepDayChained | scripts/validate_upgraded.py:358 | every day keeps each trade sized from the equity all earlier trades left |
| UpgradedSymbolProperties.RunEquityChained | scripts/validate_upgraded.py:358-398 | in a run, each trade is sized from the capital plus the net of all earlier trades |
| UpgradedSymbolProperties.DayTradesTaken | scripts/validate_upgraded.py:261-309 | each trade a day adds was taken on that day |
| UpgradedSymbolProperties.StepDayLogged | scripts/validate_upgraded.py:261-409 | every day keeps the log in time order, at most two trades a day |
| UpgradedSymbolProperties.RunLoggedUpTo | scripts/validate_upgraded.py:261-409 | the log after n days is logged over those days |
| UpgradedSymbolProperties.RunLogged | scripts/validate_upgraded.py:261-409 | every trade of a run was taken by that day's loop on its own day, of at least 75 candles and not quiet; the trades are in time order, at most two a day |
| UpgradedSymbolProperties.RunTradesPassGates | scripts/validate_upgraded.py:311-388 | every trade of the validator's own rule passed every gate of its signal window, risks at most 0.3% of a positive equity, and has `net <= gross - 40` under the cost model |
| UpgradedSymbolProperties.RunPrefixStep | scripts/validate_upgraded.py:261 | a run's state after n days is one more day on its state after n - 1 days |
| UpgradedSymbolProperties.HaltedStep | scripts/validate_upgraded.py:272-289 | from a state at or past the 5% rolling drawdown, a day books nothing and moves neither the equity nor the rolling peak, so the state stays halted |
| UpgradedSymbolProperties.Triggered | scripts/validate_upgraded.py:278-285 | the switch fires only from a halted state on a day of at least 75 candles, and then only pauses the symbol until day d + 5 and counts one trigger |
| UpgradedSymbolProperties.KillSwitchIsFinal | scripts/validate_upgraded.py:272-289 | once halted, no later day trades or moves the ledger |
| UpgradedSymbolProperties.KillSwitchPauses | scripts/validate_upgraded.py:272-274 | after the switch fires on day d, days d + 1 to d + 4 change nothing at all |
| UpgradedSymbolProperties.NoTradeAfterTrigger | scripts/validate_upgraded.py:272-289 | once the switch fires on day d, neither that day nor any later one adds a trade |
| UpgradedSymbolProperties.StepDayCounters | scripts/validate_upgraded.py:250-309 | a day leaves the confirmation counter alone and raises the volatility, kill-switch and breach counters by at most one together |
| UpgradedSymbolProperties.RunCounters | scripts/validate_upgraded.py:250-309 | the confirmation counter stays 0, and the other three day-level counters add up to at most the number of days |
| UpgradedSymbolProperties.ReplayedReport | scripts/validate_upgraded.py:411-439 | the summary of a replayed state reads off its trade log |
| UpgradedSymbolProperties.ReportOfRun | scripts/validate_upgraded.py:411-439 | the report reads off the trade log: counts, wins at most trades, P&L and return, win rate in [0, 100], `max_dd >= 0`, the averages, traded days at most the trades, and the risk counters |
| SwingIndicators.FirstSeededEma | scripts/validate_swing.py:20-26 | 0 for no prices or fewer than `period` prices; a single price is its own EMA |
| SwingIndicators.CalculateEma | scripts/validate_swing.py:20-26 | the loop seeded with the first price computes FirstSeededEma |
| SwingIndicators.SwingFoldBounds | scripts/validate_swing.py:24-25 | the recurrence keeps the average inside any interval that holds the seed and every price |
| SwingIndicators.FirstSeededEmaBounds | scripts/validate_swing.py:20-26 | once defined, the EMA lies between the smallest and the largest price |
| SwingIndicators.FirstSeededEmaOfConstant | scripts/validate_swing.py:20-26 | a constant series has that constant as its EMA |
| SwingIndicators.WindowAtr | scripts/validate_swing.py:28-35 | 0 below `period + 1` candles, never negative |
| SwingIndicators.TrueRangesPrefixSnoc | scripts/validate_swing.py:31-34 | each pass adds that candle's true range to `tr_sum` |
| SwingIndicators.CalculateAtr | scripts/validate_swing.py:28-35 | the accumulating loop divided by `n - 1` computes WindowAtr, the mean of ALL true ranges of the window |
| SwingEngine.EntryWindow | scripts/validate_swing.py:62 | the entry window is 51 candles ending at the current one |
| SwingEngine.EntryAtr | scripts/validate_swing.py:66 | the entry ATR is never negative |
| SwingEngine.SetupAt | scripts/validate_swing.py:62-72 | the setup carries the current close and a non-negative ATR |
| SwingEngine.SizeQty | scripts/validate_swing.py:79 | a quantity of at least 1 means positive risk and equity, with the total risk within 1% of equity; one more share would exceed it |
| SwingEngine.OpenLong | scripts/validate_swing.py:60-84 | a long opens exactly on the pullback setup (fast > slow, close > fast, a recent low below fast) with a positive quantity, at `close * 1.002`, with the stop 2 ATR below and `qty = int(equity * 0.01 / risk)`; the down branch opens nothing |
| SwingEngine.TrailAtr | scripts/validate_swing.py:88-89 | the management ATR is never negative |
| SwingEngine.Trail | scripts/validate_swing.py:92-94 | the stop never falls, and moves only to `high - 2.5 ATR` once the high clears the entry by 2.5 ATR |
| SwingEngine.ExitFill | scripts/validate_swing.py:98 | a stopped long fills at the lower of the stop and the open |
| SwingEngine.BarsTo | scripts/validate_swing.py:57 | the loop visits `n - 55` candles, none for fewer |
| SwingEngine.EnterLong | scripts/validate_swing.py:60-80 | the flat branch (indicators, trend check, pullback, sizing) computes OpenLong on the candle's setup |
| SwingEngine.EnterOn | scripts/validate_swing.py:69-80 | the entry block on given indicator values computes OpenLong |
| SwingEngine.ManageLong | scripts/validate_swing.py:86-111 | the management branch (trail, exit test, P&L with STT, booking) computes Manage |
| SwingEngine.DecideCandle | scripts/validate_swing.py:57-111 | one pass of the loop body computes Step on the candle's bar |
| SwingEngine.CandleLoop | scripts/validate_swing.py:47-111 | the candle loop from flat with opening counters leaves the books of `Run` over its bars |
| SwingEngine.ProcessSymbolSwing | scripts/validate_swing.py:44-116 | None exactly for no candles; otherwise the books of Run |
| SwingProperties.OpenLongIsSized | scripts/validate_swing.py:76-80 | an opened long has positive risk, at least one share, the stop one risk below the entry, and total risk within 1% of equity |
| SwingProperties.StepConsistent | scripts/validate_swing.py:57-111 | every candle keeps the books balanced and an open long sized against current equity |
| SwingProperties.RunConsistent | scripts/validate_swing.py:47-111 | every run is consistent |
| SwingProperties.FlatStepBooksNothing | scripts/validate_swing.py:60-84 | while flat a candle only decides the entry, so no trade exits on its entry candle |
| SwingProperties.LongStep | scripts/validate_swing.py:86-111 | a long closes exactly when the low reaches the trailed stop, fills no higher than stop and open, and books its net; otherwise it stays with the same entry, risk and quantity and a stop that has not fallen |
| SwingProperties.LossWithinBudget | scripts/validate_swing.py:76-101 | unless the exit candle opens below the stop, a stopped long loses at most its 1% risk budget before STT |
| SwingProperties.OpenCount | scripts/validate_swing.py:51 | at most one position is open |
| SwingProperties.RunTradeCount | scripts/validate_swing.py:57-111 | twice the trades plus the open position fit in the candles seen |
| SwingProperties.ReportBalances | scripts/validate_swing.py:103-116 | the report balances (`equity = capital + pnl`, `pnl = gross_profit - gross_loss`, both non-negative, wins at most trades), and at most one trade closes per two candles |
| Bookkeeping.Book | scripts/validate_swing.py:103-110 | a booked trade counts once, wins when positive, moves P&L and equity by its net, and raises gross profit or gross loss so that their difference moves by the net |
| Bookkeeping.OpeningBalanced | scripts/validate_swing.py:47-49 | the opening accounts balance |
| Bookkeeping.BookBalanced | scripts/validate_swing.py:103-110 | booking any trade keeps the accounts balanced |
| BaseBenchmark.DayIndex | scripts/validate_base_comparison.py:45-50 | one range per day |
| BaseBenchmark.DayIndexTiles | scripts/validate_base_comparison.py:45-50 | the ranges tile the concatenated list: inside it, the first starting at 0, the last ending at its length, each starting where the previous ends |
| BaseBenchmark.DayIndexSlices | scripts/validate_base_comparison.py:45-57 | each range slices out exactly its day's candles, under its day's key |
| BaseBenchmark.BuildIndex | scripts/validate_base_comparison.py:45-50 | the extend and append loop builds Concat and DayIndex |
| BaseBenchmark.Window | scripts/validate_base_comparison.py:64 | the window is 41 candles ending at g, across day boundaries |
| BaseBenchmark.SetupAt | scripts/validate_base_comparison.py:64-75 | the setup carries the current close and a non-negative ATR |
| BaseBenchmark.Enter | scripts/validate_base_comparison.py:71-83 | an entry happens exactly when ATR > 0 and `int(equity * 0.003 / (2 ATR)) >= 1`; 'UP' exactly when fast > slow, otherwise 'DOWN'; entry at the close, the stop 2 ATR on the losing side |
| BaseBenchmark.EntryFitsBudget | scripts/validate_base_comparison.py:82-83 | the quantity is the largest whole number of shares within the 0.3% budget |
| BaseBenchmark.EnterOn | scripts/validate_base_comparison.py:68-83 | the entry block with its `continue`s computes Enter |
| BaseBenchmark.SignalAt | scripts/validate_base_comparison.py:60-83 | one pass up to the decision (warm-up skip, indicators, entry) computes Signal |
| BaseBenchmark.NetBelowGross | scripts/validate_base_comparison.py:89-92 | costs are at least 40 at non-negative prices, so `net <= gross - 40` |
| BaseBenchmark.ShortMirrorsLong | scripts/validate_base_comparison.py:89-91 | a short's gross is the long's gross negated, and it pays STT on its entry value |
| BaseBenchmark.DaySignals | scripts/validate_base_comparison.py:60-83 | one decision per candle looked at |
| BaseBenchmark.FirstSignalIsFirst | scripts/validate_base_comparison.py:60-103 | the break takes the FIRST candle with an entry, and none when no candle has one |
| BaseBenchmark.TradeOfDay | scripts/validate_base_comparison.py:56-103 | a day trades only with at least 20 candles, exits at its last close, and nets Net |
| BaseBenchmark.DecideCandle | scripts/validate_base_comparison.py:60-83 | one pass computes that candle's decision |
| BaseBenchmark.FindEntry | scripts/validate_base_comparison.py:60-103 | the candle loop with its break finds FirstSignal |
| BaseBenchmark.BookTrade | scripts/validate_base_comparison.py:89-101 | the booking block computes Book with the trade's net |
| BaseBenchmark.TradeDay | scripts/validate_base_comparison.py:56-103 | one pass of the day loop computes AfterDay |
| BaseBenchmark.ProcessSymbolBase | scripts/validate_base_comparison.py:45-108 | the index loop, then the day loop, computes RunDays over the index |
| BaseBenchmark.TradeableDays | scripts/validate_base_comparison.py:58 | at most the number of days |
| BaseBenchmark.RunDaysBalanced | scripts/validate_base_comparison.py:56-103 | the books balance, and the trades never outnumber the days of at least 20 candles |
| BaseBenchmark.TradeOfDayEntry | scripts/validate_base_comparison.py:60-62 | a trade is entered on a candle before the day's last, at global index 40 or more |
| BaseBenchmark.DayTradeStaysInItsDay | scripts/validate_base_comparison.py:56-86 | in terms of the loaded days: a day's trade is entered on one of its own candles other than the last, at least 40 candles into the list, and closed at that day's last close |
| UnifiedComparison.LastDays | scripts/compare_strategies_unified.py:47 | `s[-d:]`: the last d elements, except that d = 0 gives the whole list |
| UnifiedComparison.IntradayEstimate | scripts/compare_strategies_unified.py:51 | the intraday figure is `-0.005 * CAPITAL * days_back / 20`, a loss of 125 per day of the window, never positive and independent of the data |
| UnifiedComparison.ReportedSwing | scripts/compare_strategies_unified.py:70 | the reported swing figure is `0.998 * swing_pnl`, same sign, no larger in magnitude |
| UnifiedComparison.PriorEmaIsPast | scripts/compare_strategies_unified.py:59-60 | the EMA at candle i reads only the candles before i |
| UnifiedComparison.Points | scripts/compare_strategies_unified.py:57-60 | one point per candle from the twentieth on |
| UnifiedComparison.PointsAt | scripts/compare_strategies_unified.py:57-60 | each point is the candle's close and the EMA of the twenty closes BEFORE it |
| UnifiedComparison.RunToggle | scripts/compare_strategies_unified.py:54-66 | while long, the entry close is positive |
| UnifiedComparison.ToggleStepCases | scripts/compare_strategies_unified.py:61-66 | entry exactly when flat and close > EMA (at that close); exit exactly when long and close < EMA; the P&L moves only on an exit, by `(close - tp) * CAPITAL / tp`; otherwise nothing changes |
| UnifiedComparison.ExitLossBelowCapital | scripts/compare_strategies_unified.py:65 | an exit at a positive close loses less than CAPITAL |
| UnifiedComparison.ToggleAlternates | scripts/compare_strategies_unified.py:57-66 | entries and exits alternate: entries are the exits plus one while long |
| UnifiedComparison.ToggleLossBound | scripts/compare_strategies_unified.py:54-66 | the P&L is 0 until the first exit and at least `-CAPITAL` times the number of exits |
| UnifiedComparison.PointsPositive | scripts/compare_strategies_unified.py:57-65 | positive daily closes give positive point closes |
| UnifiedComparison.LastDaysPositive | scripts/compare_strategies_unified.py:47 | the last days of a positively priced list are positively priced |
| UnifiedComparison.SwingToggle | scripts/compare_strategies_unified.py:54-66 | the toggle loop computes RunToggle's P&L over the points |
| UnifiedComparison.RunToggleSnoc | scripts/compare_strategies_unified.py:57-66 | one more candle is one more toggle step |
| UnifiedComparison.EmaBefore | scripts/compare_strategies_unified.py:59-60 | the EMA of the twenty prior closes |
| UnifiedComparison.ToggleCandle | scripts/compare_strategies_unified.py:58-66 | one pass of the toggle loop computes ToggleStep on the candle's point |
| UnifiedComparison.ToggleOn | scripts/compare_strategies_unified.py:61-66 | the if/elif on one close computes ToggleStep |
| UnifiedComparison.CompareOne | scripts/compare_strategies_unified.py:40-71 | one symbol's row: the estimate and the reported toggle P&L over its last days |
| UnifiedComparison.Totals | scripts/compare_strategies_unified.py:81-82 | the totals are the sums of the two columns |
| UnifiedComparison.RunStandardizedTest | scripts/compare_strategies_unified.py:25-82 | one row per test symbol, each that symbol's comparison, and the totals as the column sums |
| UnifiedComparison.IntradayTotalIgnoresData | scripts/compare_strategies_unified.py:81 | the intraday total is the symbol count times the estimate, whatever the data |
| DayGrouping.DayKey | scripts/fetch_tv_data.py:74-75 | the key is a ten-character prefix of the timestamp |
| DayGrouping.OnDay | scripts/fetch_tv_data.py:77-79 | a group holds only candles of its date |
| DayGrouping.DayKeys | scripts/fetch_tv_data.py:77-78 | there are no more groups than candles |
| DayGrouping.GroupSnoc | scripts/fetch_tv_data.py:73-79 | one more candle extends its own day's group and no other, and adds its key only if new |
| DayGrouping.KeysAreTheDays | scripts/fetch_tv_data.py:77-79 | a date is a key exactly when some candle falls on it, so no group is empty |
| DayGrouping.KeysDistinct | scripts/fetch_tv_data.py:77-78 | each key appears once |
| DayGrouping.GroupTotalSnoc | scripts/fetch_tv_data.py:79 | a candle adds one to the group sizes of distinct keys exactly when they hold its date |
| DayGrouping.GroupsPartition | scripts/fetch_tv_data.py:72-81 | the group sizes add up to the number of candles: none dropped or duplicated |
| DayGrouping.GroupByDay | scripts/fetch_tv_data.py:70-81 | the returned keys are the distinct dates in first-appearance order; the map holds exactly those keys, each with its date's candles in input order |
| DayGrouping.AddCandle | scripts/fetch_tv_data.py:73-79 | one pass keeps the grouping of the prefix seen so far |

## Left out

- Reading the JSON files, `os.listdir`, `os.path.exists`, sorting the symbol names, all
  printing, and the `main` functions. Those functions only aggregate and print the per-symbol
  reports, including the top-5 ranking. Each engine takes its symbol's candles or days as
  already loaded, in the order the script visits them.
- `sorted(days_data.keys())`: the engines take the days as a sequence already in sorted key
  order.
- Floating point. Prices and money are mathematical reals, so rounding in sums, EMAs and
  divisions is not modelled. `int()` is modelled as truncation toward zero (`Candles.Trunc`).
- The upgraded and unfiltered candle loops are proved generic in the entry rule and the
  executor. The validators' own instances are `DecideOn`, `Signal` and
  `DayExecutor(SCRIPT_FILL, ...)`.
  - `DayExecutor` gives a flat placeholder trade to a candle index past the day's end. The
    loops never enter there, because they stop five candles before the end.
- `has_entry_confirmation` is modelled, but it is not part of the decision. Its call in the
  loop is commented out, so `entry_confirmation_skips` stays 0 (`RunCounters`).
- UpgradedSignals.PullbackDepth: the source's `range_val <= 0` branch (score 0) is part of
  `PullbackScore`. The depth function itself requires a positive range, and only
  `PullbackScore` calls it.
- The trade log that the engines return is part of the model only. The scripts keep the
  counters alone.
- Swing engine (`scripts/validate_swing.py`):
  - `trend` is always "UP" once a position is open, so only the long branch is modelled.
  - `BROKERAGE` is declared but never used by the script.
  - The `lookback`, `closes` and `atr` locals that each branch overwrites are not kept.
- Base benchmark (`scripts/validate_base_comparison.py`):
  - The entry price carries no slippage. Slippage appears only as a cost.
  - The forty-one-candle window crosses day boundaries, as written.
  - `risk <= 0` cannot happen once ATR > 0. The model keeps the check anyway.
  - The report also carries equity; the script's dict does not.
- Unified comparison (`scripts/compare_strategies_unified.py`):
  - `start_date` and `datetime.now()` are only printed.
  - `days_15` is loaded but never used.
  - The five test symbols become an input sequence of daily candle lists.
  - `load_data` returning None for a missing file, which makes the script fail, is not
    modelled.
  - `[-0:]` returns the whole list, and `LastDays` models that.
  - `tp_price` is not reset on exit, as written.
  - The `comparisons` dict becomes a list of rows in the order of the test symbols. This
    is the same as the dict when the five symbols are distinct, as they are in the script.
- UnifiedComparison.SwingToggle, UnifiedComparison.CompareOne,
  UnifiedComparison.RunStandardizedTest: these require positive daily closes. An entry at
  a close of 0 makes the script divide by zero at the exit, and the model does not follow
  that crash.
- Day grouping (`scripts/fetch_tv_data.py`):
  - `datetime.fromisoformat` followed by `strftime("%Y-%m-%d")` is modelled as the first ten
    characters of the timestamp, which is what it gives for the exporter's ISO timestamps.
  - `fetch_symbol_data`, `main` and `scripts/fetch_tv_daily.py` (network calls, package
    installation and file writes) are not part of this model.
- DayGrouping.GroupByDay: requires every timestamp to have at least ten characters. A
  shorter one makes the script's parse raise, and the model does not follow that crash.
- `scripts/portfolio_validation.py` is not part of this model. It imports its indicators
  from `validate_daily_simple`, which is not part of this model either.
- `scripts/check_real_profit.py` is not part of this model. Its loop body does nothing.

## Findings

| source | as written | input that shows it | evidently intended | confidence | as-written member | corrected member |
|---|---|---|---|---|---|---|
| scripts/validate_upgraded.py:376 | a stopped long fills at `max(trailing_stop, open) - slip`, the better of stop and open | stop 100; the candle opens at 110 and trades down to 99, and fills at 110 (the stop was crossed at 100). A candle that gaps to open at 90 with a high of 92 fills at 100, above any price it traded at | fill at `min(stop, open) - slip`, the worse price, as the swing script does at scripts/validate_swing.py:98 | not executed | TrailingExit.StopFillAsWritten, TrailingExit.AsWrittenFillIsOptimistic | TrailingExit.StopFill, TrailingExit.ScanFillBound, TrailingExit.ExitPriceBound, TrailingExit.AsWrittenExitNoWorse, IntradayTrade.AsWrittenNetNoWorse |
| scripts/validate_intraday.py:160 | the same `max(trailing_stop, open) - slip` long fill, and `min(trailing_stop, open) + slip` for a short at line 166 | the same candles as the row above | `min` for a long and `max` for a short, with slippage against the trade | not executed | TrailingExit.StopFillAsWritten, TrailingExit.AsWrittenFillIsOptimistic | TrailingExit.StopFill, TrailingExit.ScanFillBound, TrailingExit.ExitPriceBound, TrailingExit.AsWrittenExitNoWorse, IntradayTrade.AsWrittenNetNoWorse |

The exit scan takes the fill rule as a parameter (`TrailingExit.FillRule`). The engines run
the rule as written (`IntradayTrade.SCRIPT_FILL`), so they compute the P&L the scripts
report. `DayExecutor(WorstCase, ...)` is the corrected executor. `AsWrittenNetNoWorse` shows
that the rule as written overstates every stopped trade's net P&L relative to it, or leaves
it equal.
