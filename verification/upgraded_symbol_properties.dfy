/**
 * What the upgraded validator's day loop guarantees for one symbol: the ledger is the replay
 * of the trades it took, each trade was taken by the candle loop on an eligible day, the
 * trades are in time order, at most two a day, each sized from the equity all earlier trades
 * left, and the kill switch freezes the state for its pause and, in effect, for good.
 */
module UpgradedSymbolProperties {
  import opened Candles
  import opened IntradayTrade
  import opened Ledger
  import opened UpgradedEngine
  import opened UpgradedProperties
  import opened UpgradedSymbol
  import opened TradeLog

  /**
   * Day d reaches the candle loop from state s: it has at least 75 candles, it is not inside
   * a kill-switch pause, the rolling drawdown is below 5% and the first hour is not quiet.
   */
  predicate TradingDay(s: SymbolState, d: nat, day: Day)
  {
    |day.candles| >= MIN_DAY_CANDLES && !(s.killActive && d < s.killEnd) &&
    RollingDrawdown(s.rollingPeak, s.tally.equity) < KILL_SWITCH_DD && !LowVolatility(day.candles)
  }

  /** The trades day d adds: those of its candle loop on a trading day, none otherwise. */
  function DayTrades(rule: Rule, s: SymbolState, d: nat, day: Day): seq<Trade>
  {
    if TradingDay(s, d, day) then DayOutcome(rule, day, d, s.tally.equity).trades else []
  }

  /**
   * One day appends its trades to the log and books exactly those in the ledger, the
   * daily returns and the R-multiple total; a day that does not trade changes none of them.
   */
  lemma StepDayBooks(rule: Rule, s: SymbolState, d: nat, day: Day)
    requires s.tally.peak > 0.0
    ensures var r := StepDay(rule, s, d, day);
      var ts := DayTrades(rule, s, d, day);
      r.log == s.log + ts && r.tally == RecordAll(s.tally, ts) && r.totalR == s.totalR + SumR(ts) &&
      r.dailyReturns == AddReturns(s.dailyReturns, day.key, ts)
  {
    if TradingDay(s, d, day) {
      var peak := if s.tally.equity > s.rollingPeak then s.tally.equity else s.rollingPeak;
      var resumed := s.(killActive := false, rollingPeak := peak);
      assert StepDay(rule, s, d, day) == OpenDay(rule, resumed, d, day);
      assert resumed.tally == s.tally && resumed.log == s.log && resumed.dailyReturns == s.dailyReturns;
    } else {
      assert s.log + [] == s.log;
    }
  }

  /**
   * The trades a day adds form a day log of its candle loop, opened at the equity the day
   * starts with, all carry the day's index and key, and only a trading day adds any.
   */
  lemma DayTradesLogged(rule: Rule, s: SymbolState, d: nat, day: Day)
    ensures var ts := DayTrades(rule, s, d, day);
      DayLog(rule, DayExecutor(SCRIPT_FILL, day.candles, d, day.key), day.candles, s.tally.equity, ts) &&
      (forall t :: t in ts ==> t.dayIdx == d && t.dayKey == day.key) && (ts != [] ==> TradingDay(s, d, day))
  {
    if TradingDay(s, d, day) {
      var exec := DayExecutor(SCRIPT_FILL, day.candles, d, day.key);
      DayTradesAreDayLog(rule, exec, day.candles, s.tally.equity);
      var ts := DayTrades(rule, s, d, day);
      forall t | t in ts
        ensures t.dayIdx == d && t.dayKey == day.key
      {
        var k :| 0 <= k < |ts| && ts[k] == t;
        assert Taken(rule, exec, day.candles, ts[k]);
      }
    }
  }

  /** The ledger is the replay of the trade log, and the R-multiple total is the log's. */
  predicate Replayed(s: SymbolState)
  {
    Replays(s.tally, s.dailyReturns, s.log) && s.totalR == SumR(s.log)
  }

  /** Under replay, equity is the initial capital plus the log's net P&L. */
  lemma ReplayedEquity(s: SymbolState)
    requires Replayed(s)
    ensures s.tally.equity == INITIAL_CAPITAL + SumNet(s.log)
  {
  }

  /** Booking one day's trades, all under the day's key, keeps the ledger the replay of the log. */
  lemma BookingReplayed(s: SymbolState, r: SymbolState, key: string, ts: seq<Trade>)
    requires Replayed(s) && forall t :: t in ts ==> t.dayKey == key
    requires r.log == s.log + ts && r.tally == RecordAll(s.tally, ts) && r.totalR == s.totalR + SumR(ts)
    requires r.dailyReturns == AddReturns(s.dailyReturns, key, ts)
    ensures Replayed(r)
  {
    BookingReplays(s.tally, s.dailyReturns, s.log, key, ts);
    SumRAppend(s.log, ts);
  }

  /** Every day keeps the ledger the replay of the log. */
  lemma StepDayReplayed(rule: Rule, s: SymbolState, d: nat, day: Day)
    requires Replayed(s)
    ensures Replayed(StepDay(rule, s, d, day))
  {
    StepDayBooks(rule, s, d, day);
    DayTradesLogged(rule, s, d, day);
    BookingReplayed(s, StepDay(rule, s, d, day), day.key, DayTrades(rule, s, d, day));
  }

  /** The ledger of a whole run is the replay of its trade log. */
  lemma {:induction false} RunReplayed(rule: Rule, days: seq<Day>)
    ensures Replayed(Run(rule, days))
  {
    if days != [] {
      RunReplayed(rule, days[..|days| - 1]);
      StepDayReplayed(rule, Run(rule, days[..|days| - 1]), |days| - 1, days[|days| - 1]);
    }
  }

  // ---------------------------------------------------------------- equity chaining

  /** Every day keeps the log chained. */
  lemma StepDayChained(rule: Rule, s: SymbolState, d: nat, day: Day)
    requires Replayed(s) && SizedFrom(INITIAL_CAPITAL, s.log)
    ensures SizedFrom(INITIAL_CAPITAL, StepDay(rule, s, d, day).log)
  {
    StepDayBooks(rule, s, d, day);
    DayTradesLogged(rule, s, d, day);
    ReplayedEquity(s);
    SizedFromAppend(INITIAL_CAPITAL, s.log, DayTrades(rule, s, d, day));
  }

  /** In a whole run, each trade is sized from the equity that all earlier trades left. */
  lemma {:induction false} RunEquityChained(rule: Rule, days: seq<Day>)
    ensures SizedFrom(INITIAL_CAPITAL, Run(rule, days).log)
  {
    if days != [] {
      RunEquityChained(rule, days[..|days| - 1]);
      RunReplayed(rule, days[..|days| - 1]);
      StepDayChained(rule, Run(rule, days[..|days| - 1]), |days| - 1, days[|days| - 1]);
    }
  }

  // ---------------------------------------------------------------- the trade log

  /**
   * Trade t was taken on its own day of `days`: a day of at least 75 candles with a first
   * hour that is not quiet, with the day's key, and by that day's candle loop at its candle.
   */
  predicate TakenOn(rule: Rule, days: seq<Day>, t: Trade)
  {
    t.dayIdx < |days| && t.dayKey == days[t.dayIdx].key &&
    |days[t.dayIdx].candles| >= MIN_DAY_CANDLES && !LowVolatility(days[t.dayIdx].candles) &&
    Taken(rule, DayExecutor(SCRIPT_FILL, days[t.dayIdx].candles, t.dayIdx, t.dayKey), days[t.dayIdx].candles, t)
  }

  /** Trade t was taken on its own day of `days`, as a function for the log predicates. */
  ghost function TakenBy(rule: Rule, days: seq<Day>): (taken: Trade -> bool)
    ensures forall t :: taken(t) == TakenOn(rule, days, t)
  {
    t => TakenOn(rule, days, t)
  }

  /** The trades day n adds were each taken on day n. */
  lemma DayTradesTaken(rule: Rule, days: seq<Day>, n: nat, s: SymbolState)
    requires n < |days|
    ensures forall t :: t in DayTrades(rule, s, n, days[n]) ==> t.dayIdx == n && TakenOn(rule, days, t)
  {
    var day := days[n];
    var ts := DayTrades(rule, s, n, day);
    DayTradesLogged(rule, s, n, day);
    forall t | t in ts
      ensures t.dayIdx == n && TakenOn(rule, days, t)
    {
      var k :| 0 <= k < |ts| && ts[k] == t;
      assert Taken(rule, DayExecutor(SCRIPT_FILL, day.candles, n, day.key), day.candles, ts[k]);
    }
  }

  /** Every day keeps the log logged. */
  lemma StepDayLogged(rule: Rule, days: seq<Day>, n: nat, s: SymbolState)
    requires n < |days| && s.tally.peak > 0.0 && Logged(TakenBy(rule, days), n, s.log)
    ensures Logged(TakenBy(rule, days), n + 1, StepDay(rule, s, n, days[n]).log)
  {
    StepDayBooks(rule, s, n, days[n]);
    DayTradesLogged(rule, s, n, days[n]);
    DayTradesTaken(rule, days, n, s);
    LoggedAfterBooking(TakenBy(rule, days), n, s.log, DayTrades(rule, s, n, days[n]));
  }

  /** The log after the first n days of a run is logged over those days. */
  lemma {:induction false} RunLoggedUpTo(rule: Rule, days: seq<Day>, n: nat)
    requires n <= |days|
    ensures Logged(TakenBy(rule, days), n, Run(rule, days[..n]).log)
  {
    if n > 0 {
      RunLoggedUpTo(rule, days, n - 1);
      assert days[..n][..n - 1] == days[..n - 1];
      StepDayLogged(rule, days, n - 1, Run(rule, days[..n - 1]));
    }
  }

  /**
   * Every trade of a run was taken on its own eligible day by that day's candle loop, the
   * trades are in time order, and no day has more than two.
   */
  lemma RunLogged(rule: Rule, days: seq<Day>)
    ensures Logged(TakenBy(rule, days), |days|, Run(rule, days).log)
  {
    RunLoggedUpTo(rule, days, |days|);
    assert days[..|days|] == days;
  }

  /**
   * Every trade the validator's own candle rule takes passed every gate of its candle's signal
   * window (trend gate, pullback in the detected direction, confirming candle, quality score),
   * risks at most 0.3% of the positive equity it was sized with, and carries the P&L of the
   * cost model: the gross move less two brokerage legs and STT.
   */
  lemma RunTradesPassGates(days: seq<Day>)
    ensures forall t :: t in Run(DecideOn, days).log ==>
      t.dayIdx < |days| && t.entryIdx < |days[t.dayIdx].candles| &&
      PassedGates(Lookback(days[t.dayIdx].candles, t.entryIdx), t.equityBefore, t.entry) &&
      Settled(t) && t.net <= t.gross - 2.0 * BROKERAGE
  {
    RunLogged(DecideOn, days);
    forall t | t in Run(DecideOn, days).log
      ensures t.dayIdx < |days| && t.entryIdx < |days[t.dayIdx].candles|
      ensures PassedGates(Lookback(days[t.dayIdx].candles, t.entryIdx), t.equityBefore, t.entry)
      ensures Settled(t) && t.net <= t.gross - 2.0 * BROKERAGE
    {
      assert TakenBy(DecideOn, days)(t);
      var day := days[t.dayIdx].candles;
      var lb := Lookback(day, t.entryIdx);
      assert DecideOn(lb, t.equityBefore) == Enter(t.entry);
      DecideOnGates(lb, t.equityBefore);
      assert t == Execute(SCRIPT_FILL, day, t.dayIdx, t.dayKey, t.entryIdx, t.entry, t.equityBefore);
    }
  }

  // ---------------------------------------------------------------- kill switch

  /** A run's state after n of its days is one more day on its state after n - 1. */
  lemma RunPrefixStep(rule: Rule, days: seq<Day>, n: nat)
    requires 0 < n <= |days|
    ensures Run(rule, days[..n]) == StepDay(rule, Run(rule, days[..n - 1]), n - 1, days[n - 1])
  {
    assert days[..n][..n - 1] == days[..n - 1];
  }

  /** The rolling drawdown is at or past the kill-switch threshold. */
  predicate Halted(s: SymbolState)
  {
    RollingDrawdown(s.rollingPeak, s.tally.equity) >= KILL_SWITCH_DD
  }

  /**
   * A day from a halted state books nothing and moves neither equity nor the rolling peak,
   * so the state stays halted: it is skipped as short, skipped as paused, or fires the switch.
   */
  lemma HaltedStep(rule: Rule, s: SymbolState, d: nat, day: Day)
    requires s.tally.peak > 0.0 && Halted(s)
    ensures var r := StepDay(rule, s, d, day);
      r.tally == s.tally && r.rollingPeak == s.rollingPeak && r.log == s.log &&
      r.dailyReturns == s.dailyReturns && r.totalR == s.totalR && Halted(r)
  {
  }

  /**
   * The switch fires on day d only from a halted state, and the day then pauses the symbol
   * until day d + KILL_SWITCH_DAYS, counts one trigger and changes nothing else.
   */
  lemma Triggered(rule: Rule, s: SymbolState, d: nat, day: Day)
    requires s.tally.peak > 0.0
    requires StepDay(rule, s, d, day).metrics.killSwitchTriggers != s.metrics.killSwitchTriggers
    ensures Halted(s) && |day.candles| >= MIN_DAY_CANDLES
    ensures StepDay(rule, s, d, day) ==
      s.(killActive := true, killEnd := d + KILL_SWITCH_DAYS,
         metrics := s.metrics.(killSwitchTriggers := s.metrics.killSwitchTriggers + 1))
  {
  }

  /** Once the first m days leave the symbol halted, no later day trades or moves the ledger. */
  lemma {:induction false} KillSwitchIsFinal(rule: Rule, days: seq<Day>, m: nat)
    requires m <= |days| && Halted(Run(rule, days[..m]))
    ensures Halted(Run(rule, days))
    ensures Run(rule, days).log == Run(rule, days[..m]).log && Run(rule, days).tally == Run(rule, days[..m]).tally
  {
    if m < |days| {
      var init := days[..|days| - 1];
      assert init[..m] == days[..m];
      KillSwitchIsFinal(rule, init, m);
      HaltedStep(rule, Run(rule, init), |days| - 1, days[|days| - 1]);
    } else {
      assert days[..m] == days;
    }
  }

  /** The kill switch fires on day d of the run. */
  predicate FiresOn(rule: Rule, days: seq<Day>, d: nat)
    requires d < |days|
  {
    Run(rule, days[..d + 1]).metrics.killSwitchTriggers != Run(rule, days[..d]).metrics.killSwitchTriggers
  }

  /**
   * After the switch fires on day d, the state stays exactly as that day left it through
   * day d + KILL_SWITCH_DAYS - 1: no trade, no counter and no filter on the paused days.
   */
  lemma {:induction false} KillSwitchPauses(rule: Rule, days: seq<Day>, d: nat, n: nat)
    requires d < n <= |days| && n <= d + KILL_SWITCH_DAYS && FiresOn(rule, days, d)
    ensures Run(rule, days[..n]) == Run(rule, days[..d + 1])
    ensures Run(rule, days[..n]).log == Run(rule, days[..d]).log
  {
    RunPrefixStep(rule, days, d + 1);
    Triggered(rule, Run(rule, days[..d]), d, days[d]);
    if n > d + 1 {
      KillSwitchPauses(rule, days, d, n - 1);
      RunPrefixStep(rule, days, n);
    }
  }

  /** After the switch first fires, on day d, the symbol takes no further trade at all. */
  lemma NoTradeAfterTrigger(rule: Rule, days: seq<Day>, d: nat)
    requires d < |days| && FiresOn(rule, days, d)
    ensures Run(rule, days).log == Run(rule, days[..d]).log
  {
    RunPrefixStep(rule, days, d + 1);
    Triggered(rule, Run(rule, days[..d]), d, days[d]);
    KillSwitchIsFinal(rule, days, d + 1);
  }

  // ---------------------------------------------------------------- counters and report

  /** The sum of the counters a day can raise by at most one. */
  function DayEvents(m: RiskMetrics): nat
  {
    m.volatilitySkips + m.killSwitchTriggers + m.dailyLossBreaches
  }

  lemma StepDayCounters(rule: Rule, s: SymbolState, d: nat, day: Day)
    requires s.tally.peak > 0.0
    ensures var r := StepDay(rule, s, d, day);
      r.metrics.entryConfirmationSkips == s.metrics.entryConfirmationSkips &&
      DayEvents(s.metrics) <= DayEvents(r.metrics) <= DayEvents(s.metrics) + 1
  {
  }

  /**
   * The entry-confirmation counter stays 0 (its check is switched off), and each day is a
   * volatility skip, a kill-switch trigger or a daily-loss breach at most once.
   */
  lemma {:induction false} RunCounters(rule: Rule, days: seq<Day>)
    ensures var m := Run(rule, days).metrics;
      m.entryConfirmationSkips == 0 && m.volatilitySkips + m.killSwitchTriggers + m.dailyLossBreaches <= |days|
  {
    if days != [] {
      RunCounters(rule, days[..|days| - 1]);
      StepDayCounters(rule, Run(rule, days[..|days| - 1]), |days| - 1, days[|days| - 1]);
    }
  }

  /**
   * The report `r` reads off the trade log of `s`: the trade count, the wins, the P&L and
   * return, the win rate in [0, 100] (0 without trades), a non-negative maximum drawdown,
   * the average P&L and R-multiple per trade (0 without trades), the number of days with at
   * least one trade, and the risk counters.
   */
  predicate ReportsLog(s: SymbolState, r: Report)
  {
    r.trades == |s.log| && r.wins == CountWins(s.log) && r.wins <= r.trades &&
    r.pnl == SumNet(s.log) && r.totalReturn == SumNet(s.log) / INITIAL_CAPITAL * 100.0 &&
    0.0 <= r.winRate <= 100.0 && r.maxDd >= 0.0 &&
    (r.trades == 0 ==> r.winRate == 0.0 && r.avgTrade == 0.0 && r.avgR == 0.0) &&
    (r.trades > 0 ==> r.avgTrade * r.trades as real == r.pnl && r.avgR * r.trades as real == SumR(s.log)) &&
    r.tradingDays == |DayKeys(s.log)| <= r.trades && r.metrics == s.metrics
  }

  /** The summary of a replayed state reads off its trade log. */
  lemma ReplayedReport(s: SymbolState)
    requires Replayed(s)
    ensures ReportsLog(s, Summarize(s))
  {
    EquityIsCapitalPlusPnl(s.log);
    DayKeysBound(s.log);
  }

  /** The report of a run reads off the run's trade log. */
  lemma ReportOfRun(rule: Rule, days: seq<Day>)
    ensures ReportsLog(Run(rule, days), Summarize(Run(rule, days)))
  {
    RunReplayed(rule, days);
    ReplayedReport(Run(rule, days));
  }
}
