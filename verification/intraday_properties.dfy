/**
 * What the unfiltered intraday validator guarantees about the trades it takes: each day's
 * trades are at most two, in candle order, each entered on a non-neutral trend and sized
 * from the equity the earlier trades left; over a whole symbol the ledger is the replay of
 * the trade log, the log is in time order with at most two trades a day, and the report
 * reads off that log.
 */
module IntradayProperties {
  import opened Candles
  import opened IntradayTrade
  import opened Ledger
  import opened IntradayEngine
  import opened TradeLog

  /**
   * A trade the candle loop could have taken: an entry candle at or after FIRST_ENTRY and
   * before the last five candles, an entry that the rule produced at the trade's equity,
   * and the trade that the executor makes of it.
   */
  predicate Taken(rule: EntryRule, exec: Executor, day: seq<Candle>, tr: Trade)
  {
    FIRST_ENTRY <= tr.entryIdx && tr.entryIdx + EXIT_MARGIN < |day| &&
    rule(Lookback(day, tr.entryIdx), tr.equityBefore) == Some(tr.entry) &&
    tr == exec(tr.entryIdx, tr.entry, tr.equityBefore)
  }

  /**
   * What the trades of one day satisfy: at most MAX_TRADES_PER_DAY of them, each one the
   * loop could have taken at its candle, each sized with the equity left by the ones before
   * it, and in increasing candle order.
   */
  predicate DayLog(rule: EntryRule, exec: Executor, day: seq<Candle>, equity0: real, ts: seq<Trade>)
  {
    |ts| <= MAX_TRADES_PER_DAY &&
    (forall k :: 0 <= k < |ts| ==> Taken(rule, exec, day, ts[k])) &&
    SizedFrom(equity0, ts) &&
    (forall j, k :: 0 <= j < k < |ts| ==> ts[j].entryIdx < ts[k].entryIdx)
  }

  /**
   * The same conditions but the cap, stated trade by trade from the last one back, each
   * trade sized from the opening equity plus the P&L of the ones before it; the candle-loop
   * induction carries this form.
   */
  predicate Chained(rule: EntryRule, exec: Executor, day: seq<Candle>, equity0: real, ts: seq<Trade>)
  {
    if ts == [] then true
    else
      var init := ts[..|ts| - 1];
      var last := ts[|ts| - 1];
      Chained(rule, exec, day, equity0, init) && Taken(rule, exec, day, last) &&
      last.equityBefore == equity0 + SumNet(init) &&
      (init != [] ==> init[|init| - 1].entryIdx < last.entryIdx)
  }

  /** The trade-by-trade form gives every condition of a day log but the cap. */
  lemma {:induction false} ChainedIsDayLog(rule: EntryRule, exec: Executor, day: seq<Candle>, equity0: real, ts: seq<Trade>)
    requires Chained(rule, exec, day, equity0, ts) && |ts| <= MAX_TRADES_PER_DAY
    ensures DayLog(rule, exec, day, equity0, ts)
  {
    if ts != [] {
      var n := |ts| - 1;
      var init := ts[..n];
      ChainedIsDayLog(rule, exec, day, equity0, init);
      forall k | 0 <= k < n
        ensures ts[k] == init[k] && ts[..k] == init[..k]
      {
      }
      assert ts[..n] == init;
      if n > 0 {
        assert forall j :: 0 <= j < n ==> init[j].entryIdx <= init[n - 1].entryIdx;
      }
    }
  }

  /**
   * Appending the trade the loop enters at a later candle i, at the equity the day's trades
   * so far leave, keeps them chained; the equity then grows by the trade's net P&L.
   */
  lemma ChainedSnoc(rule: EntryRule, exec: Executor, day: seq<Candle>, i: nat, equity0: real, ts: seq<Trade>)
    requires Stamps(exec) && Chained(rule, exec, day, equity0, ts)
    requires FIRST_ENTRY <= i && i + EXIT_MARGIN < |day| && (ts != [] ==> ts[|ts| - 1].entryIdx < i)
    requires rule(Lookback(day, i), equity0 + SumNet(ts)).Some?
    ensures var q := equity0 + SumNet(ts);
      var tr := exec(i, rule(Lookback(day, i), q).value, q);
      var ts' := ts + [tr];
      Chained(rule, exec, day, equity0, ts') && ts'[|ts'| - 1].entryIdx == i && SumNet(ts') == SumNet(ts) + tr.net
  {
    var q := equity0 + SumNet(ts);
    var tr := exec(i, rule(Lookback(day, i), q).value, q);
    assert (ts + [tr])[..|ts|] == ts;
    assert Taken(rule, exec, day, tr);
    SumNetSnoc(ts, tr);
  }

  /**
   * Induction over the candle loop: from candle i on, with the day's trades so far chained
   * and the last of them entered before i, at the equity they leave, the loop returns
   * chained trades.
   */
  lemma {:induction false} SessionIsChained(rule: EntryRule, exec: Executor, day: seq<Candle>, i: nat,
                                            equity0: real, equity: real, ts: seq<Trade>)
    requires Stamps(exec) && Chained(rule, exec, day, equity0, ts) && equity == equity0 + SumNet(ts)
    requires FIRST_ENTRY <= i && (ts != [] ==> ts[|ts| - 1].entryIdx < i)
    ensures Chained(rule, exec, day, equity0, Session(rule, exec, day, i, equity, ts))
    decreases |day| - i
  {
    if i + EXIT_MARGIN >= |day| || |ts| >= MAX_TRADES_PER_DAY {
      SessionEnds(rule, exec, day, i, equity, ts);
    } else if rule(Lookback(day, i), equity).None? {
      SessionSkipStep(rule, exec, day, i, equity, ts);
      SessionIsChained(rule, exec, day, i + 1, equity0, equity, ts);
      var r := Session(rule, exec, day, i + 1, equity, ts);
      assert Chained(rule, exec, day, equity0, r);
    } else {
      var tr := exec(i, rule(Lookback(day, i), equity).value, equity);
      EnterStepChained(rule, exec, day, i, equity0, equity, ts);
      SessionIsChained(rule, exec, day, i + 1, equity0, equity + tr.net, ts + [tr]);
      var r := Session(rule, exec, day, i + 1, equity + tr.net, ts + [tr]);
      assert Chained(rule, exec, day, equity0, r);
    }
  }

  /** The entry step of that induction: the loop moves on with one more chained trade. */
  lemma EnterStepChained(rule: EntryRule, exec: Executor, day: seq<Candle>, i: nat, equity0: real, equity: real,
                         ts: seq<Trade>)
    requires Stamps(exec) && Chained(rule, exec, day, equity0, ts) && equity == equity0 + SumNet(ts)
    requires FIRST_ENTRY <= i && (ts != [] ==> ts[|ts| - 1].entryIdx < i)
    requires i + EXIT_MARGIN < |day| && |ts| < MAX_TRADES_PER_DAY && rule(Lookback(day, i), equity).Some?
    ensures var tr := exec(i, rule(Lookback(day, i), equity).value, equity);
      var ts' := ts + [tr];
      Session(rule, exec, day, i, equity, ts) == Session(rule, exec, day, i + 1, equity + tr.net, ts') &&
      Chained(rule, exec, day, equity0, ts') && equity + tr.net == equity0 + SumNet(ts') &&
      ts'[|ts'| - 1].entryIdx < i + 1
  {
    SessionEnterStep(rule, exec, day, i, equity, ts);
    ChainedSnoc(rule, exec, day, i, equity0, ts);
  }

  /** The trades of a whole day form a day log, sized from the equity the day opens with. */
  lemma DayTradesAreDayLog(rule: EntryRule, exec: Executor, day: seq<Candle>, equity0: real)
    requires Stamps(exec)
    ensures DayLog(rule, exec, day, equity0, Session(rule, exec, day, FIRST_ENTRY, equity0, []))
  {
    SessionIsChained(rule, exec, day, FIRST_ENTRY, equity0, equity0, []);
    ChainedIsDayLog(rule, exec, day, equity0, Session(rule, exec, day, FIRST_ENTRY, equity0, []));
  }

  /**
   * A trade taken on Signal is entered on a non-neutral trend of its signal window, with a
   * positive risk per share and a quantity of at least one, risking at most 0.3% of the
   * equity it was sized with, which is therefore positive.
   */
  lemma SignalTradeIsSized(exec: Executor, day: seq<Candle>, tr: Trade)
    requires Taken(Signal, exec, day, tr)
    ensures tr.entry.trend == DetectTrend(Lookback(day, tr.entryIdx)) && tr.entry.trend != Neutral
    ensures tr.entry.risk > 0.0 && tr.entry.qty >= 1
    ensures tr.entry.qty as real * tr.entry.risk <= tr.equityBefore * RISK_PER_TRADE && tr.equityBefore > 0.0
  {
    EntryFitsBudget(tr.entry);
  }

  // ---------------------------------------------------------------- one symbol

  /**
   * The trades day d adds, opened at `equity`, form a day log of its candle loop, carry the
   * day's index and key, and only a day of at least 75 candles adds any.
   */
  lemma DayTradesLogged(day: Day, d: nat, equity: real)
    ensures var ts := DayTrades(day, d, equity);
      DayLog(Signal, DayExecutor(SCRIPT_FILL, day.candles, d, day.key), day.candles, equity, ts) &&
      (forall t :: t in ts ==> t.dayIdx == d && t.dayKey == day.key) &&
      (ts != [] ==> |day.candles| >= MIN_DAY_CANDLES)
  {
    if |day.candles| >= MIN_DAY_CANDLES {
      var exec := DayExecutor(SCRIPT_FILL, day.candles, d, day.key);
      DayTradesAreDayLog(Signal, exec, day.candles, equity);
      var ts := DayTrades(day, d, equity);
      forall t | t in ts
        ensures t.dayIdx == d && t.dayKey == day.key
      {
        var k :| 0 <= k < |ts| && ts[k] == t;
        assert Taken(Signal, exec, day.candles, ts[k]);
      }
    }
  }

  /** The ledger is the replay of the trade log. */
  predicate Replayed(s: IntradayState)
  {
    Replays(s.tally, s.dailyReturns, s.log)
  }

  /** Every day keeps the ledger the replay of the log. */
  lemma StepDayReplayed(s: IntradayState, d: nat, day: Day)
    requires Replayed(s)
    ensures Replayed(StepDay(s, d, day))
  {
    DayTradesLogged(day, d, s.tally.equity);
    BookingReplays(s.tally, s.dailyReturns, s.log, day.key, DayTrades(day, d, s.tally.equity));
  }

  /** The ledger of a whole run is the replay of its trade log. */
  lemma {:induction false} RunReplayed(days: seq<Day>)
    ensures Replayed(Run(days))
  {
    if days != [] {
      RunReplayed(days[..|days| - 1]);
      StepDayReplayed(Run(days[..|days| - 1]), |days| - 1, days[|days| - 1]);
    }
  }

  /** Every day keeps each trade of the log sized from the equity all earlier trades left. */
  lemma StepDayChained(s: IntradayState, d: nat, day: Day)
    requires Replayed(s) && SizedFrom(INITIAL_CAPITAL, s.log)
    ensures SizedFrom(INITIAL_CAPITAL, StepDay(s, d, day).log)
  {
    DayTradesLogged(day, d, s.tally.equity);
    EquityIsCapitalPlusPnl(s.log);
    SizedFromAppend(INITIAL_CAPITAL, s.log, DayTrades(day, d, s.tally.equity));
  }

  /** In a whole run, each trade is sized from the equity that all earlier trades left. */
  lemma {:induction false} RunEquityChained(days: seq<Day>)
    ensures SizedFrom(INITIAL_CAPITAL, Run(days).log)
  {
    if days != [] {
      RunEquityChained(days[..|days| - 1]);
      RunReplayed(days[..|days| - 1]);
      StepDayChained(Run(days[..|days| - 1]), |days| - 1, days[|days| - 1]);
    }
  }

  /**
   * Trade t was taken on its own day of `days`: a day of at least 75 candles, with the
   * day's key, and by that day's candle loop at its candle.
   */
  predicate TakenOn(days: seq<Day>, t: Trade)
  {
    t.dayIdx < |days| && t.dayKey == days[t.dayIdx].key && |days[t.dayIdx].candles| >= MIN_DAY_CANDLES &&
    Taken(Signal, DayExecutor(SCRIPT_FILL, days[t.dayIdx].candles, t.dayIdx, t.dayKey), days[t.dayIdx].candles, t)
  }

  /** Trade t was taken on its own day of `days`, as a function for the log predicates. */
  ghost function TakenBy(days: seq<Day>): (taken: Trade -> bool)
    ensures forall t :: taken(t) == TakenOn(days, t)
  {
    t => TakenOn(days, t)
  }

  /** Every day keeps the log in time order, taken day by day, at most two trades a day. */
  lemma StepDayLogged(days: seq<Day>, n: nat, s: IntradayState)
    requires n < |days| && s.tally.peak > 0.0 && Logged(TakenBy(days), n, s.log)
    ensures Logged(TakenBy(days), n + 1, StepDay(s, n, days[n]).log)
  {
    var day := days[n];
    var ts := DayTrades(day, n, s.tally.equity);
    DayTradesLogged(day, n, s.tally.equity);
    forall t | t in ts
      ensures t.dayIdx == n && TakenOn(days, t)
    {
      var k :| 0 <= k < |ts| && ts[k] == t;
      assert Taken(Signal, DayExecutor(SCRIPT_FILL, day.candles, n, day.key), day.candles, ts[k]);
    }
    LoggedAfterBooking(TakenBy(days), n, s.log, ts);
  }

  /** The log after the first n days of a run is logged over those days. */
  lemma {:induction false} RunLoggedUpTo(days: seq<Day>, n: nat)
    requires n <= |days|
    ensures Logged(TakenBy(days), n, Run(days[..n]).log)
  {
    if n > 0 {
      RunLoggedUpTo(days, n - 1);
      assert days[..n][..n - 1] == days[..n - 1];
      StepDayLogged(days, n - 1, Run(days[..n - 1]));
    }
  }

  /**
   * Every trade of a run was taken on its own day of at least 75 candles by that day's
   * candle loop, the trades are in time order, and no day has more than two.
   */
  lemma RunLogged(days: seq<Day>)
    ensures Logged(TakenBy(days), |days|, Run(days).log)
  {
    RunLoggedUpTo(days, |days|);
    assert days[..|days|] == days;
  }

  /**
   * Every trade of a run was entered on a non-neutral trend, with a quantity of at least
   * one share risking at most 0.3% of a positive equity, and carries the P&L of the cost
   * model: the gross move less two brokerage legs and STT.
   */
  lemma RunTradesAreSized(days: seq<Day>)
    ensures forall t :: t in Run(days).log ==>
      t.entry.trend != Neutral && t.entry.qty >= 1 && t.equityBefore > 0.0 &&
      t.entry.qty as real * t.entry.risk <= t.equityBefore * RISK_PER_TRADE &&
      Settled(t) && t.net <= t.gross - 2.0 * BROKERAGE
  {
    RunLogged(days);
    forall t | t in Run(days).log
      ensures t.entry.trend != Neutral && t.entry.qty >= 1 && t.equityBefore > 0.0 &&
        t.entry.qty as real * t.entry.risk <= t.equityBefore * RISK_PER_TRADE &&
        Settled(t) && t.net <= t.gross - 2.0 * BROKERAGE
    {
      assert TakenBy(days)(t);
      var day := days[t.dayIdx];
      SignalTradeIsSized(DayExecutor(SCRIPT_FILL, day.candles, t.dayIdx, t.dayKey), day.candles, t);
    }
  }

  /**
   * The report `r` reads off the trade log of `s`: the trade count, the wins, the P&L and
   * return, the win rate in [0, 100] (0 without trades), a non-negative maximum drawdown,
   * the average P&L per trade (0 without trades), and the number of days with a trade.
   */
  predicate ReportsLog(s: IntradayState, r: Report)
  {
    r.trades == |s.log| && r.wins == CountWins(s.log) && r.wins <= r.trades &&
    r.pnl == SumNet(s.log) && r.totalReturn == SumNet(s.log) / INITIAL_CAPITAL * 100.0 &&
    0.0 <= r.winRate <= 100.0 && r.maxDd >= 0.0 &&
    (r.trades == 0 ==> r.winRate == 0.0 && r.avgTrade == 0.0) &&
    (r.trades > 0 ==> r.avgTrade * r.trades as real == r.pnl) &&
    r.tradingDays == |DayKeys(s.log)| <= r.trades
  }

  /** The report of a run reads off the run's trade log. */
  lemma ReportOfRun(days: seq<Day>)
    ensures ReportsLog(Run(days), Summarize(Run(days)))
  {
    RunReplayed(days);
    EquityIsCapitalPlusPnl(Run(days).log);
    DayKeysBound(Run(days).log);
  }
}
