/**
 * What the upgraded validator's loops guarantee about the trades they take: the
 * day-by-day trade log, its equity chaining and the daily-loss and trade-cap gates.
 */
module UpgradedProperties {
  import opened Candles
  import opened IntradayTrade
  import opened UpgradedEngine
  import opened TradeLog

  /**
   * A trade the day loop could have taken: an entry candle at or after FIRST_ENTRY and
   * before the last five candles, an entry that the rule produced at the trade's equity, and
   * the trade that the executor makes of it.
   */
  predicate Taken(rule: Rule, exec: Executor, day: seq<Candle>, tr: Trade)
  {
    FIRST_ENTRY <= tr.entryIdx && tr.entryIdx + EXIT_MARGIN < |day| &&
    rule(Lookback(day, tr.entryIdx), tr.equityBefore) == Enter(tr.entry) &&
    tr == exec(tr.entryIdx, tr.entry, tr.equityBefore)
  }

  /**
   * What the trades of one day satisfy: at most MAX_TRADES_PER_DAY of them, each one the
   * loop could have taken at its candle, each sized with the equity left by the ones before
   * it, each entered while the day's net P&L so far stayed above -1% of that equity, and in
   * increasing candle order.
   */
  predicate DayLog(rule: Rule, exec: Executor, day: seq<Candle>, equity0: real, ts: seq<Trade>)
  {
    |ts| <= MAX_TRADES_PER_DAY &&
    (forall k :: 0 <= k < |ts| ==> Taken(rule, exec, day, ts[k])) &&
    SizedFrom(equity0, ts) &&
    (forall k :: 0 <= k < |ts| ==> SumNet(ts[..k]) > -(ts[k].equityBefore * MAX_DAILY_LOSS)) &&
    (forall j, k :: 0 <= j < k < |ts| ==> ts[j].entryIdx < ts[k].entryIdx)
  }

  /** The equity after the trades of `ts`, each of which records the equity it was sized with. */
  function EquityAfter(equity0: real, ts: seq<Trade>): real
  {
    if ts == [] then equity0 else ts[|ts| - 1].equityBefore + ts[|ts| - 1].net
  }

  /**
   * The same conditions but the cap, stated trade by trade from the last one back, with
   * the day's P&L before a trade read off as its equity minus the day's opening equity; the
   * candle-loop lemmas carry this form.
   */
  predicate Chained(rule: Rule, exec: Executor, day: seq<Candle>, equity0: real, ts: seq<Trade>)
  {
    if ts == [] then true
    else
      var init := ts[..|ts| - 1];
      var last := ts[|ts| - 1];
      Chained(rule, exec, day, equity0, init) &&
      Taken(rule, exec, day, last) &&
      last.equityBefore == EquityAfter(equity0, init) &&
      last.equityBefore - equity0 > -(last.equityBefore * MAX_DAILY_LOSS) &&
      (init != [] ==> init[|init| - 1].entryIdx < last.entryIdx)
  }

  lemma {:induction false} ChainedOrdered(rule: Rule, exec: Executor, day: seq<Candle>, equity0: real, ts: seq<Trade>)
    requires Chained(rule, exec, day, equity0, ts)
    ensures forall k :: 0 <= k < |ts| ==> ts[k].entryIdx <= ts[|ts| - 1].entryIdx
  {
    if ts != [] {
      var init := ts[..|ts| - 1];
      ChainedOrdered(rule, exec, day, equity0, init);
      assert forall k :: 0 <= k < |init| ==> ts[k] == init[k];
    }
  }

  /** Along chained trades the equity is the opening equity plus the trades' summed P&L. */
  lemma {:induction false} ChainedEquity(rule: Rule, exec: Executor, day: seq<Candle>, equity0: real, ts: seq<Trade>)
    requires Chained(rule, exec, day, equity0, ts)
    ensures EquityAfter(equity0, ts) == equity0 + SumNet(ts)
  {
    if ts != [] {
      ChainedEquity(rule, exec, day, equity0, ts[..|ts| - 1]);
    }
  }

  /** The trade-by-trade form gives every condition of a day log but the cap. */
  lemma {:induction false} ChainedIsDayLog(rule: Rule, exec: Executor, day: seq<Candle>, equity0: real, ts: seq<Trade>)
    requires Chained(rule, exec, day, equity0, ts) && |ts| <= MAX_TRADES_PER_DAY
    ensures DayLog(rule, exec, day, equity0, ts)
  {
    if ts != [] {
      var n := |ts| - 1;
      var init := ts[..n];
      ChainedIsDayLog(rule, exec, day, equity0, init);
      ChainedOrdered(rule, exec, day, equity0, init);
      ChainedEquity(rule, exec, day, equity0, init);
      forall k | 0 <= k < n
        ensures ts[k] == init[k] && ts[..k] == init[..k]
      {
      }
      assert ts[..n] == init;
    }
  }

  /** Appending the trade the loop enters at candle i keeps the day's trades chained. */
  lemma ChainedSnoc(rule: Rule, exec: Executor, day: seq<Candle>, i: nat, equity0: real, equity: real, ts: seq<Trade>)
    requires Stamps(exec)
    requires Chained(rule, exec, day, equity0, ts)
    requires equity == EquityAfter(equity0, ts)
    requires FIRST_ENTRY <= i && i + EXIT_MARGIN < |day|
    requires ts != [] ==> ts[|ts| - 1].entryIdx < i
    requires equity - equity0 > -(equity * MAX_DAILY_LOSS)
    requires rule(Lookback(day, i), equity).Enter?
    ensures var tr := exec(i, rule(Lookback(day, i), equity).entry, equity);
      Chained(rule, exec, day, equity0, ts + [tr]) && EquityAfter(equity0, ts + [tr]) == equity + tr.net
  {
    var tr := exec(i, rule(Lookback(day, i), equity).entry, equity);
    assert (ts + [tr])[..|ts|] == ts;
    assert Taken(rule, exec, day, tr);
  }

  /**
   * A property `inv` of the candle loop's state (the next candle, the equity and what the
   * day has produced) that every candle the loop decides keeps, and that gives `goal` of
   * what the loop returns wherever it stops.
   */
  ghost predicate LoopInvariant(rule: Rule, exec: Executor, day: seq<Candle>,
                                inv: (nat, real, DayRun) -> bool, goal: DayRun -> bool)
  {
    (forall j: nat, q: real, r: DayRun :: inv(j, q, r) ==> goal(r) && goal(r.(lossStop := true))) &&
    (forall j: nat, q: real, r: DayRun ::
       inv(j, q, r) && j + EXIT_MARGIN < |day| && |r.trades| < MAX_TRADES_PER_DAY &&
       r.pnl > -(q * MAX_DAILY_LOSS) ==>
         Steps(rule, exec, day, inv, j, q, r))
  }

  /** `inv` holds again after the loop decides candle j at equity q with `r` produced so far. */
  ghost predicate Steps(rule: Rule, exec: Executor, day: seq<Candle>, inv: (nat, real, DayRun) -> bool,
                        j: nat, q: real, r: DayRun)
    requires j < |day|
  {
    match rule(Lookback(day, j), q)
    case Skip(reason) => inv(j + 1, q, Skipped(r, reason))
    case Enter(e) => inv(j + 1, q + exec(j, e, q).net, Booked(r, exec(j, e, q)))
  }

  /** Induction over the candle loop: what a loop invariant gives holds of the day's result. */
  lemma {:induction false} SessionInduction(rule: Rule, exec: Executor, day: seq<Candle>, i: nat, equity: real,
                                            run: DayRun, inv: (nat, real, DayRun) -> bool, goal: DayRun -> bool)
    requires LoopInvariant(rule, exec, day, inv, goal) && inv(i, equity, run)
    ensures goal(Session(rule, exec, day, i, equity, run))
    decreases |day| - i
  {
    if i + EXIT_MARGIN >= |day| || |run.trades| >= MAX_TRADES_PER_DAY || run.pnl <= -(equity * MAX_DAILY_LOSS) {
    } else {
      match rule(Lookback(day, i), equity)
      case Skip(reason) =>
        SessionInduction(rule, exec, day, i + 1, equity, Skipped(run, reason), inv, goal);
      case Enter(e) =>
        var tr := exec(i, e, equity);
        SessionInduction(rule, exec, day, i + 1, equity + tr.net, Booked(run, tr), inv, goal);
    }
  }

  /**
   * The trades a day's candle loop takes are chained from the day's opening equity, at most
   * two of them, and the loop's running P&L is the equity they gained.
   */
  lemma SessionChained(rule: Rule, exec: Executor, day: seq<Candle>, equity0: real)
    requires Stamps(exec)
    ensures var r := Session(rule, exec, day, FIRST_ENTRY, equity0, NoRun);
      Chained(rule, exec, day, equity0, r.trades) && |r.trades| <= MAX_TRADES_PER_DAY &&
      r.pnl == EquityAfter(equity0, r.trades) - equity0
  {
    var goal := (r: DayRun) =>
      Chained(rule, exec, day, equity0, r.trades) && |r.trades| <= MAX_TRADES_PER_DAY &&
      r.pnl == EquityAfter(equity0, r.trades) - equity0;
    var inv := (j: nat, q: real, r: DayRun) =>
      Chained(rule, exec, day, equity0, r.trades) && |r.trades| <= MAX_TRADES_PER_DAY &&
      r.pnl == EquityAfter(equity0, r.trades) - equity0 &&
      q == EquityAfter(equity0, r.trades) && FIRST_ENTRY <= j &&
      (r.trades != [] ==> r.trades[|r.trades| - 1].entryIdx < j);
    forall j: nat, q: real, r: DayRun |
      inv(j, q, r) && j + EXIT_MARGIN < |day| && |r.trades| < MAX_TRADES_PER_DAY && r.pnl > -(q * MAX_DAILY_LOSS)
      ensures Steps(rule, exec, day, inv, j, q, r)
    {
      if rule(Lookback(day, j), q).Enter? {
        ChainedSnoc(rule, exec, day, j, equity0, q, r.trades);
      }
    }
    SessionInduction(rule, exec, day, FIRST_ENTRY, equity0, NoRun, inv, goal);
  }

  /** The trades of a whole day form a day log. */
  lemma DayTradesAreDayLog(rule: Rule, exec: Executor, day: seq<Candle>, equity0: real)
    requires Stamps(exec)
    ensures DayLog(rule, exec, day, equity0, Session(rule, exec, day, FIRST_ENTRY, equity0, NoRun).trades)
  {
    SessionChained(rule, exec, day, equity0);
    ChainedIsDayLog(rule, exec, day, equity0, Session(rule, exec, day, FIRST_ENTRY, equity0, NoRun).trades);
  }
}
