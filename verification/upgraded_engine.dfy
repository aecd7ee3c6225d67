/**
 * The per-symbol simulation of the upgraded intraday validator: a day loop with a rolling
 * drawdown kill switch and a first-hour volatility filter, and inside each day a candle loop
 * with a two-trade cap, a 1% daily-loss stop, the trend gate, trend-and-pullback detection,
 * the confirmation candle, the quality score, sizing and the trailing exit.
 *
 * The candle loop is specified by the recursive function `Session` and the day loop by the
 * fold `Run` of `StepDay`; the methods `RunDay` and `ProcessSymbolWithFilters` are proved to
 * compute exactly those.
 */
module UpgradedEngine {
  import opened Candles
  import opened IntradayIndicators
  import opened UpgradedSignals
  import opened TrailingExit
  import opened IntradayTrade
  import opened Ledger

  const MAX_DAILY_LOSS: real := 0.01
  const KILL_SWITCH_DD: real := 0.05
  const KILL_SWITCH_DAYS: nat := 5
  const TREND_GATE_PERIOD: nat := 25
  /** `day_candles[:12]`: twelve five-minute candles make the first hour. */
  const FIRST_HOUR: nat := 12

  // ---------------------------------------------------------------- one candle

  /** Why a candle did not become a trade. */
  datatype SkipReason = TrendGate | NoSignal | NoConfirmation | LowQuality | Unsized

  datatype Decision = Skip(reason: SkipReason) | Enter(entry: Entry)

  /** A per-candle decision from the signal window and the current equity. */
  type Rule = (seq<Candle>, real) -> Decision

  /** The confirmation candle: an up candle for 'UP', a down candle for 'DOWN'. */
  predicate Confirms(trend: Trend, c: Candle)
  {
    (trend == Up ==> c.close > c.open) && (trend == Down ==> c.close < c.open)
  }

  /**
   * The gates and sizing that candle i of `day` passes through at equity `equity`, in the
   * order the loop applies them. An entry is produced exactly when the trend gate passes,
   * a pullback in a non-neutral trend is detected, the candle confirms it, the quality score
   * reaches MIN_TRADE_SCORE and sizing succeeds.
   */
  function Decide(day: seq<Candle>, i: nat, equity: real): (d: Decision)
    requires i < |day|
  {
    DecideOn(Lookback(day, i), equity)
  }

  function DecideOn(lb: seq<Candle>, equity: real): (d: Decision)
  {
    if !IsTrendStrong(lb, TREND_GATE_PERIOD) then Skip(TrendGate)
    else
      var c := lb[|lb| - 1];
      var signal := DetectTrendAndPullback(lb);
      if signal.0 == Neutral || !signal.1 then Skip(NoSignal)
      else if !Confirms(signal.0, c) then Skip(NoConfirmation)
      else if TradeQuality(lb) < MIN_TRADE_SCORE then Skip(LowQuality)
      else
        match SizeEntry(signal.0, c.close, lb, equity)
        case None => Skip(Unsized)
        case Some(e) => Enter(e)
  }

  /**
   * What an entry `e` decided on the signal window `lb` at equity `equity` has passed: the
   * trend gate, a pullback in the detected non-neutral direction, a confirming candle and the
   * quality threshold; and how it is sized: a positive risk per share and at least one share,
   * their total risk within 0.3% of a positive equity.
   */
  predicate PassedGates(lb: seq<Candle>, equity: real, e: Entry)
  {
    |lb| >= TREND_GATE_PERIOD + 10 && IsTrendStrong(lb, TREND_GATE_PERIOD) &&
    DetectTrendAndPullback(lb).0 != Neutral && DetectTrendAndPullback(lb).1 &&
    e.trend == DetectTrendAndPullback(lb).0 && Confirms(e.trend, lb[|lb| - 1]) &&
    TradeQuality(lb) >= MIN_TRADE_SCORE &&
    e.risk > 0.0 && e.qty >= 1 && equity > 0.0 && e.qty as real * e.risk <= equity * RISK_PER_TRADE
  }

  /**
   * Every entry has passed all the gates and is sized within budget. A candle counts as a
   * trend-gate skip exactly when the gate fails, and as a quality skip exactly when every
   * earlier gate passes and the score falls short of MIN_TRADE_SCORE.
   */
  lemma DecideOnGates(lb: seq<Candle>, equity: real)
    ensures DecideOn(lb, equity).Enter? ==> PassedGates(lb, equity, DecideOn(lb, equity).entry)
    ensures DecideOn(lb, equity) == Skip(TrendGate) <==> !IsTrendStrong(lb, TREND_GATE_PERIOD)
    ensures DecideOn(lb, equity) == Skip(LowQuality) <==>
      IsTrendStrong(lb, TREND_GATE_PERIOD) && DetectTrendAndPullback(lb).0 != Neutral &&
      DetectTrendAndPullback(lb).1 && Confirms(DetectTrendAndPullback(lb).0, lb[|lb| - 1]) &&
      TradeQuality(lb) < MIN_TRADE_SCORE
  {
    if IsTrendStrong(lb, TREND_GATE_PERIOD) {
      var sig := DetectTrendAndPullback(lb);
      var c := lb[|lb| - 1];
      if sig.0 != Neutral && sig.1 && Confirms(sig.0, c) && TradeQuality(lb) >= MIN_TRADE_SCORE {
        var o := SizeEntry(sig.0, c.close, lb, equity);
        assert DecideOn(lb, equity) == if o.Some? then Enter(o.value) else Skip(Unsized);
        if o.Some? {
          var e := o.value;
          EntryFitsBudget(e);
          assert |lb| >= TREND_GATE_PERIOD + 10;
          assert e.trend == sig.0;
          assert e.risk > 0.0 && e.qty >= 1;
          assert e.riskAmount == equity * RISK_PER_TRADE;
          assert equity > 0.0;
          assert e.qty as real * e.risk <= equity * RISK_PER_TRADE;
          assert PassedGates(lb, equity, e);
        }
      }
    }
  }

  /**
   * No lookahead: the decision at candle i reads nothing after candle i, so two days that
   * agree up to and including candle i decide the same way.
   */
  lemma DecideNoLookahead(day: seq<Candle>, other: seq<Candle>, i: nat, equity: real)
    requires i < |day| && i < |other| && day[..i + 1] == other[..i + 1]
    ensures Decide(day, i, equity) == Decide(other, i, equity)
  {
    LookbackIsPast(day, i);
    LookbackIsPast(other, i);
    assert Lookback(day, i) == Lookback(other, i);
    assert day[i] == day[..i + 1][i] == other[i];
  }

  /** `r_multiple = net / risk_amount`. */
  function RMultiple(t: Trade): real
  {
    if t.entry.riskAmount != 0.0 then t.net / t.entry.riskAmount else 0.0
  }

  /** The summed R-multiples of a list of trades. */
  function SumR(ts: seq<Trade>): real
  {
    if ts == [] then 0.0 else SumR(ts[..|ts| - 1]) + RMultiple(ts[|ts| - 1])
  }

  lemma SumRSnoc(ts: seq<Trade>, t: Trade)
    ensures SumR(ts + [t]) == SumR(ts) + RMultiple(t)
  {
    assert (ts + [t])[..|ts|] == ts;
  }

  /** Summing the R-multiples of two runs of trades one after the other adds their sums. */
  lemma {:induction false} SumRAppend(a: seq<Trade>, b: seq<Trade>)
    ensures SumR(a + b) == SumR(a) + SumR(b)
  {
    if b != [] {
      assert (a + b)[..|a + b| - 1] == a + b[..|b| - 1];
      assert (a + b)[|a + b| - 1] == b[|b| - 1];
      SumRAppend(a, b[..|b| - 1]);
    } else {
      assert a + b == a;
    }
  }

  // ---------------------------------------------------------------- one day

  /**
   * What the candle loop of one day produces: its trades, its trend-gate and quality skips,
   * whether it stopped on the daily-loss limit, and the running `daily_pnl`.
   */
  datatype DayRun = DayRun(trades: seq<Trade>, trendGateSkips: nat, qualitySkips: nat, lossStop: bool, pnl: real)

  const NoRun: DayRun := DayRun([], 0, 0, false, 0.0)

  /**
   * The candle loop from candle i on, with running equity `equity` and what the day has
   * produced so far in `run`. It stops before the last five candles, once two trades are
   * taken, or once the day's net P&L is at or below -1% of equity. Each candle is decided by
   * `rule` and each entry closed by `exec`; the validator's own loop is the instance with
   * DecideOn and the day's DayExecutor.
   */
  function Session(rule: Rule, exec: Executor, day: seq<Candle>, i: nat, equity: real, run: DayRun): DayRun
    decreases |day| - i
  {
    if i + EXIT_MARGIN >= |day| then run
    else if |run.trades| >= MAX_TRADES_PER_DAY then run
    else if run.pnl <= -(equity * MAX_DAILY_LOSS) then run.(lossStop := true)
    else
      match rule(Lookback(day, i), equity)
      case Skip(reason) => Session(rule, exec, day, i + 1, equity, Skipped(run, reason))
      case Enter(e) =>
        var tr := exec(i, e, equity);
        Session(rule, exec, day, i + 1, equity + tr.net, Booked(run, tr))
  }

  /** A taken trade is appended and its net P&L added to the day's. */
  function Booked(run: DayRun, tr: Trade): (r: DayRun)
    ensures r.trades == run.trades + [tr] && r.pnl == run.pnl + tr.net
    ensures r.trendGateSkips == run.trendGateSkips && r.qualitySkips == run.qualitySkips && r.lossStop == run.lossStop
  {
    run.(trades := run.trades + [tr], pnl := run.pnl + tr.net)
  }

  /** A skipped candle only moves the trend-gate or quality counter, by its reason. */
  function Skipped(run: DayRun, reason: SkipReason): (r: DayRun)
    ensures r.trades == run.trades && r.lossStop == run.lossStop && r.pnl == run.pnl
    ensures r.trendGateSkips == run.trendGateSkips + (if reason == TrendGate then 1 else 0)
    ensures r.qualitySkips == run.qualitySkips + (if reason == LowQuality then 1 else 0)
  {
    if reason == TrendGate then run.(trendGateSkips := run.trendGateSkips + 1)
    else if reason == LowQuality then run.(qualitySkips := run.qualitySkips + 1)
    else run
  }

  /** Once a stop condition holds, the loop produces nothing more. */
  lemma SessionStops(rule: Rule, exec: Executor, day: seq<Candle>, i: nat, equity: real, run: DayRun)
    requires i + EXIT_MARGIN >= |day| || |run.trades| >= MAX_TRADES_PER_DAY ||
             run.pnl <= -(equity * MAX_DAILY_LOSS)
    ensures Session(rule, exec, day, i, equity, run).trades == run.trades
  {
  }

  /** A skipped candle moves the loop on to the next candle with the same equity. */
  lemma SessionSkipStep(rule: Rule, exec: Executor, day: seq<Candle>, i: nat, equity: real, run: DayRun)
    requires i + EXIT_MARGIN < |day| && |run.trades| < MAX_TRADES_PER_DAY
    requires run.pnl > -(equity * MAX_DAILY_LOSS)
    requires rule(Lookback(day, i), equity).Skip?
    ensures Session(rule, exec, day, i, equity, run)
         == Session(rule, exec, day, i + 1, equity, Skipped(run, rule(Lookback(day, i), equity).reason))
  {
  }

  /** An entry appends its executed trade and moves on with equity grown by its net P&L. */
  lemma SessionEnterStep(rule: Rule, exec: Executor, day: seq<Candle>, i: nat, equity: real, run: DayRun)
    requires i + EXIT_MARGIN < |day| && |run.trades| < MAX_TRADES_PER_DAY
    requires run.pnl > -(equity * MAX_DAILY_LOSS)
    requires rule(Lookback(day, i), equity).Enter?
    ensures var tr := exec(i, rule(Lookback(day, i), equity).entry, equity);
      Session(rule, exec, day, i, equity, run)
      == Session(rule, exec, day, i + 1, equity + tr.net, Booked(run, tr))
  {
  }

  /** The exit scan and P&L of an entry at candle i: the trade DayExecutor(SCRIPT_FILL, ...) makes of it. */
  method CloseTrade(day: seq<Candle>, dayIdx: nat, dayKey: string, i: nat, e: Entry, equity: real) returns (tr: Trade)
    requires i < |day|
    ensures tr == DayExecutor(SCRIPT_FILL, day, dayIdx, dayKey)(i, e, equity)
  {
    var exitPrice := SimulateExit(day, i, e.trend, e.entryPrice, e.stop, e.TrailDist(), e.slip);
    var gross := Gross(e, exitPrice);
    var costs := Costs(gross);
    tr := Trade(dayIdx, dayKey, i, e, exitPrice, gross, costs, gross - costs, equity);
  }

  /**
   * The candle loop of one day, with `exec` closing each entry (the day loop passes the
   * day's DayExecutor, whose exit scan CloseTrade computes). It records each trade in the
   * tally, in the daily-returns map under `dayKey` and in the R-multiple total as it is
   * taken, as the source does, and returns what the day produced.
   */
  method RunDay(rule: Rule, exec: Executor, day: seq<Candle>, dayKey: string, tally0: Tally,
                dailyReturns0: map<string, real>, totalR0: real)
    returns (run: DayRun, tally: Tally, dailyReturns: map<string, real>, totalR: real)
    requires tally0.peak > 0.0
    ensures run == Session(rule, exec, day, FIRST_ENTRY, tally0.equity, NoRun)
    ensures tally == RecordAll(tally0, run.trades)
    ensures dailyReturns == AddReturns(dailyReturns0, dayKey, run.trades)
    ensures totalR == totalR0 + SumR(run.trades)
  {
    run, tally, dailyReturns, totalR := NoRun, tally0, dailyReturns0, totalR0;
    var i := FIRST_ENTRY;
    while i + EXIT_MARGIN < |day|
      invariant Session(rule, exec, day, FIRST_ENTRY, tally0.equity, NoRun)
             == Session(rule, exec, day, i, tally.equity, run)
      invariant tally == RecordAll(tally0, run.trades)
      invariant dailyReturns == AddReturns(dailyReturns0, dayKey, run.trades)
      invariant totalR == totalR0 + SumR(run.trades)
      decreases |day| - i
    {
      if |run.trades| >= MAX_TRADES_PER_DAY {
        return;
      }
      if run.pnl <= -(tally.equity * MAX_DAILY_LOSS) {
        run := run.(lossStop := true);
        return;
      }
      run, tally, dailyReturns, totalR :=
        DecideCandle(rule, exec, day, dayKey, i, tally0, dailyReturns0, totalR0, run, tally, dailyReturns, totalR);
      i := i + 1;
    }
  }

  /**
   * One pass of the candle loop's body past its two stop checks: candle i is decided, and an
   * entry is closed and recorded in the tally, the daily returns and the R-multiple total.
   * The loop's result from candle i is its result from candle i + 1 on the new values.
   */
  method DecideCandle(rule: Rule, exec: Executor, day: seq<Candle>, dayKey: string, i: nat, tally0: Tally,
                      dailyReturns0: map<string, real>, totalR0: real,
                      run: DayRun, tally: Tally, dailyReturns: map<string, real>, totalR: real)
    returns (run': DayRun, tally': Tally, dailyReturns': map<string, real>, totalR': real)
    requires i + EXIT_MARGIN < |day| && |run.trades| < MAX_TRADES_PER_DAY
    requires run.pnl > -(tally.equity * MAX_DAILY_LOSS)
    requires tally0.peak > 0.0 && tally == RecordAll(tally0, run.trades)
    requires dailyReturns == AddReturns(dailyReturns0, dayKey, run.trades)
    requires totalR == totalR0 + SumR(run.trades)
    ensures Session(rule, exec, day, i, tally.equity, run) == Session(rule, exec, day, i + 1, tally'.equity, run')
    ensures tally' == RecordAll(tally0, run'.trades)
    ensures dailyReturns' == AddReturns(dailyReturns0, dayKey, run'.trades)
    ensures totalR' == totalR0 + SumR(run'.trades)
  {
    var decision := rule(Lookback(day, i), tally.equity);
    match decision {
      case Skip(reason) =>
        SessionSkipStep(rule, exec, day, i, tally.equity, run);
        run', tally', dailyReturns', totalR' := Skipped(run, reason), tally, dailyReturns, totalR;
      case Enter(e) =>
        var tr := exec(i, e, tally.equity);
        var net := tr.net;
        SessionEnterStep(rule, exec, day, i, tally.equity, run);
        RecordAllSnoc(tally0, run.trades, tr);
        SumRSnoc(run.trades, tr);
        AddReturnsSnoc(dailyReturns0, dayKey, run.trades, tr);
        totalR' := totalR + RMultiple(tr);
        tally' := Record(tally, net);
        dailyReturns' := AddReturn(dailyReturns, dayKey, net);
        run' := Booked(run, tr);
    }
  }
}
