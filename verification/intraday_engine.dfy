/**
 * The per-symbol simulation of the unfiltered intraday validator: for every day of at least
 * 75 candles, a candle loop that enters on any non-neutral EMA trend, at most two trades a
 * day, with the same sizing, trailing exit and cost model as the upgraded validator, but
 * without its daily-loss stop, kill switch, volatility filter or quality gates.
 *
 * The candle loop is specified by `Session` and the day loop by the fold `Run` of `StepDay`;
 * the methods `RunDay` and `ProcessSymbol` are proved to compute exactly those.
 */
module IntradayEngine {
  import opened Candles
  import opened UpgradedSignals
  import opened IntradayTrade
  import opened Ledger

  /**
   * detect_trend: 'NEUTRAL' below MIN_HISTORY candles, otherwise 'UP' exactly when the fast
   * EMA and the last close are both above the slow EMA, 'DOWN' exactly in the mirrored case.
   */
  function DetectTrend(cs: seq<Candle>): (t: Trend)
    ensures |cs| < MIN_HISTORY ==> t == Neutral
    ensures |cs| >= MIN_HISTORY ==>
      (t == Up <==> FastEma(cs) > SlowEma(cs) && cs[|cs| - 1].close > SlowEma(cs)) &&
      (t == Down <==> FastEma(cs) < SlowEma(cs) && cs[|cs| - 1].close < SlowEma(cs))
  {
    if |cs| < MIN_HISTORY then Neutral
    else ClassifyTrend(FastEma(cs), SlowEma(cs), cs[|cs| - 1].close)
  }

  /** The two validators label trends alike: detect_trend is the first half of detect_trend_and_pullback. */
  lemma DetectTrendAgrees(cs: seq<Candle>)
    ensures DetectTrend(cs) == DetectTrendAndPullback(cs).0
  {
  }

  /**
   * The entry decision of the unfiltered loop at a signal window: none on a neutral trend,
   * otherwise the entry sized at the window's last close, when sizing succeeds.
   */
  function Signal(lb: seq<Candle>, equity: real): (o: Option<Entry>)
    ensures o.Some? ==> o.value.trend == DetectTrend(lb) && o.value.trend != Neutral
    ensures o.Some? ==> o.value.risk > 0.0 && o.value.qty >= 1 && o.value.riskAmount == equity * RISK_PER_TRADE
    ensures o.Some? ==> o.value.qty == Trunc(o.value.riskAmount / o.value.risk)
    ensures DetectTrend(lb) == Neutral ==> o == None
  {
    var trend := DetectTrend(lb);
    if trend == Neutral then None else SizeEntry(trend, lb[|lb| - 1].close, lb, equity)
  }

  /**
   * How the loop decides an entry from the signal window and the equity; `Signal` in the
   * validator. The loop methods and their proofs take it as a parameter so that they do not
   * depend on the indicator arithmetic.
   */
  type EntryRule = (seq<Candle>, real) -> Option<Entry>

  /**
   * The candle loop of one day from candle i on, at equity `equity`, with the day's trades
   * so far in `ts`. It stops before the last five candles or once two trades are taken;
   * each entry is chosen by `rule` and closed by `exec` (Signal and the day's DayExecutor in
   * the validator). The trades it
   * returns extend `ts`, and there are never more than two of them.
   */
  function Session(rule: EntryRule, exec: Executor, day: seq<Candle>, i: nat, equity: real, ts: seq<Trade>): (r: seq<Trade>)
    ensures |ts| <= |r|
    ensures |ts| <= MAX_TRADES_PER_DAY ==> |r| <= MAX_TRADES_PER_DAY
    decreases |day| - i
  {
    if i + EXIT_MARGIN >= |day| || |ts| >= MAX_TRADES_PER_DAY then ts
    else
      match rule(Lookback(day, i), equity)
      case None => Session(rule, exec, day, i + 1, equity, ts)
      case Some(e) =>
        var tr := exec(i, e, equity);
        Session(rule, exec, day, i + 1, equity + tr.net, ts + [tr])
  }

  /**
   * One pass of the candle loop's body past its cap check: candle i is decided, and an entry
   * is closed and recorded in the tally and the daily returns. The loop's result from candle
   * i is its result from candle i + 1 on the new values.
   */
  method TakeCandle(rule: EntryRule, exec: Executor, day: seq<Candle>, dayKey: string, i: nat, tally0: Tally,
                    dailyReturns0: map<string, real>, ts: seq<Trade>, tally: Tally, dailyReturns: map<string, real>)
    returns (ts': seq<Trade>, tally': Tally, dailyReturns': map<string, real>)
    requires i + EXIT_MARGIN < |day| && |ts| < MAX_TRADES_PER_DAY
    requires tally0.peak > 0.0 && tally == RecordAll(tally0, ts)
    requires dailyReturns == AddReturns(dailyReturns0, dayKey, ts)
    ensures Session(rule, exec, day, i, tally.equity, ts) == Session(rule, exec, day, i + 1, tally'.equity, ts')
    ensures tally' == RecordAll(tally0, ts')
    ensures dailyReturns' == AddReturns(dailyReturns0, dayKey, ts')
  {
    var signal := rule(Lookback(day, i), tally.equity);
    match signal {
      case None =>
        SessionSkipStep(rule, exec, day, i, tally.equity, ts);
        ts', tally', dailyReturns' := ts, tally, dailyReturns;
      case Some(e) =>
        var tr := exec(i, e, tally.equity);
        SessionEnterStep(rule, exec, day, i, tally.equity, ts);
        var net := tr.net;
        RecordAllSnoc(tally0, ts, tr);
        AddReturnsSnoc(dailyReturns0, dayKey, ts, tr);
        tally' := Record(tally, net);
        dailyReturns' := AddReturn(dailyReturns, dayKey, net);
        ts' := ts + [tr];
    }
  }

  /**
   * The candle loop of one day. It records each trade in the tally and in the daily-returns
   * map under `dayKey` as it is taken, as the source does, and returns the day's trades.
   */
  method RunDay(rule: EntryRule, exec: Executor, day: seq<Candle>, dayKey: string, tally0: Tally, dailyReturns0: map<string, real>)
    returns (ts: seq<Trade>, tally: Tally, dailyReturns: map<string, real>)
    requires tally0.peak > 0.0
    ensures ts == Session(rule, exec, day, FIRST_ENTRY, tally0.equity, [])
    ensures tally == RecordAll(tally0, ts)
    ensures dailyReturns == AddReturns(dailyReturns0, dayKey, ts)
  {
    ts, tally, dailyReturns := [], tally0, dailyReturns0;
    var i := FIRST_ENTRY;
    while i + EXIT_MARGIN < |day|
      invariant Session(rule, exec, day, FIRST_ENTRY, tally0.equity, []) == Session(rule, exec, day, i, tally.equity, ts)
      invariant tally == RecordAll(tally0, ts)
      invariant dailyReturns == AddReturns(dailyReturns0, dayKey, ts)
      decreases |day| - i
    {
      if |ts| >= MAX_TRADES_PER_DAY {
        SessionEnds(rule, exec, day, i, tally.equity, ts);
        return;
      }
      ts, tally, dailyReturns := TakeCandle(rule, exec, day, dayKey, i, tally0, dailyReturns0, ts, tally, dailyReturns);
      i := i + 1;
    }
  }

  /** The candle loop only appends: the trades it starts with are a prefix of those it returns. */
  lemma {:induction false} SessionExtends(rule: EntryRule, exec: Executor, day: seq<Candle>, i: nat, equity: real,
                                          ts: seq<Trade>)
    ensures ts <= Session(rule, exec, day, i, equity, ts)
    decreases |day| - i
  {
    if i + EXIT_MARGIN < |day| && |ts| < MAX_TRADES_PER_DAY {
      match rule(Lookback(day, i), equity)
      case None =>
        SessionExtends(rule, exec, day, i + 1, equity, ts);
      case Some(e) =>
        var tr := exec(i, e, equity);
        SessionExtends(rule, exec, day, i + 1, equity + tr.net, ts + [tr]);
    }
  }

  /** A candle without an entry moves the loop on to the next candle with the same equity. */
  lemma SessionSkipStep(rule: EntryRule, exec: Executor, day: seq<Candle>, i: nat, equity: real, ts: seq<Trade>)
    requires i + EXIT_MARGIN < |day| && |ts| < MAX_TRADES_PER_DAY
    requires rule(Lookback(day, i), equity).None?
    ensures Session(rule, exec, day, i, equity, ts) == Session(rule, exec, day, i + 1, equity, ts)
  {
  }

  /** An entry appends its executed trade and moves on with equity grown by its net P&L. */
  lemma SessionEnterStep(rule: EntryRule, exec: Executor, day: seq<Candle>, i: nat, equity: real, ts: seq<Trade>)
    requires i + EXIT_MARGIN < |day| && |ts| < MAX_TRADES_PER_DAY
    requires rule(Lookback(day, i), equity).Some?
    ensures var tr := exec(i, rule(Lookback(day, i), equity).value, equity);
      Session(rule, exec, day, i, equity, ts) == Session(rule, exec, day, i + 1, equity + tr.net, ts + [tr])
  {
  }

  /** Before the last five candles, or once two trades are taken, the loop ends with the trades it has. */
  lemma SessionEnds(rule: EntryRule, exec: Executor, day: seq<Candle>, i: nat, equity: real, ts: seq<Trade>)
    requires i + EXIT_MARGIN >= |day| || |ts| >= MAX_TRADES_PER_DAY
    ensures Session(rule, exec, day, i, equity, ts) == ts
  {
  }

  // ---------------------------------------------------------------- the day loop

  /** The day loop's variables: the ledger, the daily returns and the trades taken so far. */
  datatype IntradayState = IntradayState(tally: Tally, dailyReturns: map<string, real>, log: seq<Trade>)

  function Initial(): (s: IntradayState)
    ensures Consistent(s.tally) && s.tally.equity == INITIAL_CAPITAL && s.log == [] && s.dailyReturns == map[]
  {
    IntradayState(Start(), map[], [])
  }

  /**
   * The trades of day d, opened at `equity`: none for a day of fewer than 75 candles, and
   * otherwise those of its candle loop, at most two.
   */
  function DayTrades(day: Day, d: nat, equity: real): (ts: seq<Trade>)
    ensures |ts| <= MAX_TRADES_PER_DAY
    ensures |day.candles| < MIN_DAY_CANDLES ==> ts == []
  {
    if |day.candles| < MIN_DAY_CANDLES then []
    else Session(Signal, DayExecutor(SCRIPT_FILL, day.candles, d, day.key), day.candles, FIRST_ENTRY, equity, [])
  }

  /** Day d of the symbol: its trades are recorded in the tally, the daily returns and the log. */
  function StepDay(s: IntradayState, d: nat, day: Day): (r: IntradayState)
    requires s.tally.peak > 0.0
    ensures r.tally.peak >= s.tally.peak && r.tally.maxDd >= s.tally.maxDd
  {
    var ts := DayTrades(day, d, s.tally.equity);
    IntradayState(RecordAll(s.tally, ts), AddReturns(s.dailyReturns, day.key, ts), s.log + ts)
  }

  /** The state after the days of `days`, in order, day i having index i. */
  function Run(days: seq<Day>): (s: IntradayState)
    ensures s.tally.peak >= INITIAL_CAPITAL
  {
    if days == [] then Initial() else StepDay(Run(days[..|days| - 1]), |days| - 1, days[|days| - 1])
  }

  /** The dictionary process_symbol returns, without the symbol's name. */
  datatype Report = Report(trades: nat, wins: nat, winRate: real, pnl: real, totalReturn: real, maxDd: real,
                           avgTrade: real, tradingDays: nat)

  /**
   * The metrics block: win rate and average guarded against zero trades, the return and
   * the maximum drawdown in percent, and the number of days in the daily returns.
   */
  function Summarize(s: IntradayState): (r: Report)
    ensures r.trades == s.tally.trades && r.wins == s.tally.wins && r.pnl == s.tally.pnl
    ensures r.maxDd == s.tally.maxDd * 100.0 && r.tradingDays == |s.dailyReturns.Keys|
    ensures r.totalReturn == s.tally.pnl / INITIAL_CAPITAL * 100.0
    ensures s.tally.wins <= s.tally.trades ==> 0.0 <= r.winRate <= 100.0
    ensures r.trades == 0 ==> r.winRate == 0.0 && r.avgTrade == 0.0
    ensures r.trades > 0 ==> r.avgTrade * r.trades as real == r.pnl
  {
    Report(s.tally.trades, s.tally.wins, WinRate(s.tally.wins, s.tally.trades), s.tally.pnl,
           s.tally.pnl / INITIAL_CAPITAL * 100.0, s.tally.maxDd * 100.0,
           Average(s.tally.pnl, s.tally.trades), |s.dailyReturns.Keys|)
  }

  /** One pass of the day loop's body: day d of the symbol, from the loop's variables `s`. */
  method ProcessDay(s: IntradayState, d: nat, day: Day) returns (r: IntradayState)
    requires s.tally.peak > 0.0
    ensures r == StepDay(s, d, day)
  {
    if |day.candles| < MIN_DAY_CANDLES {
      assert s.log + [] == s.log;
      return s;
    }
    var ts, tally, dailyReturns := RunDay(Signal, DayExecutor(SCRIPT_FILL, day.candles, d, day.key), day.candles, day.key,
                                          s.tally, s.dailyReturns);
    r := IntradayState(tally, dailyReturns, s.log + ts);
  }

  /** process_symbol on the symbol's days in sorted order: the day loop, then the summary. */
  method ProcessSymbol(days: seq<Day>) returns (report: Report)
    ensures report == Summarize(Run(days))
  {
    var s := Initial();
    var d := 0;
    while d < |days|
      invariant d <= |days|
      invariant s == Run(days[..d])
    {
      assert days[..d + 1][..d] == days[..d];
      s := ProcessDay(s, d, days[d]);
      d := d + 1;
    }
    assert days[..d] == days;
    var tally := s.tally;
    var winRate := if tally.trades > 0 then tally.wins as real / tally.trades as real * 100.0 else 0.0;
    var totalReturn := tally.pnl / INITIAL_CAPITAL * 100.0;
    var avgTrade := if tally.trades > 0 then tally.pnl / tally.trades as real else 0.0;
    report := Report(tally.trades, tally.wins, winRate, tally.pnl, totalReturn, tally.maxDd * 100.0,
                     avgTrade, |s.dailyReturns.Keys|);
  }
}
