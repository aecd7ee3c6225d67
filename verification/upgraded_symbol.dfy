/**
 * The day loop of the upgraded validator for one symbol: the short-day skip, the rolling
 * drawdown kill switch and its pause, the first-hour volatility filter, and for every other
 * day the candle loop, whose trades are recorded in the tally, the daily returns and the
 * R-multiple total. `StepDay` is one day, `Run` the fold over the symbol's sorted days,
 * `ProcessSymbolWithFilters` the loop that computes it and `Report` the summary it returns.
 */
module UpgradedSymbol {
  import opened Candles
  import IntradayIndicators
  import opened UpgradedSignals
  import opened IntradayTrade
  import opened Ledger
  import opened UpgradedEngine

  /** The six counters of `risk_metrics`. */
  datatype RiskMetrics = RiskMetrics(volatilitySkips: nat, trendGateSkips: nat, entryConfirmationSkips: nat,
                                     qualityScoreSkips: nat, dailyLossBreaches: nat, killSwitchTriggers: nat)

  /**
   * The day loop's variables: the ledger, the rolling peak, the kill-switch flag and the
   * index of the day it ends on, the risk counters, the daily returns, the R-multiple total,
   * and the trades taken so far in order.
   */
  datatype SymbolState = SymbolState(tally: Tally, rollingPeak: real, killActive: bool, killEnd: nat,
                                     metrics: RiskMetrics, dailyReturns: map<string, real>, totalR: real,
                                     log: seq<Trade>)

  function Initial(): (s: SymbolState)
    ensures Consistent(s.tally) && s.rollingPeak == s.tally.equity == INITIAL_CAPITAL && !s.killActive
    ensures s.log == [] && s.dailyReturns == map[] && s.totalR == 0.0
  {
    SymbolState(Start(), INITIAL_CAPITAL, false, 0, RiskMetrics(0, 0, 0, 0, 0, 0), map[], 0.0, [])
  }

  /** `(rolling_peak - equity) / rolling_peak if rolling_peak > 0 else 0`. */
  function RollingDrawdown(rollingPeak: real, equity: real): real
  {
    if rollingPeak > 0.0 then (rollingPeak - equity) / rollingPeak else 0.0
  }

  /** The first-hour filter: twelve candles against the day's 14-candle ATR. */
  predicate LowVolatility(day: seq<Candle>)
    requires |day| >= FIRST_HOUR
  {
    IsLowVolatilityDay(day[..FIRST_HOUR], IntradayIndicators.RecentAtr(day, IntradayTrade.ATR_PERIOD))
  }

  /** The candle loop of day d of the symbol, opened at `equity`. */
  function DayOutcome(rule: Rule, day: Day, d: nat, equity: real): DayRun
  {
    Session(rule, DayExecutor(SCRIPT_FILL, day.candles, d, day.key), day.candles, FIRST_ENTRY, equity, NoRun)
  }

  /** The counters after a traded day: its trend-gate and quality skips, and a loss stop if any. */
  function AddDay(m: RiskMetrics, run: DayRun): (r: RiskMetrics)
    ensures r.volatilitySkips == m.volatilitySkips && r.killSwitchTriggers == m.killSwitchTriggers
    ensures r.entryConfirmationSkips == m.entryConfirmationSkips
    ensures r.dailyLossBreaches == m.dailyLossBreaches + (if run.lossStop then 1 else 0)
  {
    m.(trendGateSkips := m.trendGateSkips + run.trendGateSkips,
       qualityScoreSkips := m.qualityScoreSkips + run.qualitySkips,
       dailyLossBreaches := m.dailyLossBreaches + if run.lossStop then 1 else 0)
  }

  /**
   * Day d of the symbol. A day of fewer than 75 candles and a day inside the kill-switch
   * pause change nothing. Otherwise the pause is over, and a rolling drawdown of 5% or
   * more starts a new one of KILL_SWITCH_DAYS days; without one the rolling peak follows
   * equity up and the day is opened.
   */
  function StepDay(rule: Rule, s: SymbolState, d: nat, day: Day): (r: SymbolState)
    requires s.tally.peak > 0.0
    ensures r.tally.peak >= s.tally.peak
  {
    if |day.candles| < MIN_DAY_CANDLES then s
    else if s.killActive && d < s.killEnd then s
    else if RollingDrawdown(s.rollingPeak, s.tally.equity) >= KILL_SWITCH_DD then
      s.(killActive := true, killEnd := d + KILL_SWITCH_DAYS,
         metrics := s.metrics.(killSwitchTriggers := s.metrics.killSwitchTriggers + 1))
    else
      var peak := if s.tally.equity > s.rollingPeak then s.tally.equity else s.rollingPeak;
      OpenDay(rule, s.(killActive := false, rollingPeak := peak), d, day)
  }

  /**
   * A day past the short-day check and the kill switch: a low-volatility day is counted and
   * skipped, and any other day runs the candle loop from the current equity and records what
   * it produced.
   */
  function OpenDay(rule: Rule, s: SymbolState, d: nat, day: Day): (r: SymbolState)
    requires s.tally.peak > 0.0 && |day.candles| >= MIN_DAY_CANDLES
    ensures r.tally.peak >= s.tally.peak
    ensures r.metrics.killSwitchTriggers == s.metrics.killSwitchTriggers
    ensures r.metrics.entryConfirmationSkips == s.metrics.entryConfirmationSkips
    ensures s.metrics.volatilitySkips + s.metrics.dailyLossBreaches <= r.metrics.volatilitySkips + r.metrics.dailyLossBreaches
                                                                     <= s.metrics.volatilitySkips + s.metrics.dailyLossBreaches + 1
  {
    if LowVolatility(day.candles) then
      s.(metrics := s.metrics.(volatilitySkips := s.metrics.volatilitySkips + 1))
    else
      var run := DayOutcome(rule, day, d, s.tally.equity);
      SymbolState(RecordAll(s.tally, run.trades), s.rollingPeak, s.killActive, s.killEnd, AddDay(s.metrics, run),
                  AddReturns(s.dailyReturns, day.key, run.trades), s.totalR + SumR(run.trades),
                  s.log + run.trades)
  }

  /** The state after the days of `days`, in order, day i having index i. */
  function Run(rule: Rule, days: seq<Day>): (s: SymbolState)
    ensures s.tally.peak >= INITIAL_CAPITAL
  {
    if days == [] then Initial()
    else StepDay(rule, Run(rule, days[..|days| - 1]), |days| - 1, days[|days| - 1])
  }

  /** The dictionary process_symbol_with_filters returns, without the symbol's name. */
  datatype Report = Report(trades: nat, wins: nat, winRate: real, pnl: real, totalReturn: real, maxDd: real,
                           avgTrade: real, avgR: real, tradingDays: nat, metrics: RiskMetrics)

  /**
   * The metrics block: win rate and averages guarded against zero trades, the return and
   * the maximum drawdown in percent, and the number of days with an entry in the daily returns.
   */
  function Summarize(s: SymbolState): (r: Report)
    ensures r.trades == s.tally.trades && r.wins == s.tally.wins && r.pnl == s.tally.pnl
    ensures r.maxDd == s.tally.maxDd * 100.0 && r.tradingDays == |s.dailyReturns.Keys| && r.metrics == s.metrics
    ensures r.totalReturn == s.tally.pnl / INITIAL_CAPITAL * 100.0
    ensures s.tally.wins <= s.tally.trades ==> 0.0 <= r.winRate <= 100.0
    ensures r.trades == 0 ==> r.winRate == 0.0 && r.avgTrade == 0.0 && r.avgR == 0.0
    ensures r.trades > 0 ==> r.avgTrade * r.trades as real == r.pnl && r.avgR * r.trades as real == s.totalR
  {
    Report(s.tally.trades, s.tally.wins, WinRate(s.tally.wins, s.tally.trades), s.tally.pnl,
           s.tally.pnl / INITIAL_CAPITAL * 100.0, s.tally.maxDd * 100.0,
           Average(s.tally.pnl, s.tally.trades), Average(s.totalR, s.tally.trades),
           |s.dailyReturns.Keys|, s.metrics)
  }

  /** One pass of the day loop's body: day d of the symbol, from the loop's variables `s`. */
  method ProcessDay(rule: Rule, s: SymbolState, d: nat, day: Day) returns (r: SymbolState)
    requires s.tally.peak > 0.0
    ensures r == StepDay(rule, s, d, day)
  {
    r := s;
    if |day.candles| < MIN_DAY_CANDLES {
      return;
    }
    if r.killActive {
      if d < r.killEnd {
        return;
      }
      r := r.(killActive := false);
    }
    var rollingDd := RollingDrawdown(r.rollingPeak, r.tally.equity);
    if rollingDd >= KILL_SWITCH_DD {
      r := r.(killActive := true, killEnd := d + KILL_SWITCH_DAYS,
              metrics := r.metrics.(killSwitchTriggers := r.metrics.killSwitchTriggers + 1));
      return;
    }
    if r.tally.equity > r.rollingPeak {
      r := r.(rollingPeak := r.tally.equity);
    }
    var lowVolatility := LowVolatility(day.candles);
    r := ProcessOpenDay(rule, r, d, day, lowVolatility);
  }

  /** The rest of the loop's body, from the volatility filter's verdict on. */
  method ProcessOpenDay(rule: Rule, s: SymbolState, d: nat, day: Day, lowVolatility: bool) returns (r: SymbolState)
    requires s.tally.peak > 0.0 && |day.candles| >= MIN_DAY_CANDLES
    requires lowVolatility == LowVolatility(day.candles)
    ensures r == OpenDay(rule, s, d, day)
  {
    r := s;
    if lowVolatility {
      r := r.(metrics := r.metrics.(volatilitySkips := r.metrics.volatilitySkips + 1));
      return;
    }
    var run, tally, dailyReturns, totalR :=
      RunDay(rule, DayExecutor(SCRIPT_FILL, day.candles, d, day.key), day.candles, day.key, r.tally, r.dailyReturns, r.totalR);
    r := SymbolState(tally, r.rollingPeak, r.killActive, r.killEnd, AddDay(r.metrics, run), dailyReturns, totalR,
                     r.log + run.trades);
  }

  /**
   * process_symbol_with_filters on the symbol's days in sorted order: the day loop, then
   * the summary of what it accumulated.
   */
  method ProcessSymbolWithFilters(rule: Rule, days: seq<Day>) returns (report: Report)
    ensures report == Summarize(Run(rule, days))
  {
    var s := Initial();
    var d := 0;
    while d < |days|
      invariant d <= |days|
      invariant s == Run(rule, days[..d])
    {
      assert days[..d + 1][..d] == days[..d];
      s := ProcessDay(rule, s, d, days[d]);
      d := d + 1;
    }
    assert days[..d] == days;
    var tally := s.tally;
    var winRate := if tally.trades > 0 then tally.wins as real / tally.trades as real * 100.0 else 0.0;
    var totalReturn := tally.pnl / INITIAL_CAPITAL * 100.0;
    var avgTrade := if tally.trades > 0 then tally.pnl / tally.trades as real else 0.0;
    var avgR := if tally.trades > 0 then s.totalR / tally.trades as real else 0.0;
    report := Report(tally.trades, tally.wins, winRate, tally.pnl, totalReturn, tally.maxDd * 100.0,
                     avgTrade, avgR, |s.dailyReturns.Keys|, s.metrics);
  }
}
