/**
 * Entry pricing, stop placement, risk-based sizing and the brokerage/STT cost model that the
 * upgraded and the unfiltered intraday validators share, and the record of one closed trade.
 */
module IntradayTrade {
  import opened Candles
  import IntradayIndicators
  import TrailingExit

  const RISK_PER_TRADE: real := 0.003
  const SLIPPAGE_PCT: real := 0.0005
  const BROKERAGE: real := 20.0
  const STT: real := 0.001
  const TRAILING_ATR_MULT: real := 1.5
  const ATR_PERIOD: nat := 14
  const SWING_LOOKBACK: nat := 10

  /** The day loops of both intraday validators. */
  const MIN_DAY_CANDLES: nat := 75
  const MAX_TRADES_PER_DAY: nat := 2
  /** `EMA_SLOW + 30`, the first candle a day loop considers. */
  const FIRST_ENTRY: nat := 64
  /** The last five candles of a day are never entry candles. */
  const EXIT_MARGIN: nat := 5
  /** The signal window reaches back this many candles before the decision candle. */
  const LOOKBACK: nat := 60

  /** A sized entry: direction, price after slippage, stop, risk per share and quantity. */
  datatype Entry = Entry(trend: Trend, entryPrice: real, slip: real, stop: real, risk: real,
                         riskAmount: real, qty: int, atr: real)
  {
    /** `atr * TRAILING_ATR_MULT`, the trail distance of the exit scan. */
    function TrailDist(): real { atr * TRAILING_ATR_MULT }
  }

  /**
   * The entry block of the intraday loops, for a signal in direction `trend` on the candle
   * closing at `close`, the last candle of `lookback`. None when the risk per share or the
   * truncated quantity is not positive.
   */
  function SizeEntry(trend: Trend, close: real, lookback: seq<Candle>, equity: real): (o: Option<Entry>)
    requires |lookback| > 0
    ensures o.Some? ==> o.value.trend == trend
    ensures o.Some? ==> o.value.risk > 0.0 && o.value.risk == Abs(o.value.entryPrice - o.value.stop)
    ensures o.Some? ==> o.value.riskAmount == equity * RISK_PER_TRADE
    ensures o.Some? ==> o.value.qty >= 1 && o.value.qty == Trunc(o.value.riskAmount / o.value.risk)
  {
    var slip := close * SLIPPAGE_PCT;
    var entryPrice := if trend == Up then close + slip else close - slip;
    var atr := IntradayIndicators.RecentAtr(lookback, ATR_PERIOD);
    var recent := Tail(lookback, SWING_LOOKBACK);
    var swingHigh := MaxHigh(recent);
    var swingLow := MinLow(recent);
    var stop := if trend == Up then swingLow - atr * 0.5 else swingHigh + atr * 0.5;
    var risk := Abs(entryPrice - stop);
    if risk <= 0.0 then None
    else
      var riskAmount := equity * RISK_PER_TRADE;
      var qty := Trunc(riskAmount / risk);
      if qty <= 0 then None
      else Some(Entry(trend, entryPrice, slip, stop, risk, riskAmount, qty, atr))
  }

  /**
   * An entry sized as int(risk_amount / risk) >= 1 risks at most its budget, and the budget
   * (0.3% of equity) is positive, so entries are only ever sized while equity is positive.
   */
  lemma EntryFitsBudget(e: Entry)
    requires e.risk > 0.0 && e.qty >= 1 && e.qty == Trunc(e.riskAmount / e.risk)
    ensures e.qty as real * e.risk <= e.riskAmount && e.riskAmount > 0.0
  {
    BudgetCoversRisk(e.riskAmount, e.risk, e.qty);
  }

  /** Entry slippage is adverse: a long pays above the close, a short sells below it. */
  lemma SlippageIsAdverse(trend: Trend, close: real, lookback: seq<Candle>, equity: real)
    requires |lookback| > 0 && close >= 0.0
    requires SizeEntry(trend, close, lookback, equity).Some?
    ensures var e := SizeEntry(trend, close, lookback, equity).value;
      if trend == Up then e.entryPrice >= close else e.entryPrice <= close
  {
  }

  /**
   * For well-formed candles and a non-negative close that is the last candle's close,
   * the stop sits on the protective side: below the entry for 'UP', above it otherwise.
   */
  lemma StopIsProtective(trend: Trend, lookback: seq<Candle>, equity: real)
    requires |lookback| > 0
    requires forall k :: 0 <= k < |lookback| ==> WellFormed(lookback[k])
    requires lookback[|lookback| - 1].close >= 0.0
    requires SizeEntry(trend, lookback[|lookback| - 1].close, lookback, equity).Some?
    ensures var e := SizeEntry(trend, lookback[|lookback| - 1].close, lookback, equity).value;
      if trend == Up then e.stop < e.entryPrice else e.stop > e.entryPrice
  {
    var last := lookback[|lookback| - 1];
    var recent := Tail(lookback, SWING_LOOKBACK);
    assert recent[|recent| - 1] == last;
    assert MinLow(recent) <= last.low <= last.close;
    assert MaxHigh(recent) >= last.high >= last.close;
    assert IntradayIndicators.RecentAtr(lookback, ATR_PERIOD) >= 0.0;
  }

  /** `trade_pnl`: the signed price move times the quantity. */
  function Gross(e: Entry, exitPrice: real): real
  {
    if e.trend == Up then (exitPrice - e.entryPrice) * e.qty as real
    else (e.entryPrice - exitPrice) * e.qty as real
  }

  /**
   * `costs = BROKERAGE * 2 + abs(trade_pnl) * STT`. At least the two brokerage legs, and a
   * trade only nets a profit when its gross clears them.
   */
  function Costs(gross: real): (c: real)
    ensures c >= 2.0 * BROKERAGE
    ensures gross - c <= gross - 2.0 * BROKERAGE
    ensures gross - c > 0.0 ==> gross > 2.0 * BROKERAGE
  {
    BROKERAGE * 2.0 + Abs(gross) * STT
  }

  /** One closed intraday trade, with the equity and day it was taken on. */
  datatype Trade = Trade(dayIdx: nat, dayKey: string, entryIdx: nat, entry: Entry,
                         exitPrice: real, gross: real, costs: real, net: real, equityBefore: real)

  /** The trade's P&L fields follow from its entry and exit by the cost model. */
  predicate Settled(t: Trade)
  {
    t.gross == Gross(t.entry, t.exitPrice) && t.costs == Costs(t.gross) && t.net == t.gross - t.costs
  }

  /** `day_candles[max(0, i - 60):i + 1]`: the signal window, ending at the decision candle. */
  function Lookback(day: seq<Candle>, i: nat): (lb: seq<Candle>)
    requires i < |day|
    ensures 0 < |lb| <= LOOKBACK + 1 && |lb| <= i + 1 && lb[|lb| - 1] == day[i]
  {
    day[if i >= LOOKBACK then i - LOOKBACK else 0..i + 1]
  }

  /** The signal window at candle i is made of candles up to i only: it is a suffix of day[..i + 1]. */
  lemma LookbackIsPast(day: seq<Candle>, i: nat)
    requires i < |day|
    ensures Lookback(day, i) == day[..i + 1][i + 1 - |Lookback(day, i)|..]
  {
  }

  /**
   * The fill rule of both validators' exit loops: a stopped trade fills at the better of the
   * stop and the candle's open for the trade. `TrailingExit.WorstCase` is the intended one.
   */
  const SCRIPT_FILL: TrailingExit.FillRule := TrailingExit.AsWritten

  /**
   * The trade that an entry at candle i of `day` becomes under fill rule `fill`: exit scan,
   * gross P&L, costs, net.
   */
  function Execute(fill: TrailingExit.FillRule, day: seq<Candle>, dayIdx: nat, dayKey: string, i: nat, e: Entry,
                   equity: real): Trade
    requires i < |day|
  {
    var exitPrice := TrailingExit.ExitPrice(fill, day, i, e.trend, e.entryPrice, e.stop, e.TrailDist(), e.slip);
    var gross := Gross(e, exitPrice);
    var costs := Costs(gross);
    Trade(dayIdx, dayKey, i, e, exitPrice, gross, costs, gross - costs, equity)
  }

  /** How a day loop turns an entry at a candle index, at the current equity, into a closed trade. */
  type Executor = (nat, Entry, real) -> Trade

  /** The executor records the candle, the entry and the equity it was given. */
  ghost predicate Stamps(exec: Executor)
  {
    forall i: nat, e, q :: exec(i, e, q).entryIdx == i && exec(i, e, q).entry == e && exec(i, e, q).equityBefore == q
  }

  /**
   * Execute on the candles of one day under fill rule `fill`. The engines run SCRIPT_FILL;
   * `DayExecutor(TrailingExit.WorstCase, ...)` is the corrected executor, and every day loop,
   * being generic in its executor, runs with either. The loops only enter on candles inside
   * the day; an index past its end has no candle to exit on and gets a flat trade at the
   * entry price.
   */
  function DayExecutor(fill: TrailingExit.FillRule, day: seq<Candle>, dayIdx: nat, dayKey: string): (exec: Executor)
    ensures Stamps(exec)
    ensures forall i: nat, e, q :: exec(i, e, q).dayIdx == dayIdx && exec(i, e, q).dayKey == dayKey
    ensures forall i: nat, e, q :: i < |day| ==> exec(i, e, q) == Execute(fill, day, dayIdx, dayKey, i, e, q)
  {
    (i: nat, e: Entry, q: real) =>
      if i < |day| then Execute(fill, day, dayIdx, dayKey, i, e, q)
      else Trade(dayIdx, dayKey, i, e, e.entryPrice, 0.0, Costs(0.0), -Costs(0.0), q)
  }

  /**
   * A trade filled as written nets at least what the worst-case fill would give it: the gap
   * between the two fills only ever overstates the P&L the validators report.
   */
  lemma AsWrittenNetNoWorse(day: seq<Candle>, dayIdx: nat, dayKey: string, i: nat, e: Entry, equity: real)
    requires i < |day| && e.qty >= 0
    ensures Execute(TrailingExit.AsWritten, day, dayIdx, dayKey, i, e, equity).net
         >= Execute(TrailingExit.WorstCase, day, dayIdx, dayKey, i, e, equity).net
  {
    var a := TrailingExit.ExitPrice(TrailingExit.AsWritten, day, i, e.trend, e.entryPrice, e.stop, e.TrailDist(), e.slip);
    var w := TrailingExit.ExitPrice(TrailingExit.WorstCase, day, i, e.trend, e.entryPrice, e.stop, e.TrailDist(), e.slip);
    TrailingExit.AsWrittenExitNoWorse(day, i, e.trend, e.entryPrice, e.stop, e.TrailDist(), e.slip);
    GrossGap(e, a, w);
    NetMonotone(Gross(e, a), Gross(e, w));
  }

  /** The gross P&L of a non-negative quantity grows as the exit moves in the trade's favour. */
  lemma GrossGap(e: Entry, a: real, w: real)
    requires e.qty >= 0
    requires if e.trend == Up then a >= w else a <= w
    ensures Gross(e, a) >= Gross(e, w)
  {
    var q := e.qty as real;
    if e.trend == Up {
      assert (a - e.entryPrice) * q - (w - e.entryPrice) * q == (a - w) * q;
    } else {
      assert (e.entryPrice - a) * q - (e.entryPrice - w) * q == (w - a) * q;
    }
  }

  /** Net P&L after costs is monotone in the gross. */
  lemma NetMonotone(ga: real, gw: real)
    requires ga >= gw
    ensures ga - Costs(ga) >= gw - Costs(gw)
  {
  }

  /** The sum of the net P&L of a list of trades. */
  function SumNet(ts: seq<Trade>): real
  {
    if ts == [] then 0.0 else SumNet(ts[..|ts| - 1]) + ts[|ts| - 1].net
  }

  lemma SumNetSnoc(ts: seq<Trade>, t: Trade)
    ensures SumNet(ts + [t]) == SumNet(ts) + t.net
  {
    assert (ts + [t])[..|ts|] == ts;
  }

  /** Summing two runs of trades one after the other adds their sums. */
  lemma {:induction false} SumNetAppend(a: seq<Trade>, b: seq<Trade>)
    ensures SumNet(a + b) == SumNet(a) + SumNet(b)
  {
    if b != [] {
      assert (a + b)[..|a + b| - 1] == a + b[..|b| - 1];
      assert (a + b)[|a + b| - 1] == b[|b| - 1];
      SumNetAppend(a, b[..|b| - 1]);
    } else {
      assert a + b == a;
    }
  }

  /** The number of trades with a positive net P&L. */
  function CountWins(ts: seq<Trade>): (n: nat)
    ensures n <= |ts|
  {
    if ts == [] then 0 else CountWins(ts[..|ts| - 1]) + (if ts[|ts| - 1].net > 0.0 then 1 else 0)
  }

  lemma CountWinsSnoc(ts: seq<Trade>, t: Trade)
    ensures CountWins(ts + [t]) == CountWins(ts) + (if t.net > 0.0 then 1 else 0)
  {
    assert (ts + [t])[..|ts|] == ts;
  }
}
