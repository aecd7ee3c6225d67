/**
 * The base benchmark of validate_base_comparison.py: the intraday days of one symbol are laid
 * end to end in one candle list with a [start, end) range per day, and each day of at least
 * twenty candles takes at most one unfiltered trade, in the direction of the 13/34 EMA pair,
 * sized on a stop two ATRs away and closed at the day's last close.
 */
module BaseBenchmark {
  import opened Candles
  import opened SwingIndicators
  import opened Bookkeeping

  const RISK_PER_TRADE: real := 0.003
  const STT: real := 0.00025
  const BROKERAGE: real := 20.0
  const SLIPPAGE_PCT: real := 0.0005
  const EMA_FAST: nat := 13
  const EMA_SLOW: nat := 34
  const ATR_PERIOD: nat := 14
  const STOP_ATR_MULT: real := 2.0
  /** Days with fewer candles are skipped. */
  const MIN_DAY_CANDLES: nat := 20
  /** The signal window reaches back this many candles of the concatenated list. */
  const LOOKBACK: nat := 40

  // ---------------------------------------------------------------------------------------
  // The concatenated candle list and its day index
  // ---------------------------------------------------------------------------------------

  /** `all_candles` after the first n days: their candles, one day after another. */
  function Concat(days: seq<Day>, n: nat): seq<Candle>
    requires n <= |days|
  {
    if n == 0 then [] else Concat(days, n - 1) + days[n - 1].candles
  }

  /** One entry of `day_indices`: where a day's candles start and end in `all_candles`. */
  datatype Span = Span(start: nat, end: nat, key: string)

  /** `day_indices` after the first n days: one range per day, in the order they were concatenated. */
  function DayIndex(days: seq<Day>, n: nat): (spans: seq<Span>)
    requires n <= |days|
    ensures |spans| == n
  {
    if n == 0 then []
    else DayIndex(days, n - 1) + [Span(|Concat(days, n - 1)|, |Concat(days, n - 1)| + |days[n - 1].candles|, days[n - 1].key)]
  }

  /** Every range lies inside a list of `n` candles. */
  predicate Within(spans: seq<Span>, n: nat)
  {
    forall d :: 0 <= d < |spans| ==> spans[d].start <= spans[d].end <= n
  }

  /**
   * The day index tiles the concatenated list: every range lies inside it, the first starts
   * at 0, the last ends at its length, and each range starts where the previous one ends.
   */
  lemma {:induction false} DayIndexTiles(days: seq<Day>, n: nat)
    requires n <= |days|
    ensures var len, spans := |Concat(days, n)|, DayIndex(days, n);
      Within(spans, len) &&
      (n > 0 ==> spans[0].start == 0 && spans[n - 1].end == len) &&
      (forall d :: 0 <= d < n - 1 ==> spans[d].end == spans[d + 1].start)
  {
    if n > 0 {
      DayIndexTiles(days, n - 1);
      var ps, spans := DayIndex(days, n - 1), DayIndex(days, n);
      assert forall d :: 0 <= d < n - 1 ==> spans[d] == ps[d];
    }
  }

  /** Slicing inside the first part of a concatenation reads only the first part. */
  lemma SliceOfFront<T>(a: seq<T>, b: seq<T>, s: nat, e: nat)
    requires s <= e <= |a|
    ensures (a + b)[s..e] == a[s..e]
  {
  }

  /** Each range of the day index slices out exactly its day's candles, under its day's key. */
  lemma {:induction false} DayIndexSlices(days: seq<Day>, n: nat)
    requires n <= |days|
    ensures Within(DayIndex(days, n), |Concat(days, n)|)
    ensures forall d :: 0 <= d < n ==>
      DayIndex(days, n)[d].key == days[d].key &&
      Concat(days, n)[DayIndex(days, n)[d].start..DayIndex(days, n)[d].end] == days[d].candles
  {
    DayIndexTiles(days, n);
    if n > 0 {
      DayIndexSlices(days, n - 1);
      var a, ps := Concat(days, n - 1), DayIndex(days, n - 1);
      var all, spans := Concat(days, n), DayIndex(days, n);
      forall d | 0 <= d < n
        ensures spans[d].key == days[d].key && all[spans[d].start..spans[d].end] == days[d].candles
      {
        if d < n - 1 {
          assert spans[d] == ps[d];
          SliceOfFront(a, days[n - 1].candles, ps[d].start, ps[d].end);
        }
      }
    }
  }

  /**
   * The index loop: `all_candles.extend` each day's candles and `day_indices.append` its
   * range, proved to build Concat and DayIndex.
   */
  method BuildIndex(days: seq<Day>) returns (all: seq<Candle>, spans: seq<Span>)
    ensures all == Concat(days, |days|) && spans == DayIndex(days, |days|)
  {
    all, spans := [], [];
    var i := 0;
    while i < |days|
      invariant 0 <= i <= |days|
      invariant all == Concat(days, i) && spans == DayIndex(days, i)
    {
      var s := |all|;
      all := all + days[i].candles;
      spans := spans + [Span(s, |all|, days[i].key)];
      i := i + 1;
    }
  }

  // ---------------------------------------------------------------------------------------
  // The entry at one candle
  // ---------------------------------------------------------------------------------------

  /** `all_candles[g_idx - 40:g_idx + 1]`: forty-one candles ending at g, across day boundaries. */
  function Window(all: seq<Candle>, g: nat): (w: seq<Candle>)
    requires LOOKBACK <= g < |all|
    ensures |w| == LOOKBACK + 1 && w[LOOKBACK] == all[g]
  {
    all[g - LOOKBACK..g + 1]
  }

  /** The values the entry block decides on. */
  datatype Setup = Setup(close: real, fast: real, slow: real, atr: real)

  function SetupAt(all: seq<Candle>, g: nat): (u: Setup)
    requires LOOKBACK <= g < |all|
    ensures u.close == all[g].close && u.atr >= 0.0
  {
    var w := Window(all, g);
    Setup(all[g].close, FirstSeededEma(Closes(w), EMA_FAST), FirstSeededEma(Closes(w), EMA_SLOW), WindowAtr(w, ATR_PERIOD))
  }

  /** A sized trade: direction, entry at the close, stop, risk per share and quantity. */
  datatype Entry = Entry(trend: Trend, entryPrice: real, stop: real, risk: real, qty: int)

  /**
   * The unfiltered entry block: 'UP' when the fast EMA is above the slow one and 'DOWN'
   * otherwise, a stop two ATRs on the losing side, and `int(equity * 0.003 / risk)` shares.
   * None when the ATR, the risk or the quantity is not positive.
   */
  function Enter(u: Setup, equity: real): (o: Option<Entry>)
    ensures o.Some? <==> u.atr > 0.0 && Trunc(equity * RISK_PER_TRADE / (u.atr * STOP_ATR_MULT)) >= 1
    ensures o.Some? ==> o.value.trend == (if u.fast > u.slow then Up else Down)
    ensures o.Some? ==> o.value.entryPrice == u.close && o.value.risk == u.atr * STOP_ATR_MULT
    ensures o.Some? && o.value.trend == Up ==> o.value.stop == o.value.entryPrice - o.value.risk
    ensures o.Some? && o.value.trend == Down ==> o.value.stop == o.value.entryPrice + o.value.risk
    ensures o.Some? ==> o.value.qty >= 1 && o.value.qty == Trunc(equity * RISK_PER_TRADE / o.value.risk)
  {
    if u.atr <= 0.0 then None
    else
      var trend := if u.fast > u.slow then Up else Down;
      var entryPrice := u.close;
      var stop := if trend == Up then entryPrice - u.atr * STOP_ATR_MULT else entryPrice + u.atr * STOP_ATR_MULT;
      var risk := Abs(entryPrice - stop);
      assert risk == u.atr * STOP_ATR_MULT;
      if risk <= 0.0 then None
      else
        var qty := Trunc((equity * RISK_PER_TRADE) / risk);
        if qty <= 0 then None else Some(Entry(trend, entryPrice, stop, risk, qty))
  }

  /**
   * The quantity is the largest whole number of shares whose total risk fits the 0.3% budget:
   * the shares fit, and one more share would not.
   */
  lemma EntryFitsBudget(u: Setup, equity: real)
    requires Enter(u, equity).Some?
    ensures var e := Enter(u, equity).value;
      e.qty as real * e.risk <= equity * RISK_PER_TRADE < (e.qty + 1) as real * e.risk
  {
    var e := Enter(u, equity).value;
    BudgetCoversRisk(equity * RISK_PER_TRADE, e.risk, e.qty);
    BudgetBelowNextShare(equity * RISK_PER_TRADE, e.risk, e.qty);
  }

  /**
   * The entry block on the decision candle's close and indicators, with its `continue` on a
   * non-positive ATR, risk or quantity.
   */
  method EnterOn(lastClose: real, fastEma: real, slowEma: real, atr: real, equity: real) returns (o: Option<Entry>)
    ensures o == Enter(Setup(lastClose, fastEma, slowEma, atr), equity)
  {
    var trend := if fastEma > slowEma then Up else Down;
    var entryPrice := lastClose;
    if atr <= 0.0 {
      return None;
    }
    var stop := if trend == Up then entryPrice - atr * STOP_ATR_MULT else entryPrice + atr * STOP_ATR_MULT;
    var risk := Abs(entryPrice - stop);
    if risk <= 0.0 {
      return None;
    }
    var qty := Trunc((equity * RISK_PER_TRADE) / risk);
    if qty <= 0 {
      return None;
    }
    o := Some(Entry(trend, entryPrice, stop, risk, qty));
  }

  /** The setup at global index g: none inside the forty-candle warm-up. */
  function SetupOpt(all: seq<Candle>, g: nat): Option<Setup>
    requires g < |all|
  {
    if g < LOOKBACK then None else Some(SetupAt(all, g))
  }

  /** The entry a setup gives at `equity`. */
  function Signal(u: Option<Setup>, equity: real): Option<Entry>
  {
    match u
    case None => None
    case Some(s) => Enter(s, equity)
  }

  /**
   * One pass of the candle loop up to its decision, at global index g: skip the warm-up,
   * compute the indicators over the forty-one-candle window, and decide the entry.
   */
  method SignalAt(all: seq<Candle>, g: nat, equity: real) returns (o: Option<Entry>)
    requires g < |all|
    ensures o == Signal(SetupOpt(all, g), equity)
  {
    if g < LOOKBACK {
      return None;
    }
    var lookback := all[g - LOOKBACK..g + 1];
    var closes := Closes(lookback);
    var fastEma := CalculateEma(closes, EMA_FAST);
    var slowEma := CalculateEma(closes, EMA_SLOW);
    var lastClose := closes[|closes| - 1];
    var atr := CalculateAtr(lookback, ATR_PERIOD);
    assert lookback == Window(all, g);
    assert Setup(lastClose, fastEma, slowEma, atr) == SetupAt(all, g);
    o := EnterOn(lastClose, fastEma, slowEma, atr, equity);
  }

  // ---------------------------------------------------------------------------------------
  // Costs
  // ---------------------------------------------------------------------------------------

  /** `trade_pnl`: the signed price move times the quantity. */
  function Gross(e: Entry, exitPrice: real): real
  {
    if e.trend == Up then (exitPrice - e.entryPrice) * e.qty as real else (e.entryPrice - exitPrice) * e.qty as real
  }

  /** `sell_val`: the exit value of a long, the entry value of a short. */
  function SellValue(e: Entry, exitPrice: real): real
  {
    if e.trend == Up then exitPrice * e.qty as real else e.entryPrice * e.qty as real
  }

  /** Two brokerage legs, STT on the sell value, and slippage on the entry value. */
  function Costs(e: Entry, exitPrice: real): real
  {
    BROKERAGE * 2.0 + SellValue(e, exitPrice) * STT + e.entryPrice * e.qty as real * SLIPPAGE_PCT
  }

  function Net(e: Entry, exitPrice: real): real
  {
    Gross(e, exitPrice) - Costs(e, exitPrice)
  }

  /**
   * At non-negative prices the costs are at least the two brokerage legs, so a trade nets at
   * most its gross less 40, and only a gross above 40 can net a profit.
   */
  lemma NetBelowGross(e: Entry, exitPrice: real)
    requires e.entryPrice >= 0.0 && exitPrice >= 0.0 && e.qty >= 0
    ensures Costs(e, exitPrice) >= BROKERAGE * 2.0
    ensures Net(e, exitPrice) <= Gross(e, exitPrice) - BROKERAGE * 2.0
    ensures Net(e, exitPrice) > 0.0 ==> Gross(e, exitPrice) > BROKERAGE * 2.0
  {
    ProductNonNegative(exitPrice, e.qty as real);
    ProductNonNegative(e.entryPrice, e.qty as real);
    ProductNonNegative(e.entryPrice * e.qty as real, SLIPPAGE_PCT);
    assert SellValue(e, exitPrice) >= 0.0;
  }

  /** A short's gross is the long's gross mirrored, and it pays STT on its entry value instead. */
  lemma ShortMirrorsLong(e: Entry, exitPrice: real)
    requires e.trend == Down
    ensures Gross(e, exitPrice) == -Gross(e.(trend := Up), exitPrice)
    ensures Costs(e, exitPrice) == Costs(e.(trend := Up), e.entryPrice)
  {
  }

  // ---------------------------------------------------------------------------------------
  // One day
  // ---------------------------------------------------------------------------------------

  /** The entries the first n candles of a day's range give at `equity`, in order. */
  function DaySignals(all: seq<Candle>, sp: Span, n: nat, equity: real): (xs: seq<Option<Entry>>)
    requires sp.start <= sp.end <= |all| && n <= sp.end - sp.start
    ensures |xs| == n
  {
    seq(n, k requires 0 <= k < n => Signal(SetupOpt(all, sp.start + k), equity))
  }

  lemma DaySignalsAt(all: seq<Candle>, sp: Span, n: nat, k: nat, equity: real)
    requires sp.start <= sp.end <= |all| && k < n <= sp.end - sp.start
    ensures DaySignals(all, sp, n, equity)[k] == Signal(SetupOpt(all, sp.start + k), equity)
  {
  }

  /** The day-relative index of the entry candle and its entry. */
  datatype Opened = Opened(idx: nat, entry: Entry)

  /** The candle loop of one day from index i on: the first candle with an entry, where the loop breaks. */
  function FirstSignal(xs: seq<Option<Entry>>, i: nat): Option<Opened>
    decreases |xs| - i
  {
    if i >= |xs| then None
    else
      match xs[i]
      case Some(e) => Some(Opened(i, e))
      case None => FirstSignal(xs, i + 1)
  }

  /**
   * FirstSignal finds the FIRST entry: the index it returns has that entry, and no index
   * between i and it has one; when it returns none, no index from i on has one.
   */
  lemma {:induction false} FirstSignalIsFirst(xs: seq<Option<Entry>>, i: nat)
    ensures var r := FirstSignal(xs, i);
      (r.Some? ==> i <= r.value.idx < |xs| && xs[r.value.idx] == Some(r.value.entry)) &&
      (forall k :: i <= k < |xs| && (r.None? || k < r.value.idx) ==> xs[k].None?)
    decreases |xs| - i
  {
    if i < |xs| && xs[i].None? {
      FirstSignalIsFirst(xs, i + 1);
    }
  }

  /** The day's trade: its entry candle and entry, the exit at the day's last close, and its net. */
  datatype DayTrade = DayTrade(idx: nat, entry: Entry, exitPrice: real, net: real)

  /** The trade a day takes at `equity`: none for a day of fewer than twenty candles. */
  function TradeOfDay(all: seq<Candle>, sp: Span, equity: real): (t: Option<DayTrade>)
    requires sp.start <= sp.end <= |all|
    ensures t.Some? ==> sp.end - sp.start >= MIN_DAY_CANDLES
    ensures t.Some? ==> t.value.exitPrice == all[sp.end - 1].close && t.value.net == Net(t.value.entry, t.value.exitPrice)
  {
    if sp.end - sp.start < MIN_DAY_CANDLES then None
    else
      match FirstSignal(DaySignals(all, sp, sp.end - sp.start - 1, equity), 0)
      case None => None
      case Some(o) =>
        var exitPrice := all[sp.end - 1].close;
        Some(DayTrade(o.idx, o.entry, exitPrice, Net(o.entry, exitPrice)))
  }

  /** The books after a day: its trade, if any, booked. */
  function AfterDay(b: Books, all: seq<Candle>, sp: Span): Books
    requires sp.start <= sp.end <= |all|
  {
    match TradeOfDay(all, sp, b.equity)
    case None => b
    case Some(t) => Book(b, t.net)
  }

  /** The books after the days of `spans` in order, from the opening account. */
  function RunDays(all: seq<Candle>, spans: seq<Span>): Books
    requires Within(spans, |all|)
  {
    if spans == [] then Opening() else AfterDay(RunDays(all, spans[..|spans| - 1]), all, spans[|spans| - 1])
  }

  /** One pass of the candle loop at day-relative index i, up to its decision. */
  method DecideCandle(all: seq<Candle>, sp: Span, n: nat, i: nat, equity: real) returns (o: Option<Entry>)
    requires sp.start <= sp.end <= |all| && i < n <= sp.end - sp.start
    ensures o == DaySignals(all, sp, n, equity)[i]
  {
    o := SignalAt(all, sp.start + i, equity);
    DaySignalsAt(all, sp, n, i, equity);
  }

  /**
   * The candle loop of one day: `for i in range(len(day_candles) - 1)`, breaking at the first
   * candle with an entry.
   */
  method FindEntry(all: seq<Candle>, sp: Span, equity: real) returns (o: Option<Opened>)
    requires sp.start < sp.end <= |all|
    ensures o == FirstSignal(DaySignals(all, sp, sp.end - sp.start - 1, equity), 0)
  {
    ghost var xs := DaySignals(all, sp, sp.end - sp.start - 1, equity);
    var i := 0;
    while i < sp.end - sp.start - 1
      invariant 0 <= i <= sp.end - sp.start - 1
      invariant FirstSignal(xs, i) == FirstSignal(xs, 0)
    {
      var signal := DecideCandle(all, sp, sp.end - sp.start - 1, i, equity);
      if signal.Some? {
        return Some(Opened(i, signal.value));
      }
      i := i + 1;
    }
    return None;
  }

  /** The booking block: the trade's P&L and costs, and the counters with its net added. */
  method BookTrade(trades: nat, wins: nat, pnl: real, grossProfit: real, grossLoss: real, equity: real,
                   e: Entry, exitPrice: real)
    returns (trades': nat, wins': nat, pnl': real, grossProfit': real, grossLoss': real, equity': real)
    ensures Books(trades', wins', pnl', grossProfit', grossLoss', equity')
            == Book(Books(trades, wins, pnl, grossProfit, grossLoss, equity), Net(e, exitPrice))
  {
    var tradePnl := if e.trend == Up then (exitPrice - e.entryPrice) * e.qty as real else (e.entryPrice - exitPrice) * e.qty as real;
    var sellVal := if e.trend == Up then exitPrice * e.qty as real else e.entryPrice * e.qty as real;
    var costs := (BROKERAGE * 2.0) + (sellVal * STT) + (e.entryPrice * e.qty as real * SLIPPAGE_PCT);
    var net := tradePnl - costs;
    assert tradePnl == Gross(e, exitPrice) && sellVal == SellValue(e, exitPrice);
    assert net == Net(e, exitPrice);
    trades', wins', pnl', grossProfit', grossLoss', equity' := trades + 1, wins, pnl + net, grossProfit, grossLoss, equity + net;
    if net > 0.0 {
      wins' := wins' + 1;
      grossProfit' := grossProfit' + net;
    } else {
      grossLoss' := grossLoss' + Abs(net);
    }
  }

  /**
   * The body of the day loop on the loop's counters: skip a short day, find the day's entry,
   * and book the trade closed at the day's last close.
   */
  method TradeDay(all: seq<Candle>, sp: Span, trades: nat, wins: nat, pnl: real, grossProfit: real,
                  grossLoss: real, equity: real)
    returns (trades': nat, wins': nat, pnl': real, grossProfit': real, grossLoss': real, equity': real)
    requires sp.start <= sp.end <= |all|
    ensures Books(trades', wins', pnl', grossProfit', grossLoss', equity')
            == AfterDay(Books(trades, wins, pnl, grossProfit, grossLoss, equity), all, sp)
  {
    trades', wins', pnl', grossProfit', grossLoss', equity' := trades, wins, pnl, grossProfit, grossLoss, equity;
    var dayCandles := all[sp.start..sp.end];
    if |dayCandles| < MIN_DAY_CANDLES {
      return;
    }
    var found := FindEntry(all, sp, equity);
    if found.Some? {
      var exitPrice := dayCandles[|dayCandles| - 1].close;
      trades', wins', pnl', grossProfit', grossLoss', equity' :=
        BookTrade(trades, wins, pnl, grossProfit, grossLoss, equity, found.value.entry, exitPrice);
    }
  }

  /**
   * process_symbol_base on an already-loaded day map, its days in sorted key order (the file
   * read is left out): the index loop, then the day loop, whose counters are those of RunDays.
   */
  method ProcessSymbolBase(days: seq<Day>) returns (report: Books)
    ensures Within(DayIndex(days, |days|), |Concat(days, |days|)|)
    ensures report == RunDays(Concat(days, |days|), DayIndex(days, |days|))
  {
    var all, spans := BuildIndex(days);
    DayIndexTiles(days, |days|);
    var trades: nat, wins: nat := 0, 0;
    var pnl, grossProfit, grossLoss := 0.0, 0.0, 0.0;
    var equity := INITIAL_CAPITAL;
    var d := 0;
    while d < |spans|
      invariant 0 <= d <= |spans|
      invariant Books(trades, wins, pnl, grossProfit, grossLoss, equity) == RunDays(all, spans[..d])
    {
      assert spans[..d + 1][..d] == spans[..d];
      trades, wins, pnl, grossProfit, grossLoss, equity :=
        TradeDay(all, spans[d], trades, wins, pnl, grossProfit, grossLoss, equity);
      d := d + 1;
    }
    assert spans[..d] == spans;
    report := Books(trades, wins, pnl, grossProfit, grossLoss, equity);
  }

  // ---------------------------------------------------------------------------------------
  // Properties of the run
  // ---------------------------------------------------------------------------------------

  /** The number of ranges of at least twenty candles, the days the loop trades on. */
  function TradeableDays(spans: seq<Span>): (n: nat)
    ensures n <= |spans|
  {
    if spans == [] then 0
    else TradeableDays(spans[..|spans| - 1]) + (if spans[|spans| - 1].end - spans[|spans| - 1].start >= MIN_DAY_CANDLES then 1 else 0)
  }

  /**
   * One trade per day at most, and none on a short day: the trades never outnumber the days
   * of at least twenty candles. The books balance throughout.
   */
  lemma {:induction false} RunDaysBalanced(all: seq<Candle>, spans: seq<Span>)
    requires Within(spans, |all|)
    ensures Balanced(RunDays(all, spans))
    ensures RunDays(all, spans).trades <= TradeableDays(spans)
  {
    if spans == [] {
      OpeningBalanced();
    } else {
      var prev := spans[..|spans| - 1];
      var sp := spans[|spans| - 1];
      RunDaysBalanced(all, prev);
      var b := RunDays(all, prev);
      match TradeOfDay(all, sp, b.equity)
      case None =>
      case Some(t) =>
        BookBalanced(b, t.net);
    }
  }

  /**
   * A day's trade is taken on a candle of the day other than its last, and only once the
   * forty-candle warm-up of the concatenated list is over.
   */
  lemma TradeOfDayEntry(all: seq<Candle>, sp: Span, equity: real)
    requires sp.start <= sp.end <= |all|
    ensures var t := TradeOfDay(all, sp, equity);
      t.Some? ==> t.value.idx + 1 < sp.end - sp.start && sp.start + t.value.idx >= LOOKBACK
  {
    var t := TradeOfDay(all, sp, equity);
    if t.Some? {
      var n := sp.end - sp.start - 1;
      var xs := DaySignals(all, sp, n, equity);
      FirstSignalIsFirst(xs, 0);
      DaySignalsAt(all, sp, n, t.value.idx, equity);
      assert xs[t.value.idx].Some?;
    }
  }

  /**
   * A day's trade, in terms of the loaded days: it is taken on one of that day's candles other
   * than its last, at least forty candles into the list, and closed at that day's last close.
   */
  lemma DayTradeStaysInItsDay(days: seq<Day>, d: nat, equity: real)
    requires d < |days|
    ensures Within(DayIndex(days, |days|), |Concat(days, |days|)|)
    ensures var sp := DayIndex(days, |days|)[d];
      var t := TradeOfDay(Concat(days, |days|), sp, equity);
      var cs := days[d].candles;
      t.Some? ==> |cs| >= MIN_DAY_CANDLES && t.value.idx + 1 < |cs| && sp.start + t.value.idx >= LOOKBACK &&
                  t.value.exitPrice == cs[|cs| - 1].close
  {
    DayIndexSlices(days, |days|);
    var all, sp := Concat(days, |days|), DayIndex(days, |days|)[d];
    var cs := days[d].candles;
    assert all[sp.start..sp.end] == cs;
    assert |cs| == sp.end - sp.start;
    TradeOfDayEntry(all, sp, equity);
    if |cs| > 0 {
      assert all[sp.end - 1] == cs[|cs| - 1];
    }
  }
}
