/**
 * The daily swing validator: one long position at a time per symbol, entered on a pullback
 * in an EMA uptrend and left on a trailing ATR stop. A state per candle, a step function
 * that decides one candle, and the candle loop proved to compute it.
 */
module SwingEngine {
  import opened Candles
  import opened SwingIndicators
  import opened Bookkeeping

  const RISK_PER_TRADE: real := 0.01
  const STT: real := 0.001
  const SLIPPAGE_PCT: real := 0.002
  const EMA_FAST: nat := 20
  const EMA_SLOW: nat := 50
  const TRAILING_ATR_MULT: real := 2.5
  const STOP_ATR_MULT: real := 2.0
  const ATR_PERIOD: nat := 14
  /** The pullback looks at the lows of the three candles before the decision candle. */
  const PULLBACK_DAYS: nat := 3
  /** `EMA_SLOW + 5`, the first candle the loop decides. */
  const FIRST_CANDLE: nat := 55

  /** The open long: entry price after slippage, current stop, risk per share, quantity. */
  datatype Position = Position(entryPrice: real, stop: real, risk: real, qty: int)

  /** The loop's variables between two candles; `position` is None while flat. */
  datatype SwingState = SwingState(books: Books, position: Option<Position>)

  function Initial(): SwingState
  {
    SwingState(Opening(), None)
  }

  /** `candles[i - EMA_SLOW:i + 1]`, the window of the entry indicators. */
  function EntryWindow(cs: seq<Candle>, i: nat): (w: seq<Candle>)
    requires EMA_SLOW <= i < |cs|
    ensures |w| == EMA_SLOW + 1 && w[EMA_SLOW] == cs[i]
  {
    cs[i - EMA_SLOW..i + 1]
  }

  function FastEma(cs: seq<Candle>, i: nat): real
    requires EMA_SLOW <= i < |cs|
  {
    FirstSeededEma(Closes(EntryWindow(cs, i)), EMA_FAST)
  }

  function SlowEma(cs: seq<Candle>, i: nat): real
    requires EMA_SLOW <= i < |cs|
  {
    FirstSeededEma(Closes(EntryWindow(cs, i)), EMA_SLOW)
  }

  /** The entry ATR: the mean of the window's fifty true ranges. */
  function EntryAtr(cs: seq<Candle>, i: nat): (atr: real)
    requires EMA_SLOW <= i < |cs|
    ensures atr >= 0.0
  {
    WindowAtr(EntryWindow(cs, i), ATR_PERIOD)
  }

  /** The last three lows before candle i, `min(c['low'] for c in candles[i-3:i])`. */
  function RecentLow(cs: seq<Candle>, i: nat): real
    requires PULLBACK_DAYS <= i <= |cs|
  {
    MinLow(cs[i - PULLBACK_DAYS..i])
  }

  /** The values the flat branch decides on at one candle. */
  datatype Setup = Setup(close: real, fast: real, slow: real, recentLow: real, atr: real)

  function SetupAt(cs: seq<Candle>, i: nat): (u: Setup)
    requires FIRST_CANDLE <= i < |cs|
    ensures u.close == cs[i].close && u.atr >= 0.0
  {
    Setup(cs[i].close, FastEma(cs, i), SlowEma(cs, i), RecentLow(cs, i), EntryAtr(cs, i))
  }

  /** Fast EMA above slow, close above fast, and a dip below fast in the recent lows. */
  predicate Pullback(u: Setup)
  {
    u.fast > u.slow && u.close > u.fast && u.recentLow < u.fast
  }

  /** `int((equity * RISK_PER_TRADE) / risk) if risk > 0 else 0`. */
  function SizeQty(equity: real, risk: real): (qty: int)
    ensures qty >= 1 ==> risk > 0.0 && equity > 0.0 && qty as real * risk <= equity * RISK_PER_TRADE
    ensures risk > 0.0 && equity >= 0.0 ==> equity * RISK_PER_TRADE < (qty + 1) as real * risk
  {
    if risk > 0.0 then
      var q := Trunc((equity * RISK_PER_TRADE) / risk);
      if equity >= 0.0 then
        BudgetBelowNextShare(equity * RISK_PER_TRADE, risk, q);
        if q >= 1 then BudgetCoversRisk(equity * RISK_PER_TRADE, risk, q); q else q
      else q
    else 0
  }

  /**
   * The flat branch on the values of one candle: a long at the close plus slippage, its stop
   * two entry ATRs below, sized to risk 1% of equity. None without the pullback setup or when
   * the truncated quantity is not positive; the downtrend branch takes no position.
   */
  function OpenLong(u: Setup, equity: real): (o: Option<Position>)
    ensures o.Some? <==> Pullback(u) && SizeQty(equity, u.atr * STOP_ATR_MULT) >= 1
    ensures o.Some? ==> o.value.entryPrice == u.close * (1.0 + SLIPPAGE_PCT)
    ensures o.Some? ==> o.value.risk == u.atr * STOP_ATR_MULT > 0.0
    ensures o.Some? ==> o.value.stop == o.value.entryPrice - o.value.risk
    ensures o.Some? ==> o.value.qty >= 1 && o.value.qty == SizeQty(equity, o.value.risk)
  {
    if Pullback(u) then
      var entryPrice := u.close * (1.0 + SLIPPAGE_PCT);
      var stop := entryPrice - u.atr * STOP_ATR_MULT;
      var risk := entryPrice - stop;
      assert risk == u.atr * STOP_ATR_MULT;
      var qty := SizeQty(equity, risk);
      if qty <= 0 then None else Some(Position(entryPrice, stop, risk, qty))
    else None
  }

  /** The management ATR at candle i: over `candles[i - 14:i + 1]`, fourteen true ranges. */
  function TrailAtr(cs: seq<Candle>, i: nat): (atr: real)
    requires ATR_PERIOD <= i < |cs|
    ensures atr >= 0.0
  {
    WindowAtr(cs[i - ATR_PERIOD..i + 1], ATR_PERIOD)
  }

  /**
   * The trailed stop: once the high clears the entry by 2.5 ATR, the stop follows the high at
   * 2.5 ATR below it, never moving down; otherwise it stays.
   */
  function Trail(p: Position, c: Candle, atr: real): (stop: real)
    ensures stop >= p.stop
    ensures stop == p.stop || (c.high > p.entryPrice + atr * TRAILING_ATR_MULT && stop == c.high - atr * TRAILING_ATR_MULT)
  {
    if c.high > p.entryPrice + atr * TRAILING_ATR_MULT then Max(p.stop, c.high - atr * TRAILING_ATR_MULT)
    else p.stop
  }

  /** A stopped long fills at the stop, or at the open when the candle gaps below it. */
  function ExitFill(stop: real, c: Candle): (p: real)
    ensures p <= stop && p <= c.open
    ensures p == stop || p == c.open
  {
    Min(stop, c.open)
  }

  /** The price move times the quantity, less STT on the entry and the exit value. */
  function TradeNet(p: Position, exitPrice: real): real
  {
    (exitPrice - p.entryPrice) * p.qty as real - (p.entryPrice + exitPrice) * p.qty as real * STT
  }

  /**
   * The management branch for the long `p` on candle `c`, with `atr` the management ATR:
   * trail the stop, then close the trade if the low reaches it.
   */
  function Manage(s: SwingState, p: Position, c: Candle, atr: real): SwingState
  {
    var stop := Trail(p, c, atr);
    if c.low <= stop then SwingState(Book(s.books, TradeNet(p, ExitFill(stop, c))), None)
    else s.(position := Some(p.(stop := stop)))
  }

  /** What the loop reads at one candle: the candle, its entry setup and its management ATR. */
  datatype Bar = Bar(candle: Candle, setup: Setup, trailAtr: real)

  function BarAt(cs: seq<Candle>, i: nat): (b: Bar)
    requires FIRST_CANDLE <= i < |cs|
    ensures b.candle == cs[i] && b.setup.close == cs[i].close && b.trailAtr >= 0.0
  {
    Bar(cs[i], SetupAt(cs, i), TrailAtr(cs, i))
  }

  /** The bars of candles FIRST_CANDLE up to n - 1, the ones `range(EMA_SLOW + 5, n)` visits. */
  function BarsTo(cs: seq<Candle>, n: nat): (bs: seq<Bar>)
    requires n <= |cs|
    ensures |bs| == if n <= FIRST_CANDLE then 0 else n - FIRST_CANDLE
  {
    if n <= FIRST_CANDLE then [] else BarsTo(cs, n - 1) + [BarAt(cs, n - 1)]
  }

  /** One iteration of the candle loop: look for an entry while flat, manage the long otherwise. */
  function Step(b: Bar, s: SwingState): SwingState
  {
    match s.position
    case None => s.(position := OpenLong(b.setup, s.books.equity))
    case Some(p) => Manage(s, p, b.candle, b.trailAtr)
  }

  /** The state after the loop has decided the bars of `bs` in order. */
  function Run(bs: seq<Bar>): SwingState
  {
    if bs == [] then Initial() else Step(bs[|bs| - 1], Run(bs[..|bs| - 1]))
  }

  /** The loop's variables as a state value. */
  function Held(inPosition: bool, entryPrice: real, stopLoss: real, risk: real, qty: int): Option<Position>
  {
    if inPosition then Some(Position(entryPrice, stopLoss, risk, qty)) else None
  }

  /**
   * The flat branch of the loop at candle i: the entry indicators over the last fifty-one
   * candles, and whether a long is opened and at what price, stop, risk and quantity.
   */
  method EnterLong(cs: seq<Candle>, i: nat, equity: real)
    returns (entered: bool, entryPrice: real, stopLoss: real, risk: real, qty: int)
    requires FIRST_CANDLE <= i < |cs|
    ensures Held(entered, entryPrice, stopLoss, risk, qty) == OpenLong(SetupAt(cs, i), equity)
  {
    var lookback := cs[i - EMA_SLOW..i + 1];
    var closes := Closes(lookback);
    var fastEma := CalculateEma(closes, EMA_FAST);
    var slowEma := CalculateEma(closes, EMA_SLOW);
    var atr := CalculateAtr(lookback, ATR_PERIOD);
    assert lookback == EntryWindow(cs, i);
    assert Setup(cs[i].close, fastEma, slowEma, RecentLow(cs, i), atr) == SetupAt(cs, i);
    entered, entryPrice, stopLoss, risk, qty := EnterOn(cs[i].close, fastEma, slowEma, atr, cs[i - PULLBACK_DAYS..i], equity);
  }

  /**
   * The entry block on the decision candle's close and indicators and the three candles
   * before it.
   */
  method EnterOn(close: real, fastEma: real, slowEma: real, atr: real, recent: seq<Candle>, equity: real)
    returns (entered: bool, entryPrice: real, stopLoss: real, risk: real, qty: int)
    requires |recent| > 0
    ensures Held(entered, entryPrice, stopLoss, risk, qty)
            == OpenLong(Setup(close, fastEma, slowEma, MinLow(recent), atr), equity)
  {
    entered, entryPrice, stopLoss, risk, qty := false, 0.0, 0.0, 0.0, 0;
    if fastEma > slowEma && close > fastEma {
      var recentLow := MinLow(recent);
      if recentLow < fastEma {
        entered := true;
        entryPrice := close * (1.0 + SLIPPAGE_PCT);
        stopLoss := entryPrice - atr * STOP_ATR_MULT;
        risk := entryPrice - stopLoss;
        qty := if risk > 0.0 then Trunc((equity * RISK_PER_TRADE) / risk) else 0;
        if qty <= 0 {
          entered := false;
        }
      }
    }
  }

  /**
   * The management block of the loop for the open long, on candle `curr` with management ATR
   * `atr`: the trailed stop, and on an exit the counters with the closed trade booked.
   */
  method ManageLong(trades: nat, wins: nat, pnl: real, grossProfit: real, grossLoss: real, equity: real,
                    entryPrice: real, stopLoss: real, risk: real, qty: int, curr: Candle, atr: real)
    returns (trades': nat, wins': nat, pnl': real, grossProfit': real, grossLoss': real, equity': real,
             inPosition': bool, stopLoss': real)
    ensures var p := Position(entryPrice, stopLoss, risk, qty);
      SwingState(Books(trades', wins', pnl', grossProfit', grossLoss', equity'), Held(inPosition', entryPrice, stopLoss', risk, qty))
      == Manage(SwingState(Books(trades, wins, pnl, grossProfit, grossLoss, equity), Some(p)), p, curr, atr)
  {
    var p := Position(entryPrice, stopLoss, risk, qty);
    trades', wins', pnl', grossProfit', grossLoss', equity' := trades, wins, pnl, grossProfit, grossLoss, equity;
    inPosition', stopLoss' := true, stopLoss;
    if curr.high > entryPrice + atr * TRAILING_ATR_MULT {
      stopLoss' := Max(stopLoss', curr.high - atr * TRAILING_ATR_MULT);
    }
    assert stopLoss' == Trail(p, curr, atr);
    if curr.low <= stopLoss' {
      var exitPrice := Min(stopLoss', curr.open);
      var net := TradeNet(p, exitPrice);
      assert exitPrice == ExitFill(stopLoss', curr);
      trades' := trades' + 1;
      pnl' := pnl' + net;
      equity' := equity' + net;
      if net > 0.0 {
        wins' := wins' + 1;
        grossProfit' := grossProfit' + net;
      } else {
        grossLoss' := grossLoss' + Abs(net);
      }
      inPosition' := false;
    }
  }

  /** One pass of the loop body at candle i, on the loop's variables. */
  method DecideCandle(cs: seq<Candle>, i: nat, trades: nat, wins: nat, pnl: real, grossProfit: real,
                      grossLoss: real, equity: real, inPosition: bool, entryPrice: real, stopLoss: real,
                      risk: real, qty: int)
    returns (trades': nat, wins': nat, pnl': real, grossProfit': real, grossLoss': real, equity': real,
             inPosition': bool, entryPrice': real, stopLoss': real, risk': real, qty': int)
    requires FIRST_CANDLE <= i < |cs|
    ensures SwingState(Books(trades', wins', pnl', grossProfit', grossLoss', equity'),
                       Held(inPosition', entryPrice', stopLoss', risk', qty'))
            == Step(BarAt(cs, i), SwingState(Books(trades, wins, pnl, grossProfit, grossLoss, equity),
                                  Held(inPosition, entryPrice, stopLoss, risk, qty)))
  {
    trades', wins', pnl', grossProfit', grossLoss', equity' := trades, wins, pnl, grossProfit, grossLoss, equity;
    inPosition', entryPrice', stopLoss', risk', qty' := inPosition, entryPrice, stopLoss, risk, qty;
    var curr := cs[i];
    if !inPosition {
      inPosition', entryPrice', stopLoss', risk', qty' := EnterLong(cs, i, equity);
    } else {
      var atr := CalculateAtr(cs[i - ATR_PERIOD..i + 1], ATR_PERIOD);
      trades', wins', pnl', grossProfit', grossLoss', equity', inPosition', stopLoss' :=
        ManageLong(trades, wins, pnl, grossProfit, grossLoss, equity, entryPrice, stopLoss, risk, qty, curr, atr);
    }
  }

  /**
   * process_symbol_swing on the candles of one symbol (the file read is left out): None for
   * no candles, otherwise the counters the candle loop leaves, which are those of Run.
   */
  method ProcessSymbolSwing(cs: seq<Candle>) returns (report: Option<Books>)
    ensures cs == [] <==> report.None?
    ensures cs != [] ==> report == Some(Run(BarsTo(cs, |cs|)).books)
  {
    if |cs| == 0 {
      return None;
    }
    var books := CandleLoop(cs);
    report := Some(books);
  }

  /** The candle loop of process_symbol_swing, from the opening counters and flat. */
  method CandleLoop(cs: seq<Candle>) returns (books: Books)
    ensures books == Run(BarsTo(cs, |cs|)).books
  {
    var trades: nat, wins: nat := 0, 0;
    var pnl, grossProfit, grossLoss := 0.0, 0.0, 0.0;
    var equity := INITIAL_CAPITAL;
    var inPosition := false;
    var entryPrice, stopLoss, risk := 0.0, 0.0, 0.0;
    var qty := 0;
    ghost var seen: seq<Bar> := [];
    var i := FIRST_CANDLE;
    while i < |cs|
      invariant FIRST_CANDLE <= i
      invariant seen == BarsTo(cs, MinNat(i, |cs|))
      invariant SwingState(Books(trades, wins, pnl, grossProfit, grossLoss, equity),
                           Held(inPosition, entryPrice, stopLoss, risk, qty)) == Run(seen)
    {
      ghost var b := BarAt(cs, i);
      trades, wins, pnl, grossProfit, grossLoss, equity, inPosition, entryPrice, stopLoss, risk, qty :=
        DecideCandle(cs, i, trades, wins, pnl, grossProfit, grossLoss, equity, inPosition, entryPrice, stopLoss, risk, qty);
      assert (seen + [b])[..|seen|] == seen;
      seen := seen + [b];
      i := i + 1;
    }
    books := Books(trades, wins, pnl, grossProfit, grossLoss, equity);
  }
}
