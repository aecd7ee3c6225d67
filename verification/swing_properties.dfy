/**
 * What the swing validator's candle loop keeps true: its books balance, an open long is sized
 * within the 1% risk budget and its stop only ratchets up, a trade never opens and closes on
 * the same candle, and a stopped trade that does not gap loses at most its budget.
 */
module SwingProperties {
  import opened Candles
  import opened SwingEngine
  import opened Bookkeeping

  /**
   * A long as the entry block sizes it: positive risk per share, at least one share, the stop
   * no lower than one risk below the entry, and the shares' total risk within 1% of equity.
   */
  predicate Sized(p: Position, equity: real)
  {
    p.risk > 0.0 && p.qty >= 1 && p.stop >= p.entryPrice - p.risk &&
    p.qty as real * p.risk <= equity * RISK_PER_TRADE
  }

  /** The books balance and an open long is sized against the current equity. */
  predicate Consistent(s: SwingState)
  {
    Balanced(s.books) && (s.position.Some? ==> Sized(s.position.value, s.books.equity))
  }

  /** An entry opened at `equity` is sized against it. */
  lemma OpenLongIsSized(u: Setup, equity: real)
    requires OpenLong(u, equity).Some?
    ensures Sized(OpenLong(u, equity).value, equity)
  {
    var p := OpenLong(u, equity).value;
    assert p.qty == SizeQty(equity, p.risk);
  }

  lemma StepConsistent(b: Bar, s: SwingState)
    requires Consistent(s)
    ensures Consistent(Step(b, s))
  {
    match s.position
    case None =>
      if OpenLong(b.setup, s.books.equity).Some? {
        OpenLongIsSized(b.setup, s.books.equity);
      }
    case Some(p) =>
      var stop := Trail(p, b.candle, b.trailAtr);
      if b.candle.low > stop {
        assert Step(b, s).position == Some(p.(stop := stop));
      }
  }

  lemma {:induction false} RunConsistent(bs: seq<Bar>)
    ensures Consistent(Run(bs))
  {
    if bs != [] {
      var prev := bs[..|bs| - 1];
      RunConsistent(prev);
      var s := Run(prev);
      StepConsistent(bs[|bs| - 1], s);
      assert Run(bs) == Step(bs[|bs| - 1], s);
    }
  }

  /**
   * The candle that opens a long books nothing: while flat, a step only decides the entry,
   * with the counters and equity unchanged.
   */
  lemma FlatStepBooksNothing(b: Bar, s: SwingState)
    requires s.position.None?
    ensures Step(b, s).books == s.books && Step(b, s).position == OpenLong(b.setup, s.books.equity)
  {
  }

  /**
   * A long is closed exactly when the candle's low reaches the trailed stop; it then fills no
   * higher than that stop and no higher than the open, and its net P&L is booked. Otherwise it
   * stays open with the same entry, risk and quantity and a stop that has not moved down.
   */
  lemma LongStep(b: Bar, s: SwingState)
    requires s.position.Some?
    ensures var p := s.position.value;
      var stop := Trail(p, b.candle, b.trailAtr);
      var r := Step(b, s);
      (r.position.None? <==> b.candle.low <= stop) &&
      (r.position.None? ==>
         var fill := ExitFill(stop, b.candle);
         fill <= stop && fill <= b.candle.open &&
         r.books == Book(s.books, TradeNet(p, fill))) &&
      (r.position.Some? ==>
         var q := r.position.value;
         q.entryPrice == p.entryPrice && q.risk == p.risk && q.qty == p.qty && q.stop >= p.stop &&
         r.books == s.books)
  {
  }

  /**
   * Unless the exit candle opens below the stop, a stopped long loses at most the risk
   * budget it was sized with, before STT.
   */
  lemma LossWithinBudget(p: Position, equity: real, stop: real, c: Candle)
    requires Sized(p, equity) && stop >= p.stop && c.open >= stop
    ensures (ExitFill(stop, c) - p.entryPrice) * p.qty as real >= -(equity * RISK_PER_TRADE)
  {
    var fill := ExitFill(stop, c);
    var n := p.qty as real;
    assert fill == stop;
    assert fill - p.entryPrice >= -p.risk;
    assert (fill - p.entryPrice + p.risk) * n >= 0.0 by {
      ProductNonNegative(fill - p.entryPrice + p.risk, n);
    }
    assert (fill - p.entryPrice) * n >= -(p.risk * n);
  }

  /** The number of open positions, 0 or 1. */
  function OpenCount(s: SwingState): (n: nat)
    ensures n <= 1 && (n == 1 <==> s.position.Some?)
  {
    if s.position.Some? then 1 else 0
  }

  /**
   * Every trade takes an entry candle and a later exit candle, and a position still open has
   * taken its entry candle: twice the trades plus the open position fit in the candles seen.
   */
  lemma {:induction false} RunTradeCount(bs: seq<Bar>)
    ensures 2 * Run(bs).books.trades + OpenCount(Run(bs)) <= |bs|
  {
    if bs != [] {
      var s := Run(bs[..|bs| - 1]);
      RunTradeCount(bs[..|bs| - 1]);
      if s.position.Some? {
        LongStep(bs[|bs| - 1], s);
      }
    }
  }

  /**
   * The per-symbol report balances: equity is the capital plus P&L, P&L is gross profit less
   * gross loss, wins are among the trades, and at most one trade closes per two candles seen.
   * A long still open at the end contributes nothing to it.
   */
  lemma ReportBalances(bs: seq<Bar>)
    ensures Balanced(Run(bs).books) && 2 * Run(bs).books.trades <= |bs|
  {
    RunConsistent(bs);
    RunTradeCount(bs);
  }
}
