/**
 * The per-symbol account that the daily swing validator and the base benchmark keep: trade
 * and win counts, cumulative P&L split into gross profit and gross loss, and equity.
 */
module Bookkeeping {
  import opened Candles

  const INITIAL_CAPITAL: real := 500000.0

  datatype Books = Books(trades: nat, wins: nat, pnl: real, grossProfit: real, grossLoss: real, equity: real)

  /** No trades yet, equity at the initial capital. */
  function Opening(): Books
  {
    Books(0, 0, 0.0, 0.0, 0.0, INITIAL_CAPITAL)
  }

  /**
   * Booking a closed trade with net P&L `net`: counted, added to P&L and equity, and to gross
   * profit when positive or its absolute value to gross loss otherwise.
   */
  function Book(b: Books, net: real): (r: Books)
    ensures r.trades == b.trades + 1
    ensures r.wins == if net > 0.0 then b.wins + 1 else b.wins
    ensures r.pnl == b.pnl + net && r.equity == b.equity + net
    ensures r.grossProfit - r.grossLoss == b.grossProfit - b.grossLoss + net
    ensures r.grossProfit >= b.grossProfit && r.grossLoss >= b.grossLoss
  {
    if net > 0.0 then Books(b.trades + 1, b.wins + 1, b.pnl + net, b.grossProfit + net, b.grossLoss, b.equity + net)
    else Books(b.trades + 1, b.wins, b.pnl + net, b.grossProfit, b.grossLoss + Abs(net), b.equity + net)
  }

  /**
   * The account balances: equity is the initial capital plus P&L, P&L is gross profit less
   * gross loss, both gross sides are non-negative, and wins are among the trades.
   */
  predicate Balanced(b: Books)
  {
    b.equity == INITIAL_CAPITAL + b.pnl && b.pnl == b.grossProfit - b.grossLoss &&
    b.grossProfit >= 0.0 && b.grossLoss >= 0.0 && b.wins <= b.trades
  }

  /** The opening account balances, and booking any trade keeps it balanced. */
  lemma OpeningBalanced()
    ensures Balanced(Opening())
  {
  }

  lemma BookBalanced(b: Books, net: real)
    requires Balanced(b)
    ensures Balanced(Book(b, net))
  {
  }
}
