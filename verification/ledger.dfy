/**
 * The running account of the two intraday validators: trade and win counts, cumulative
 * P&L, equity, the equity peak and the largest fractional drawdown from that peak, updated
 * after every closed trade.
 */
module Ledger {
  import opened Candles
  import opened IntradayTrade

  const INITIAL_CAPITAL: real := 500000.0

  datatype Tally = Tally(trades: nat, wins: nat, pnl: real, equity: real, peak: real, maxDd: real)

  /** The accumulators before the first day: no trades, equity and peak at the initial capital. */
  function Start(): (t: Tally)
    ensures Consistent(t)
  {
    Tally(0, 0, 0.0, INITIAL_CAPITAL, INITIAL_CAPITAL, 0.0)
  }

  /** The fractional decline of equity below the peak. */
  function Drawdown(peak: real, equity: real): real
    requires peak > 0.0
  {
    (peak - equity) / peak
  }

  /**
   * What the accumulators keep true: equity is the initial capital plus the P&L, the peak
   * is at least the initial capital and the current equity, the recorded maximum drawdown
   * is non-negative and covers the current drawdown, and wins never exceed trades.
   */
  predicate Consistent(t: Tally)
  {
    t.equity == INITIAL_CAPITAL + t.pnl && t.wins <= t.trades &&
    t.peak >= INITIAL_CAPITAL && t.peak >= t.equity &&
    t.maxDd >= 0.0 && t.maxDd >= Drawdown(t.peak, t.equity)
  }

  /**
   * The bookkeeping after one closed trade with net P&L `net`. Trades, P&L and equity
   * advance by the trade; the peak and the maximum drawdown never decrease.
   */
  function Record(t: Tally, net: real): (r: Tally)
    requires t.peak > 0.0
    ensures r.trades == t.trades + 1 && r.pnl == t.pnl + net && r.equity == t.equity + net
    ensures r.wins == t.wins + (if net > 0.0 then 1 else 0)
    ensures r.peak >= t.peak && r.peak >= r.equity && r.maxDd >= t.maxDd
    ensures r.maxDd >= Drawdown(r.peak, r.equity)
  {
    var equity := t.equity + net;
    var peak := if equity > t.peak then equity else t.peak;
    var dd := (peak - equity) / peak;
    Tally(t.trades + 1, if net > 0.0 then t.wins + 1 else t.wins, t.pnl + net, equity, peak,
          if dd > t.maxDd then dd else t.maxDd)
  }

  /** Recording a trade keeps the accumulators consistent. */
  lemma RecordConsistent(t: Tally, net: real)
    requires Consistent(t)
    ensures Consistent(Record(t, net))
  {
    var r := Record(t, net);
    assert r.peak > 0.0;
    NonNegativeDrawdown(r.peak, r.equity);
  }

  lemma NonNegativeDrawdown(peak: real, equity: real)
    requires peak > 0.0 && peak >= equity
    ensures Drawdown(peak, equity) >= 0.0
  {
  }

  /** The accumulators after recording the trades of `ts` in order. */
  function RecordAll(t: Tally, ts: seq<Trade>): (r: Tally)
    requires t.peak > 0.0
    ensures r.trades == t.trades + |ts|
    ensures r.pnl == t.pnl + SumNet(ts) && r.equity == t.equity + SumNet(ts)
    ensures r.wins == t.wins + CountWins(ts)
    ensures r.peak >= t.peak && r.maxDd >= t.maxDd
  {
    if ts == [] then t else Record(RecordAll(t, ts[..|ts| - 1]), ts[|ts| - 1].net)
  }

  lemma RecordAllSnoc(t: Tally, ts: seq<Trade>, x: Trade)
    requires t.peak > 0.0
    ensures RecordAll(t, ts + [x]) == Record(RecordAll(t, ts), x.net)
  {
    assert (ts + [x])[..|ts|] == ts;
  }

  /** Recording any list of trades keeps the accumulators consistent. */
  lemma {:induction false} RecordAllConsistent(t: Tally, ts: seq<Trade>)
    requires Consistent(t)
    ensures Consistent(RecordAll(t, ts))
  {
    if ts != [] {
      RecordAllConsistent(t, ts[..|ts| - 1]);
      RecordConsistent(RecordAll(t, ts[..|ts| - 1]), ts[|ts| - 1].net);
    }
  }

  /** Equity after a run of trades is the initial capital plus their summed net P&L. */
  lemma EquityIsCapitalPlusPnl(ts: seq<Trade>)
    ensures RecordAll(Start(), ts).equity == INITIAL_CAPITAL + SumNet(ts)
    ensures RecordAll(Start(), ts).trades == |ts|
    ensures RecordAll(Start(), ts).wins == CountWins(ts) <= |ts|
    ensures RecordAll(Start(), ts).maxDd >= 0.0
  {
    RecordAllConsistent(Start(), ts);
  }

  /** Recording two runs of trades one after the other is recording their concatenation. */
  lemma {:induction false} RecordAllAppend(t: Tally, a: seq<Trade>, b: seq<Trade>)
    requires t.peak > 0.0
    ensures RecordAll(t, a + b) == RecordAll(RecordAll(t, a), b)
  {
    if b != [] {
      assert (a + b)[..|a + b| - 1] == a + b[..|b| - 1];
      assert (a + b)[|a + b| - 1] == b[|b| - 1];
      RecordAllAppend(t, a, b[..|b| - 1]);
    } else {
      assert a + b == a;
    }
  }

  /** `win_rate`: the percentage of winning trades, 0 when there are none. */
  function WinRate(wins: nat, trades: nat): (r: real)
    ensures trades == 0 ==> r == 0.0
    ensures wins <= trades ==> 0.0 <= r <= 100.0
  {
    if trades > 0 then
      assert wins <= trades ==> wins as real / trades as real <= 1.0 by {
        if wins <= trades {
          assert wins as real <= trades as real;
          assert (wins as real / trades as real) * trades as real == wins as real;
        }
      }
      NonNegativeQuotient(wins as real, trades as real);
      wins as real / trades as real * 100.0
    else 0.0
  }

  /** `total / count if count > 0 else 0`, the averages of the reports. */
  function Average(total: real, count: nat): (r: real)
    ensures count == 0 ==> r == 0.0
    ensures count > 0 ==> r * count as real == total
  {
    if count > 0 then total / count as real else 0.0
  }

  /** `daily_returns.get(key, 0)`. */
  function Get(m: map<string, real>, key: string): real
  {
    if key in m then m[key] else 0.0
  }

  /** `daily_returns[key] = daily_returns.get(key, 0) + net`. */
  function AddReturn(dr: map<string, real>, key: string, net: real): (r: map<string, real>)
    ensures r.Keys == dr.Keys + {key} && r[key] == Get(dr, key) + net
    ensures forall k :: k in dr && k != key ==> r[k] == dr[k]
  {
    dr[key := Get(dr, key) + net]
  }

  /** The daily-returns map after booking each trade of `ts` on the day `key`. */
  function AddReturns(dr: map<string, real>, key: string, ts: seq<Trade>): map<string, real>
  {
    if ts == [] then dr else AddReturn(AddReturns(dr, key, ts[..|ts| - 1]), key, ts[|ts| - 1].net)
  }

  lemma AddReturnsSnoc(dr: map<string, real>, key: string, ts: seq<Trade>, t: Trade)
    ensures AddReturns(dr, key, ts + [t]) == AddReturn(AddReturns(dr, key, ts), key, t.net)
  {
    assert (ts + [t])[..|ts|] == ts;
  }

  /**
   * Booking a day's trades one by one leaves the day's entry holding its previous value
   * plus the day's summed net P&L, and adds no entry for a day without trades.
   */
  lemma {:induction false} AddReturnsIsDayTotal(dr: map<string, real>, key: string, ts: seq<Trade>)
    ensures AddReturns(dr, key, ts) == if ts == [] then dr else dr[key := Get(dr, key) + SumNet(ts)]
  {
    if ts != [] {
      var init := ts[..|ts| - 1];
      AddReturnsIsDayTotal(dr, key, init);
      if init != [] {
        var m := dr[key := Get(dr, key) + SumNet(init)];
        assert AddReturns(dr, key, init) == m;
        assert Get(m, key) == Get(dr, key) + SumNet(init);
        assert m[key := Get(m, key) + ts[|ts| - 1].net] == dr[key := Get(dr, key) + SumNet(ts)];
      }
    }
  }
}
