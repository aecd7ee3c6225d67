/**
 * What the two intraday validators' day loops share about the trades they book for a
 * symbol: the equity each trade was sized from, the set of days that traded, and the order
 * and daily cap of the trade log.
 */
module TradeLog {
  import opened IntradayTrade
  import opened Ledger

  /** Each trade of `ts` was sized from `equity0` plus the net P&L of the trades before it. */
  predicate SizedFrom(equity0: real, ts: seq<Trade>)
  {
    forall k :: 0 <= k < |ts| ==> ts[k].equityBefore == equity0 + SumNet(ts[..k])
  }

  /** Trades sized from the equity that an earlier chained run leaves extend that run's chain. */
  lemma SizedFromAppend(equity0: real, log: seq<Trade>, ts: seq<Trade>)
    requires SizedFrom(equity0, log) && SizedFrom(equity0 + SumNet(log), ts)
    ensures SizedFrom(equity0, log + ts)
  {
    forall k | 0 <= k < |log + ts|
      ensures (log + ts)[k].equityBefore == equity0 + SumNet((log + ts)[..k])
    {
      if k < |log| {
        assert (log + ts)[..k] == log[..k];
      } else {
        var j := k - |log|;
        assert (log + ts)[..k] == log + ts[..j];
        SumNetAppend(log, ts[..j]);
      }
    }
  }

  /** The day keys of a list of trades. */
  function DayKeys(ts: seq<Trade>): set<string>
  {
    set t | t in ts :: t.dayKey
  }

  /** A list of trades spans at most as many days as it has trades. */
  lemma {:induction false} DayKeysBound(ts: seq<Trade>)
    ensures |DayKeys(ts)| <= |ts|
  {
    if ts != [] {
      var init := ts[..|ts| - 1];
      DayKeysBound(init);
      assert DayKeys(ts) == DayKeys(init) + {ts[|ts| - 1].dayKey} by {
        assert ts == init + [ts[|ts| - 1]];
      }
    }
  }

  /**
   * The ledger is the replay of the log: the tally is every trade of `log` recorded in order
   * from the initial capital, and the days in the daily returns are exactly the days that
   * traded.
   */
  predicate Replays(tally: Tally, dailyReturns: map<string, real>, log: seq<Trade>)
  {
    tally == RecordAll(Start(), log) && Consistent(tally) && dailyReturns.Keys == DayKeys(log)
  }

  /**
   * Booking one day's trades, all under the day's key, in the tally and the daily returns
   * keeps the ledger the replay of the log they are appended to.
   */
  lemma BookingReplays(tally: Tally, dailyReturns: map<string, real>, log: seq<Trade>, key: string, ts: seq<Trade>)
    requires Replays(tally, dailyReturns, log) && forall t :: t in ts ==> t.dayKey == key
    ensures Replays(RecordAll(tally, ts), AddReturns(dailyReturns, key, ts), log + ts)
  {
    RecordAllAppend(Start(), log, ts);
    RecordAllConsistent(Start(), log + ts);
    KeysAfterBooking(dailyReturns, key, log, ts);
  }

  /** Booking trades under one key adds that key to the daily returns exactly when there are any. */
  lemma KeysAfterBooking(dr: map<string, real>, key: string, log: seq<Trade>, ts: seq<Trade>)
    requires dr.Keys == DayKeys(log) && forall t :: t in ts ==> t.dayKey == key
    ensures AddReturns(dr, key, ts).Keys == DayKeys(log + ts)
  {
    AddReturnsIsDayTotal(dr, key, ts);
    assert DayKeys(log + ts) == DayKeys(log) + DayKeys(ts);
    if ts != [] {
      assert ts[0] in ts;
      assert DayKeys(ts) == {key};
    }
  }

  /**
   * The log after the first n days: each trade taken on one of those days as `taken`
   * says, the trades in time order (by day, then by candle), and never more than
   * MAX_TRADES_PER_DAY on a day.
   */
  predicate Logged(taken: Trade -> bool, n: nat, log: seq<Trade>)
  {
    (forall t :: t in log ==> t.dayIdx < n && taken(t)) &&
    (forall j, k :: 0 <= j < k < |log| ==>
       log[j].dayIdx < log[k].dayIdx || (log[j].dayIdx == log[k].dayIdx && log[j].entryIdx < log[k].entryIdx)) &&
    (forall k :: 0 <= k && k + MAX_TRADES_PER_DAY < |log| ==> log[k].dayIdx < log[k + MAX_TRADES_PER_DAY].dayIdx)
  }

  /**
   * Appending day n's trades, at most MAX_TRADES_PER_DAY of them, in candle order, each
   * taken on day n, keeps the log logged, now over n + 1 days.
   */
  lemma LoggedAfterBooking(taken: Trade -> bool, n: nat, log: seq<Trade>, ts: seq<Trade>)
    requires Logged(taken, n, log)
    requires |ts| <= MAX_TRADES_PER_DAY && forall t :: t in ts ==> t.dayIdx == n && taken(t)
    requires forall j, k :: 0 <= j < k < |ts| ==> ts[j].entryIdx < ts[k].entryIdx
    ensures Logged(taken, n + 1, log + ts)
  {
    var all := log + ts;
    forall j, k | 0 <= j < k < |all|
      ensures all[j].dayIdx < all[k].dayIdx || (all[j].dayIdx == all[k].dayIdx && all[j].entryIdx < all[k].entryIdx)
    {
      if k >= |log| {
        assert all[k] == ts[k - |log|] && all[k] in ts;
        if j < |log| {
          assert all[j] in log;
        } else {
          assert all[j] == ts[j - |log|];
        }
      }
    }
    forall k | 0 <= k && k + MAX_TRADES_PER_DAY < |all|
      ensures all[k].dayIdx < all[k + MAX_TRADES_PER_DAY].dayIdx
    {
      var l := k + MAX_TRADES_PER_DAY;
      if l >= |log| {
        assert all[l] == ts[l - |log|] && all[l] in ts;
        assert k < |log|;
        assert all[k] in log;
      }
    }
  }
}
