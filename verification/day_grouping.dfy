/**
 * group_by_day of fetch_tv_data.py: the exporter splits a symbol's candle list into trading
 * days keyed by the calendar date of each candle's timestamp, keeping each day's candles in
 * their original order and the days in the order their first candle appears.
 */
module DayGrouping {
  import opened Candles

  /** Every timestamp is long enough to carry an ISO date `YYYY-MM-DD` in front. */
  predicate Stamped(cs: seq<Candle>)
  {
    forall i :: 0 <= i < |cs| ==> |cs[i].timestamp| >= 10
  }

  /**
   * The day key `strftime("%Y-%m-%d")` of an ISO timestamp: its first ten characters, the
   * date part.
   */
  function DayKey(c: Candle): (k: string)
    requires |c.timestamp| >= 10
    ensures |k| == 10 && c.timestamp == k + c.timestamp[10..]
  {
    c.timestamp[..10]
  }

  /** The candles of `cs` whose day key is `key`, in their original order. */
  function OnDay(cs: seq<Candle>, key: string): (r: seq<Candle>)
    requires Stamped(cs)
    ensures |r| <= |cs|
    ensures forall j :: 0 <= j < |r| ==> |r[j].timestamp| >= 10 && DayKey(r[j]) == key
  {
    if cs == [] then []
    else
      var c := cs[|cs| - 1];
      OnDay(cs[..|cs| - 1], key) + (if DayKey(c) == key then [c] else [])
  }

  /** The day keys of `cs`, each once, in the order of their first candle. */
  function DayKeys(cs: seq<Candle>): (ks: seq<string>)
    requires Stamped(cs)
    ensures |ks| <= |cs|
  {
    if cs == [] then []
    else
      var ks := DayKeys(cs[..|cs| - 1]);
      var k := DayKey(cs[|cs| - 1]);
      if k in ks then ks else ks + [k]
  }

  predicate Distinct(ks: seq<string>)
  {
    forall a, b :: 0 <= a < b < |ks| ==> ks[a] != ks[b]
  }

  /** One more candle extends its own day's group and no other. */
  lemma GroupSnoc(cs: seq<Candle>, i: nat)
    requires Stamped(cs) && i < |cs|
    ensures Stamped(cs[..i]) && Stamped(cs[..i + 1])
    ensures forall k :: OnDay(cs[..i + 1], k) == OnDay(cs[..i], k) + (if DayKey(cs[i]) == k then [cs[i]] else [])
    ensures DayKeys(cs[..i + 1]) == if DayKey(cs[i]) in DayKeys(cs[..i]) then DayKeys(cs[..i]) else DayKeys(cs[..i]) + [DayKey(cs[i])]
  {
    assert cs[..i + 1][..i] == cs[..i];
  }

  /** A date is a key exactly when some candle falls on it, so no day's group is empty. */
  lemma {:induction false} KeysAreTheDays(cs: seq<Candle>, key: string)
    requires Stamped(cs)
    ensures key in DayKeys(cs) <==> OnDay(cs, key) != []
  {
    if cs != [] {
      KeysAreTheDays(cs[..|cs| - 1], key);
    }
  }

  /** Each day key appears once. */
  lemma {:induction false} KeysDistinct(cs: seq<Candle>)
    requires Stamped(cs)
    ensures Distinct(DayKeys(cs))
  {
    if cs != [] {
      KeysDistinct(cs[..|cs| - 1]);
    }
  }

  /** The sizes of the groups of `ks`, added up. */
  function GroupTotal(cs: seq<Candle>, ks: seq<string>): nat
    requires Stamped(cs)
  {
    if ks == [] then 0 else GroupTotal(cs, ks[..|ks| - 1]) + |OnDay(cs, ks[|ks| - 1])|
  }

  /** Adding a candle adds one to the total of distinct keys exactly when they hold its day. */
  lemma {:induction false} GroupTotalSnoc(cs: seq<Candle>, ks: seq<string>)
    requires Stamped(cs) && cs != [] && Distinct(ks)
    ensures Stamped(cs[..|cs| - 1])
    ensures GroupTotal(cs, ks) == GroupTotal(cs[..|cs| - 1], ks) + (if DayKey(cs[|cs| - 1]) in ks then 1 else 0)
  {
    var p := cs[..|cs| - 1];
    if ks != [] {
      var front := ks[..|ks| - 1];
      assert Distinct(front);
      GroupTotalSnoc(cs, front);
      if DayKey(cs[|cs| - 1]) == ks[|ks| - 1] {
        assert DayKey(cs[|cs| - 1]) !in front;
      }
      assert DayKey(cs[|cs| - 1]) in ks <==> DayKey(cs[|cs| - 1]) in front || DayKey(cs[|cs| - 1]) == ks[|ks| - 1];
    }
  }

  /** The groups partition the candles: their sizes add up to the number of candles. */
  lemma {:induction false} GroupsPartition(cs: seq<Candle>)
    requires Stamped(cs)
    ensures GroupTotal(cs, DayKeys(cs)) == |cs|
  {
    if cs != [] {
      var p := cs[..|cs| - 1];
      var c := cs[|cs| - 1];
      GroupsPartition(p);
      KeysDistinct(p);
      GroupTotalSnoc(cs, DayKeys(p));
      if DayKey(c) !in DayKeys(p) {
        KeysAreTheDays(p, DayKey(c));
        var ks := DayKeys(p) + [DayKey(c)];
        assert ks[..|ks| - 1] == DayKeys(p);
      }
    }
  }

  /** `keys` and `days` group the first `n` candles of `cs` as group_by_day does. */
  ghost predicate GroupsPrefix(cs: seq<Candle>, n: nat, keys: seq<string>, days: map<string, seq<Candle>>)
    requires Stamped(cs) && n <= |cs|
  {
    Stamped(cs[..n]) && keys == DayKeys(cs[..n]) &&
    (forall k :: k in days <==> k in keys) &&
    (forall k :: k in days ==> days[k] == OnDay(cs[..n], k))
  }

  /**
   * The loop of group_by_day. The returned dict is the pair of its keys in insertion order
   * and its key-to-group map: the keys are the distinct day keys in order of first
   * appearance, and each day's group is its candles in their original order.
   */
  method GroupByDay(cs: seq<Candle>) returns (keys: seq<string>, days: map<string, seq<Candle>>)
    requires Stamped(cs)
    ensures keys == DayKeys(cs)
    ensures forall k :: k in days <==> k in keys
    ensures forall k :: k in days ==> days[k] == OnDay(cs, k)
  {
    keys := [];
    days := map[];
    var i := 0;
    while i < |cs|
      invariant 0 <= i <= |cs|
      invariant GroupsPrefix(cs, i, keys, days)
    {
      keys, days := AddCandle(cs, i, keys, days);
      i := i + 1;
    }
    assert cs[..i] == cs;
  }

  /** One pass of the loop: start the candle's day if it is new, then append the candle. */
  method AddCandle(cs: seq<Candle>, i: nat, keys: seq<string>, days: map<string, seq<Candle>>)
    returns (keys': seq<string>, days': map<string, seq<Candle>>)
    requires Stamped(cs) && i < |cs| && GroupsPrefix(cs, i, keys, days)
    ensures GroupsPrefix(cs, i + 1, keys', days')
  {
    GroupSnoc(cs, i);
    var dayKey := cs[i].timestamp[..10];
    assert dayKey == DayKey(cs[i]);
    keys', days' := keys, days;
    if dayKey !in days' {
      KeysAreTheDays(cs[..i], dayKey);
      days' := days'[dayKey := []];
      keys' := keys' + [dayKey];
    }
    assert days'[dayKey] == OnDay(cs[..i], dayKey);
    days' := days'[dayKey := days'[dayKey] + [cs[i]]];
    forall k | k in days'
      ensures days'[k] == OnDay(cs[..i + 1], k)
    {
      if k != dayKey {
        assert days'[k] == days[k];
      }
    }
  }
}
