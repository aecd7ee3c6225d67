/**
 * The trailing-stop exit scan shared by the upgraded and the unfiltered intraday validators.
 * After an entry at candle i the scan looks at candles i+1 .. min(i+40, n) - 1 only; the stop
 * ratchets in the trade's favour once price has run a full trail distance past the entry, and
 * the first candle that touches the stop fills the trade. When no candle touches it, the
 * trade is closed at the day's last close.
 *
 * The scan is parameterised by its fill rule. The validators as written fill at the better
 * of stop and open for the trade (`StopFillAsWritten`), and the engines run that rule; the
 * evidently intended fill is the worse of the two (`StopFill`). `AsWrittenFillIsOptimistic`
 * exhibits the gap on concrete candles and `AsWrittenExitNoWorse` bounds it for every exit.
 */
module TrailingExit {
  import opened Candles

  /** The number of candles after the entry that the scan may inspect. */
  const EXIT_HORIZON: nat := 39

  /**
   * The stop after seeing candle c. For 'UP' it can only rise, for the other direction
   * it can only fall.
   */
  function Ratchet(trend: Trend, stop: real, c: Candle, entryPrice: real, trailDist: real): (s: real)
    ensures trend == Up ==> s >= stop
    ensures trend != Up ==> s <= stop
  {
    if trend == Up then
      (if c.high > entryPrice + trailDist then Max(stop, c.high - trailDist) else stop)
    else
      (if c.low < entryPrice - trailDist then Min(stop, c.low + trailDist) else stop)
  }

  /** Whether candle c reaches the stop. */
  predicate Touched(trend: Trend, stop: real, c: Candle)
  {
    if trend == Up then c.low <= stop else c.high >= stop
  }

  /**
   * The fill of a stopped trade as the validators write it: for 'UP' the higher of stop and
   * open, for 'DOWN' the lower, each with slippage against the trade. That is the better of
   * the two prices for the trade, not the worse.
   */
  function StopFillAsWritten(trend: Trend, stop: real, c: Candle, slip: real): (p: real)
    ensures trend == Up ==> p >= stop - slip && p >= c.open - slip && (p == stop - slip || p == c.open - slip)
    ensures trend != Up ==> p <= stop + slip && p <= c.open + slip && (p == stop + slip || p == c.open + slip)
  {
    if trend == Up then Max(stop, c.open) - slip else Min(stop, c.open) + slip
  }

  /**
   * A long stopped at 100 on a candle that opens at 110 and trades down to 99 fills at 110
   * as written, above the stop the candle went through; one that gaps down to open at 90
   * fills at 100, above any price the candle traded at.
   */
  lemma AsWrittenFillIsOptimistic()
    ensures var c := Candle("", 110.0, 110.0, 99.0, 100.0, 0.0);
      Touched(Up, 100.0, c) && StopFillAsWritten(Up, 100.0, c, 0.0) == 110.0 > StopFill(Up, 100.0, c, 0.0)
    ensures var c := Candle("", 90.0, 92.0, 85.0, 88.0, 0.0);
      Touched(Up, 100.0, c) && StopFillAsWritten(Up, 100.0, c, 0.0) == 100.0 > c.high
  {
  }

  /**
   * The fill of a stopped trade, worst case for the trade: the lower of stop and open for
   * 'UP', the higher for 'DOWN', with slippage against the trade. It is never better than
   * the stop nor than the candle's open.
   */
  function StopFill(trend: Trend, stop: real, c: Candle, slip: real): (p: real)
    ensures trend == Up ==> p <= stop - slip && p <= c.open - slip && (p == stop - slip || p == c.open - slip)
    ensures trend != Up ==> p >= stop + slip && p >= c.open + slip && (p == stop + slip || p == c.open + slip)
  {
    if trend == Up then Min(stop, c.open) - slip else Max(stop, c.open) + slip
  }

  /** How a stopped trade is filled: as the validators write it, or at the worse price. */
  datatype FillRule = AsWritten | WorstCase

  /** The fill of a trade stopped at `stop` on candle c under `rule`. */
  function Fill(rule: FillRule, trend: Trend, stop: real, c: Candle, slip: real): real
  {
    if rule == AsWritten then StopFillAsWritten(trend, stop, c, slip) else StopFill(trend, stop, c, slip)
  }

  /** The outcome of a scan: stopped out at a price, or still running with its current stop. */
  datatype ScanResult = Stopped(price: real, stop: real) | Running(stop: real)

  /** The scan over the candles of `window`, in order, starting from `stop`. */
  function Scan(rule: FillRule, window: seq<Candle>, trend: Trend, entryPrice: real, stop: real, trailDist: real,
                slip: real): ScanResult
  {
    if window == [] then Running(stop)
    else
      var s := Ratchet(trend, stop, window[0], entryPrice, trailDist);
      if Touched(trend, s, window[0]) then Stopped(Fill(rule, trend, s, window[0], slip), s)
      else Scan(rule, window[1..], trend, entryPrice, s, trailDist, slip)
  }

  /** `min(i + 40, len(day_candles))`, the end of the scanned range. */
  function WindowEnd(day: seq<Candle>, i: nat): (e: nat)
    requires i < |day|
    ensures i < e <= |day| && e <= i + 1 + EXIT_HORIZON
  {
    if i + 1 + EXIT_HORIZON <= |day| then i + 1 + EXIT_HORIZON else |day|
  }

  /** The exit price of a trade entered at candle i of `day`. */
  function ExitPrice(rule: FillRule, day: seq<Candle>, i: nat, trend: Trend, entryPrice: real, stop: real,
                     trailDist: real, slip: real): real
    requires i < |day|
  {
    match Scan(rule, day[i + 1..WindowEnd(day, i)], trend, entryPrice, stop, trailDist, slip)
    case Stopped(p, _) => p
    case Running(_) => day[|day| - 1].close
  }

  /**
   * The inner `for j in range(i + 1, min(i + 40, len(day_candles)))` loop, filling a stopped
   * trade as the validators write it.
   */
  method SimulateExit(day: seq<Candle>, i: nat, trend: Trend, entryPrice: real, stop: real, trailDist: real, slip: real)
    returns (exitPrice: real)
    requires i < |day|
    ensures exitPrice == ExitPrice(AsWritten, day, i, trend, entryPrice, stop, trailDist, slip)
  {
    exitPrice := day[|day| - 1].close;
    var trailingStop := stop;
    var hi := if i + 40 < |day| then i + 40 else |day|;
    assert hi == WindowEnd(day, i);
    var j := i + 1;
    while j < hi
      invariant i + 1 <= j <= hi
      invariant Scan(AsWritten, day[i + 1..hi], trend, entryPrice, stop, trailDist, slip)
             == Scan(AsWritten, day[j..hi], trend, entryPrice, trailingStop, trailDist, slip)
      invariant exitPrice == day[|day| - 1].close
    {
      var c := day[j];
      assert day[j..hi][0] == c && day[j..hi][1..] == day[j + 1..hi];
      trailingStop := Ratchet(trend, trailingStop, c, entryPrice, trailDist);
      if Touched(trend, trailingStop, c) {
        exitPrice := if trend == Up then Max(trailingStop, c.open) - slip else Min(trailingStop, c.open) + slip;
        return;
      }
      j := j + 1;
    }
  }

  /** The stop a scan ends with has only moved in the trade's favour. */
  lemma {:induction false} ScanStopMonotone(rule: FillRule, window: seq<Candle>, trend: Trend, entryPrice: real, stop: real,
                                            trailDist: real, slip: real)
    ensures trend == Up ==> Scan(rule, window, trend, entryPrice, stop, trailDist, slip).stop >= stop
    ensures trend != Up ==> Scan(rule, window, trend, entryPrice, stop, trailDist, slip).stop <= stop
  {
    if window != [] {
      var s := Ratchet(trend, stop, window[0], entryPrice, trailDist);
      if !Touched(trend, s, window[0]) {
        ScanStopMonotone(rule, window[1..], trend, entryPrice, s, trailDist, slip);
      }
    }
  }

  /**
   * The stop a stopped trade hit has only moved in the trade's favour from the initial one.
   * Under the worst-case rule the trade fills no better than that stop, beyond the slippage;
   * under the rule as written it fills no worse.
   */
  lemma {:induction false} ScanFillBound(rule: FillRule, window: seq<Candle>, trend: Trend, entryPrice: real, stop: real,
                                         trailDist: real, slip: real)
    ensures var r := Scan(rule, window, trend, entryPrice, stop, trailDist, slip);
      r.Stopped? ==>
        if trend == Up then r.stop >= stop && (if rule == WorstCase then r.price <= r.stop - slip else r.price >= r.stop - slip)
        else r.stop <= stop && (if rule == WorstCase then r.price >= r.stop + slip else r.price <= r.stop + slip)
  {
    if window != [] {
      var s := Ratchet(trend, stop, window[0], entryPrice, trailDist);
      if !Touched(trend, s, window[0]) {
        ScanFillBound(rule, window[1..], trend, entryPrice, s, trailDist, slip);
      }
    }
  }

  /** A stopped scan was stopped by one of its candles touching the final stop, and filled there. */
  lemma {:induction false} ScanStoppedAt(rule: FillRule, window: seq<Candle>, trend: Trend, entryPrice: real, stop: real,
                                         trailDist: real, slip: real)
    ensures var r := Scan(rule, window, trend, entryPrice, stop, trailDist, slip);
      r.Stopped? ==> (exists k :: 0 <= k < |window| && Touched(trend, r.stop, window[k]) &&
                                  r.price == Fill(rule, trend, r.stop, window[k], slip))
  {
    if window != [] {
      var s := Ratchet(trend, stop, window[0], entryPrice, trailDist);
      if !Touched(trend, s, window[0]) {
        var rest := window[1..];
        ScanStoppedAt(rule, rest, trend, entryPrice, s, trailDist, slip);
        var r := Scan(rule, rest, trend, entryPrice, s, trailDist, slip);
        if r.Stopped? {
          var k :| 0 <= k < |rest| && Touched(trend, r.stop, rest[k]) && r.price == Fill(rule, trend, r.stop, rest[k], slip);
          assert rest[k] == window[k + 1];
        }
      }
    }
  }

  /**
   * A trade that is not stopped leaves at the day's last close; a stopped one was stopped by a
   * candle after the entry, inside the window, touching the final stop. For a long trade the
   * rule as written fills at max(stop, open) - slip and the worst-case rule at
   * min(stop, open) - slip; a short trade mirrors this with + slip.
   */
  lemma ExitPriceBound(rule: FillRule, day: seq<Candle>, i: nat, trend: Trend, entryPrice: real, stop: real,
                       trailDist: real, slip: real)
    requires i < |day|
    ensures var r := Scan(rule, day[i + 1..WindowEnd(day, i)], trend, entryPrice, stop, trailDist, slip);
      var p := ExitPrice(rule, day, i, trend, entryPrice, stop, trailDist, slip);
      (r.Running? ==> p == day[|day| - 1].close) &&
      (r.Stopped? ==>
         exists j :: i < j < WindowEnd(day, i) && Touched(trend, r.stop, day[j]) &&
           (trend == Up ==>
              p == (if rule == AsWritten then Max(r.stop, day[j].open) else Min(r.stop, day[j].open)) - slip) &&
           (trend != Up ==>
              p == (if rule == AsWritten then Min(r.stop, day[j].open) else Max(r.stop, day[j].open)) + slip))
  {
    var w := day[i + 1..WindowEnd(day, i)];
    ScanStoppedAt(rule, w, trend, entryPrice, stop, trailDist, slip);
    var r := Scan(rule, w, trend, entryPrice, stop, trailDist, slip);
    if r.Stopped? {
      var k :| 0 <= k < |w| && Touched(trend, r.stop, w[k]) && r.price == Fill(rule, trend, r.stop, w[k], slip);
      assert w[k] == day[i + 1 + k];
    }
  }

  /**
   * The two fill rules stop a trade at the same candle with the same stop, and the rule as
   * written never fills worse for the trade than the worst-case rule.
   */
  lemma {:induction false} ScanRulesAgree(window: seq<Candle>, trend: Trend, entryPrice: real, stop: real,
                                          trailDist: real, slip: real)
    ensures var a := Scan(AsWritten, window, trend, entryPrice, stop, trailDist, slip);
      var w := Scan(WorstCase, window, trend, entryPrice, stop, trailDist, slip);
      a.Stopped? == w.Stopped? && a.stop == w.stop &&
      (a.Stopped? ==> if trend == Up then a.price >= w.price else a.price <= w.price)
  {
    if window != [] {
      var s := Ratchet(trend, stop, window[0], entryPrice, trailDist);
      if !Touched(trend, s, window[0]) {
        ScanRulesAgree(window[1..], trend, entryPrice, s, trailDist, slip);
      }
    }
  }

  /** The exit price as written is at least the worst-case one for a long trade, at most for a short. */
  lemma AsWrittenExitNoWorse(day: seq<Candle>, i: nat, trend: Trend, entryPrice: real, stop: real, trailDist: real,
                             slip: real)
    requires i < |day|
    ensures var a := ExitPrice(AsWritten, day, i, trend, entryPrice, stop, trailDist, slip);
      var w := ExitPrice(WorstCase, day, i, trend, entryPrice, stop, trailDist, slip);
      if trend == Up then a >= w else a <= w
  {
    ScanRulesAgree(day[i + 1..WindowEnd(day, i)], trend, entryPrice, stop, trailDist, slip);
  }

  /**
   * The exit reads nothing at or before the entry candle: two days that agree after
   * index i give the same exit.
   */
  lemma ExitIgnoresPast(rule: FillRule, day: seq<Candle>, other: seq<Candle>, i: nat, trend: Trend, entryPrice: real,
                        stop: real, trailDist: real, slip: real)
    requires i + 1 < |day| && |other| == |day|
    requires day[i + 1..] == other[i + 1..]
    ensures ExitPrice(rule, day, i, trend, entryPrice, stop, trailDist, slip)
         == ExitPrice(rule, other, i, trend, entryPrice, stop, trailDist, slip)
  {
    var e := WindowEnd(day, i);
    assert day[i + 1..e] == day[i + 1..][..e - i - 1];
    assert other[i + 1..e] == other[i + 1..][..e - i - 1];
    assert day[|day| - 1] == day[i + 1..][|day| - i - 2];
    assert other[|other| - 1] == other[i + 1..][|day| - i - 2];
  }
}
