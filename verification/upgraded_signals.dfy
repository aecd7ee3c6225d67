/**
 * The pure signal functions of the upgraded intraday validator: the first-hour volatility
 * filter, the EMA-slope trend gate, the pullback-break confirmation, the trade-quality score
 * and trend-and-pullback detection.
 */
module UpgradedSignals {
  import opened Candles
  import opened IntradayIndicators

  const EMA_FAST: nat := 13
  const EMA_SLOW: nat := 34
  const PULLBACK_ATR: real := 2.0
  const MIN_FIRST_HOUR_RANGE_ATR: real := 0.4
  const MIN_EMA_SLOPE: real := 0.0
  const MIN_TRADE_SCORE: real := 0.5
  const ATR_PERIOD: nat := 14

  /** The history the trend, pullback and quality functions need: EMA_SLOW + 5 candles. */
  const MIN_HISTORY: nat := EMA_SLOW + 5

  // ---------------------------------------------------------------- volatility filter

  /**
   * is_low_volatility_day: never for an empty first hour or a non-positive ATR; otherwise
   * when the first hour's high-low range is below 0.4 ATR.
   */
  predicate IsLowVolatilityDay(firstHour: seq<Candle>, atr: real)
  {
    if |firstHour| < 1 || atr <= 0.0 then false
    else MaxHigh(firstHour) - MinLow(firstHour) < atr * MIN_FIRST_HOUR_RANGE_ATR
  }

  /**
   * A day is skipped as low-volatility exactly when the ATR is positive, the first hour is
   * not empty and no pair of its candles spans 0.4 ATR from one's high to another's low.
   */
  lemma LowVolatilityMeansNarrowFirstHour(firstHour: seq<Candle>, atr: real)
    ensures IsLowVolatilityDay(firstHour, atr) <==>
      |firstHour| >= 1 && atr > 0.0 &&
      forall a, b :: 0 <= a < |firstHour| && 0 <= b < |firstHour| ==>
        firstHour[a].high - firstHour[b].low < atr * MIN_FIRST_HOUR_RANGE_ATR
  {
    if |firstHour| >= 1 && atr > 0.0 {
      var a :| 0 <= a < |firstHour| && firstHour[a].high == MaxHigh(firstHour);
      var b :| 0 <= b < |firstHour| && firstHour[b].low == MinLow(firstHour);
      assert firstHour[a].high - firstHour[b].low == MaxHigh(firstHour) - MinLow(firstHour);
    }
  }

  // ---------------------------------------------------------------- trend gate

  /**
   * is_trend_strong: false below emaPeriod + 10 candles or when the EMA of all but the last
   * ten closes is 0; otherwise whether the relative EMA slope reaches MIN_EMA_SLOPE.
   */
  predicate IsTrendStrong(cs: seq<Candle>, emaPeriod: nat)
    requires emaPeriod > 0
  {
    if |cs| < emaPeriod + 10 then false
    else
      var closes := Closes(cs);
      var currentEma := SeededEma(closes, emaPeriod);
      var pastEma := SeededEma(closes[..|closes| - 10], emaPeriod);
      if pastEma == 0.0 then false
      else Abs((currentEma - pastEma) / pastEma) >= MIN_EMA_SLOPE
  }

  /**
   * With MIN_EMA_SLOPE at 0 the gate only rejects short windows and a zero past EMA.
   */
  lemma TrendGateOnlyChecksHistory(cs: seq<Candle>, emaPeriod: nat)
    requires emaPeriod > 0
    ensures IsTrendStrong(cs, emaPeriod) <==>
      |cs| >= emaPeriod + 10 && SeededEma(Closes(cs)[..|cs| - 10], emaPeriod) != 0.0
  {
  }

  /** So on positive closes with enough history the gate always passes. */
  lemma TrendGatePassesPositiveCloses(cs: seq<Candle>, emaPeriod: nat)
    requires emaPeriod > 0 && |cs| >= emaPeriod + 10
    requires forall k :: 0 <= k < |cs| ==> cs[k].close > 0.0
    ensures IsTrendStrong(cs, emaPeriod)
  {
    var past := Closes(cs)[..|cs| - 10];
    SeededEmaPositive(past, emaPeriod);
  }

  // ---------------------------------------------------------------- entry confirmation

  /**
   * has_entry_confirmation: for at least ten candles, whether the last close breaks above
   * the ten-candle high ('UP') or below the ten-candle low (any other trend), with that high
   * and low. Its call in the simulation loop is commented out.
   */
  function HasEntryConfirmation(cs: seq<Candle>, trend: Trend): (r: (bool, real, real))
    ensures |cs| < 10 ==> r == (false, 0.0, 0.0)
  {
    if |cs| < 10 then (false, 0.0, 0.0)
    else
      var pullback := cs[|cs| - 10..];
      var pullbackHigh := MaxHigh(pullback);
      var pullbackLow := MinLow(pullback);
      var currentClose := cs[|cs| - 1].close;
      var confirmed := if trend == Up then currentClose > pullbackHigh else currentClose < pullbackLow;
      (confirmed, pullbackHigh, pullbackLow)
  }

  /**
   * The ten-candle window includes the current candle, so when that candle's close lies in
   * its own range the confirmation can never hold, in either direction.
   */
  lemma ConfirmationNeverHolds(cs: seq<Candle>, trend: Trend)
    requires |cs| >= 1 && cs[|cs| - 1].low <= cs[|cs| - 1].close <= cs[|cs| - 1].high
    ensures !HasEntryConfirmation(cs, trend).0
  {
    if |cs| >= 10 {
      var pullback := cs[|cs| - 10..];
      assert pullback[9] == cs[|cs| - 1];
    }
  }

  // ---------------------------------------------------------------- trade quality

  /** `min(separation * 100, 1.0)` for the relative gap between the fast and slow EMAs. */
  function TrendStrength(closes: seq<real>): (r: real)
    ensures 0.0 <= r <= 1.0
  {
    var fastEma := SeededEma(closes, EMA_FAST);
    var slowEma := SeededEma(closes, EMA_SLOW);
    var separation := if slowEma > 0.0 then Abs(fastEma - slowEma) / slowEma else 0.0;
    NonNegativeQuotient(Abs(fastEma - slowEma), if slowEma > 0.0 then slowEma else 1.0);
    Min(separation * 100.0, 1.0)
  }

  /**
   * The position of the close within the ten-candle range, measured from whichever end it is
   * further from; the two distances add up to the whole range.
   */
  function PullbackDepth(swingHigh: real, swingLow: real, current: real): (depth: real)
    requires swingHigh - swingLow > 0.0
    ensures depth >= 0.5
  {
    var rangeVal := swingHigh - swingLow;
    var fromHigh := (swingHigh - current) / rangeVal;
    var fromLow := (current - swingLow) / rangeVal;
    assert fromHigh + fromLow == 1.0;
    Max(fromHigh, fromLow)
  }

  /**
   * The pullback score: 2 * depth up to a depth of 0.5, then falling linearly to 0 at a depth
   * of 1. Since the depth is never below 0.5, the score is 1 exactly at mid-range and falls
   * off toward either end.
   */
  function PullbackScore(recent: seq<Candle>, current: real): (r: real)
    requires |recent| > 0
    ensures 0.0 <= r <= 1.0
  {
    var swingHigh := MaxHigh(recent);
    var swingLow := MinLow(recent);
    if swingHigh - swingLow > 0.0 then
      var depth := PullbackDepth(swingHigh, swingLow, current);
      if depth <= 0.5 then depth * 2.0 else Max(0.0, 1.0 - (depth - 0.5) * 2.0)
    else 0.0
  }

  /** The volumes of a candle list. */
  function Volumes(cs: seq<Candle>): (r: seq<real>)
    ensures |r| == |cs| && forall k :: 0 <= k < |cs| ==> r[k] == cs[k].volume
  {
    seq(|cs|, k requires 0 <= k < |cs| => cs[k].volume)
  }

  /**
   * The volume score: half the ratio of the last volume to the mean of the 19 before it,
   * capped at 1 (ratio 1 when that mean is not positive); 0.5 for fewer than 20 candles.
   */
  function VolumeScore(cs: seq<Candle>): (r: real)
    requires |cs| > 0
    ensures r <= 1.0
    ensures cs[|cs| - 1].volume >= 0.0 ==> r >= 0.0
  {
    if |cs| >= 20 then
      var avgVolume := Sum(Volumes(cs[|cs| - 20..|cs| - 1])) / 19.0;
      var currentVolume := cs[|cs| - 1].volume;
      var volumeRatio := if avgVolume > 0.0 then currentVolume / avgVolume else 1.0;
      assert currentVolume >= 0.0 && avgVolume > 0.0 ==> volumeRatio >= 0.0 by {
        if currentVolume >= 0.0 && avgVolume > 0.0 { NonNegativeQuotient(currentVolume, avgVolume); }
      }
      Min(volumeRatio / 2.0, 1.0)
    else 0.5
  }

  /**
   * calculate_trade_quality: 0 below MIN_HISTORY candles, otherwise
   * 0.4 * trend strength + 0.4 * pullback score + 0.2 * volume score. Whenever the last
   * volume is not negative the score lies in [0, 1], as its documentation promises.
   */
  function TradeQuality(cs: seq<Candle>): (r: real)
    ensures |cs| < MIN_HISTORY ==> r == 0.0
    ensures |cs| > 0 && cs[|cs| - 1].volume >= 0.0 ==> 0.0 <= r <= 1.0
  {
    if |cs| < MIN_HISTORY then 0.0
    else
      var closes := Closes(cs);
      var trendStrength := TrendStrength(closes);
      var pullbackScore := PullbackScore(Tail(cs, 10), closes[|closes| - 1]);
      var volumeScore := VolumeScore(cs);
      trendStrength * 0.4 + pullbackScore * 0.4 + volumeScore * 0.2
  }

  // ---------------------------------------------------------------- trend and pullback

  /**
   * The trend label from the EMA pair and the last close: 'UP' when the fast EMA is above
   * the slow one and the close above the slow one, 'DOWN' in the mirrored case.
   */
  function ClassifyTrend(fastEma: real, slowEma: real, close: real): (t: Trend)
    ensures t == Up <==> fastEma > slowEma && close > slowEma
    ensures t == Down <==> fastEma < slowEma && close < slowEma
  {
    if fastEma > slowEma && close > slowEma then Up
    else if fastEma < slowEma && close < slowEma then Down
    else Neutral
  }

  /**
   * A pullback: for a non-neutral trend, the close sits on the near side of the fast EMA,
   * more than 0.3 * PULLBACK_ATR and less than PULLBACK_ATR ATRs away from it.
   */
  predicate IsPullback(trend: Trend, fastEma: real, close: real, atr: real)
  {
    if trend == Up then
      var dip := fastEma - close;
      dip > atr * PULLBACK_ATR * 0.3 && dip < atr * PULLBACK_ATR
    else if trend == Down then
      var rally := close - fastEma;
      rally > atr * PULLBACK_ATR * 0.3 && rally < atr * PULLBACK_ATR
    else false
  }

  /**
   * A pullback needs a positive ATR and puts the close strictly between the two EMAs,
   * more than 0.6 ATR and less than 2 ATR from the fast one.
   */
  lemma PullbackBetweenEmas(fastEma: real, slowEma: real, close: real, atr: real)
    requires IsPullback(ClassifyTrend(fastEma, slowEma, close), fastEma, close, atr)
    ensures atr > 0.0
    ensures ClassifyTrend(fastEma, slowEma, close) == Up ==>
      slowEma < close < fastEma && 0.6 * atr < fastEma - close < 2.0 * atr
    ensures ClassifyTrend(fastEma, slowEma, close) == Down ==>
      fastEma < close < slowEma && 0.6 * atr < close - fastEma < 2.0 * atr
  {
  }

  /** The EMA pair and ATR that trend detection reads. */
  function FastEma(cs: seq<Candle>): real { SeededEma(Closes(cs), EMA_FAST) }
  function SlowEma(cs: seq<Candle>): real { SeededEma(Closes(cs), EMA_SLOW) }
  function Atr(cs: seq<Candle>): (r: real)
    ensures r >= 0.0
  {
    RecentAtr(cs, ATR_PERIOD)
  }

  /**
   * detect_trend_and_pullback: ('NEUTRAL', false) below MIN_HISTORY candles, otherwise the
   * trend label of the EMA pair and last close, and whether that close is a pullback.
   */
  function DetectTrendAndPullback(cs: seq<Candle>): (r: (Trend, bool))
    ensures |cs| < MIN_HISTORY ==> r == (Neutral, false)
    ensures r.1 ==> r.0 != Neutral
  {
    if |cs| < MIN_HISTORY then (Neutral, false)
    else
      var currentClose := cs[|cs| - 1].close;
      var trend := ClassifyTrend(FastEma(cs), SlowEma(cs), currentClose);
      (trend, IsPullback(trend, FastEma(cs), currentClose, Atr(cs)))
  }

  /**
   * With enough history, 'UP' and 'DOWN' are each reported exactly under their own EMA
   * condition, and a reported pullback lies strictly between the EMAs, 0.6 to 2 ATR from
   * the fast one, with a positive ATR.
   */
  lemma TrendAndPullbackConditions(cs: seq<Candle>)
    requires |cs| >= MIN_HISTORY
    ensures var r := DetectTrendAndPullback(cs);
      var close := cs[|cs| - 1].close;
      (r.0 == Up <==> FastEma(cs) > SlowEma(cs) && close > SlowEma(cs)) &&
      (r.0 == Down <==> FastEma(cs) < SlowEma(cs) && close < SlowEma(cs)) &&
      (r.1 ==> Atr(cs) > 0.0) &&
      (r.1 && r.0 == Up ==> SlowEma(cs) < close < FastEma(cs) &&
                            0.6 * Atr(cs) < FastEma(cs) - close < 2.0 * Atr(cs)) &&
      (r.1 && r.0 == Down ==> FastEma(cs) < close < SlowEma(cs) &&
                              0.6 * Atr(cs) < close - FastEma(cs) < 2.0 * Atr(cs))
  {
    var close := cs[|cs| - 1].close;
    if DetectTrendAndPullback(cs).1 {
      PullbackBetweenEmas(FastEma(cs), SlowEma(cs), close, Atr(cs));
    }
  }
}
