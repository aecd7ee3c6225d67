/**
 * Candles, trading days and the small numeric helpers every backtest engine shares:
 * sums, true range, window extremes and Python's truncating int().
 * Prices, volumes and money are modelled as `real`.
 */
module Candles {

  /** One OHLCV bar. `timestamp` is the ISO text the data exporter writes. */
  datatype Candle = Candle(timestamp: string, open: real, high: real, low: real, close: real, volume: real)

  /** One trading day of an already-loaded day map: its date key and its candles in time order. */
  datatype Day = Day(key: string, candles: seq<Candle>)

  /** A value that may be absent, for Python's `None`. */
  datatype Option<T> = None | Some(value: T)

  /** The trend labels 'UP', 'DOWN' and 'NEUTRAL' of the intraday scripts. */
  datatype Trend = Up | Down | Neutral

  /** A candle whose close lies inside its range and whose volume is not negative. */
  predicate WellFormed(c: Candle)
  {
    c.low <= c.close <= c.high && c.volume >= 0.0
  }

  function Abs(x: real): (r: real)
    ensures r >= 0.0 && (r == x || r == -x)
  {
    if x >= 0.0 then x else -x
  }

  function Max(a: real, b: real): (r: real)
    ensures r >= a && r >= b && (r == a || r == b)
  {
    if a >= b then a else b
  }

  function Min(a: real, b: real): (r: real)
    ensures r <= a && r <= b && (r == a || r == b)
  {
    if a <= b then a else b
  }

  function MinNat(a: nat, b: nat): nat
  {
    if a <= b then a else b
  }

  /**
   * Python's int() on a float: truncation toward zero. For a non-negative argument it is
   * the largest integer not above it; a negative argument never gives a positive result.
   */
  function Trunc(x: real): (r: int)
    ensures x >= 0.0 ==> 0 <= r && r as real <= x < r as real + 1.0
    ensures x < 0.0 ==> r <= 0
  {
    if x >= 0.0 then x.Floor else -((-x).Floor)
  }

  /** qty = int(budget / risk) >= 1 means qty shares at `risk` each fit inside a positive budget. */
  lemma BudgetCoversRisk(budget: real, risk: real, qty: int)
    requires risk > 0.0 && qty >= 1 && qty == Trunc(budget / risk)
    ensures qty as real * risk <= budget && budget > 0.0
  {
    var q := budget / risk;
    assert q >= 0.0;
    assert qty as real <= q;
    assert qty as real * risk <= q * risk;
    assert q * risk == budget;
  }

  /** qty = int(budget / risk) is the largest count: one more share would exceed the budget. */
  lemma BudgetBelowNextShare(budget: real, risk: real, qty: int)
    requires risk > 0.0 && budget >= 0.0 && qty == Trunc(budget / risk)
    ensures budget < (qty + 1) as real * risk
  {
    var q := budget / risk;
    assert q < (qty + 1) as real;
    assert q * risk < (qty + 1) as real * risk;
    assert q * risk == budget;
  }

  /** Python's `s[-n:]` for n > 0: the last n elements, or all of them when there are fewer. */
  function Tail<T>(s: seq<T>, n: nat): (r: seq<T>)
    ensures |r| == MinNat(n, |s|)
    ensures r == s[|s| - |r|..]
  {
    s[|s| - MinNat(n, |s|)..]
  }

  lemma ProductNonNegative(a: real, b: real)
    requires a >= 0.0 && b >= 0.0
    ensures a * b >= 0.0
  {
  }

  lemma NonNegativeQuotient(a: real, b: real)
    requires a >= 0.0 && b > 0.0
    ensures a / b >= 0.0
  {
  }

  /** Python's sum() over a list of floats, accumulated left to right. */
  function Sum(xs: seq<real>): real
  {
    if xs == [] then 0.0 else Sum(xs[..|xs| - 1]) + xs[|xs| - 1]
  }

  lemma SumSnoc(xs: seq<real>, x: real)
    ensures Sum(xs + [x]) == Sum(xs) + x
  {
    assert (xs + [x])[..|xs|] == xs;
  }

  lemma {:induction false} SumNonNegative(xs: seq<real>)
    requires forall k :: 0 <= k < |xs| ==> xs[k] >= 0.0
    ensures Sum(xs) >= 0.0
  {
    if xs != [] {
      SumNonNegative(xs[..|xs| - 1]);
    }
  }

  lemma {:induction false} SumPositive(xs: seq<real>)
    requires |xs| > 0 && forall k :: 0 <= k < |xs| ==> xs[k] > 0.0
    ensures Sum(xs) > 0.0
  {
    if |xs| > 1 {
      SumPositive(xs[..|xs| - 1]);
    }
  }

  /** A sum of values in [lo, hi] lies between |xs|*lo and |xs|*hi. */
  lemma {:induction false} SumBounds(xs: seq<real>, lo: real, hi: real)
    requires forall k :: 0 <= k < |xs| ==> lo <= xs[k] <= hi
    ensures |xs| as real * lo <= Sum(xs) <= |xs| as real * hi
  {
    if xs != [] {
      var n := |xs| - 1;
      SumBounds(xs[..n], lo, hi);
      assert (n + 1) as real * lo == n as real * lo + lo;
      assert (n + 1) as real * hi == n as real * hi + hi;
    }
  }

  /** The mean of a non-empty list of values in [lo, hi] lies in [lo, hi]. */
  lemma MeanBounds(xs: seq<real>, lo: real, hi: real)
    requires |xs| > 0
    requires forall k :: 0 <= k < |xs| ==> lo <= xs[k] <= hi
    ensures lo <= Sum(xs) / |xs| as real <= hi
  {
    SumBounds(xs, lo, hi);
    QuotientBounds(Sum(xs), |xs| as real, lo, hi);
  }

  /** Dividing by a positive n keeps a value between n*lo and n*hi between lo and hi. */
  lemma QuotientBounds(a: real, n: real, lo: real, hi: real)
    requires n > 0.0 && n * lo <= a <= n * hi
    ensures lo <= a / n <= hi
  {
    var q := a / n;
    assert q * n == a;
    assert (q - lo) * n >= 0.0;
    assert (hi - q) * n >= 0.0;
  }

  /** The closing prices of a candle list, `[c['close'] for c in candles]`. */
  function Closes(cs: seq<Candle>): (r: seq<real>)
    ensures |r| == |cs|
    ensures forall k :: 0 <= k < |cs| ==> r[k] == cs[k].close
  {
    seq(|cs|, k requires 0 <= k < |cs| => cs[k].close)
  }

  /** max(high − low, |high − prevClose|, |low − prevClose|); never negative. */
  function TrueRange(prev: Candle, c: Candle): (r: real)
    ensures r >= 0.0
    ensures r >= c.high - c.low && r >= Abs(c.high - prev.close) && r >= Abs(c.low - prev.close)
  {
    Max(Max(c.high - c.low, Abs(c.high - prev.close)), Abs(c.low - prev.close))
  }

  /** The true range of every candle after the first, against its predecessor's close. */
  function TrueRanges(cs: seq<Candle>): (r: seq<real>)
    ensures |cs| >= 1 ==> |r| == |cs| - 1
    ensures |cs| < 1 ==> r == []
    ensures forall k {:trigger r[k]} :: 0 <= k < |r| ==> r[k] == TrueRange(cs[k], cs[k + 1]) && r[k] >= 0.0
  {
    if |cs| < 1 then [] else seq(|cs| - 1, k requires 0 <= k < |cs| - 1 => TrueRange(cs[k], cs[k + 1]))
  }

  /** `max(c['high'] for c in cs)`: the highest high, attained by some candle. */
  function MaxHigh(cs: seq<Candle>): (r: real)
    requires |cs| > 0
    ensures forall k :: 0 <= k < |cs| ==> cs[k].high <= r
    ensures exists k :: 0 <= k < |cs| && cs[k].high == r
  {
    if |cs| == 1 then cs[0].high
    else
      var m := MaxHigh(cs[..|cs| - 1]);
      assert forall k :: 0 <= k < |cs| - 1 ==> cs[..|cs| - 1][k] == cs[k];
      Max(m, cs[|cs| - 1].high)
  }

  /** `min(c['low'] for c in cs)`: the lowest low, attained by some candle. */
  function MinLow(cs: seq<Candle>): (r: real)
    requires |cs| > 0
    ensures forall k :: 0 <= k < |cs| ==> r <= cs[k].low
    ensures exists k :: 0 <= k < |cs| && cs[k].low == r
  {
    if |cs| == 1 then cs[0].low
    else
      var m := MinLow(cs[..|cs| - 1]);
      assert forall k :: 0 <= k < |cs| - 1 ==> cs[..|cs| - 1][k] == cs[k];
      Min(m, cs[|cs| - 1].low)
  }
}
