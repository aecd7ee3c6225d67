/**
 * The indicator pair of the daily swing validator, the base benchmark and the unified
 * comparison: an EMA seeded with the first price, and an ATR that averages every true
 * range of the window it is given.
 */
module SwingIndicators {
  import opened Candles

  /** One step of `ema = (p * k) + (ema * (1 - k))`. */
  function SwingStep(ema: real, p: real, k: real): real
  {
    (p * k) + (ema * (1.0 - k))
  }

  /** The recurrence applied to each price of `ps` in turn, starting from `seed`. */
  function SwingFold(seed: real, ps: seq<real>, k: real): real
  {
    if ps == [] then seed else SwingStep(SwingFold(seed, ps[..|ps| - 1], k), ps[|ps| - 1], k)
  }

  /**
   * calculate_ema of validate_swing.py, validate_base_comparison.py and
   * compare_strategies_unified.py: 0 for an empty list
   * or fewer than `period` prices; otherwise the recurrence seeded with the first price.
   */
  function FirstSeededEma(prices: seq<real>, period: nat): (r: real)
    ensures |prices| == 0 || |prices| < period ==> r == 0.0
    ensures |prices| == 1 && period <= 1 ==> r == prices[0]
  {
    if |prices| == 0 || |prices| < period then 0.0
    else SwingFold(prices[0], prices[1..], 2.0 / (period as real + 1.0))
  }

  /** The loop of calculate_ema, proved to compute FirstSeededEma. */
  method CalculateEma(prices: seq<real>, period: nat) returns (ema: real)
    ensures ema == FirstSeededEma(prices, period)
  {
    if |prices| == 0 || |prices| < period {
      return 0.0;
    }
    var k := 2.0 / (period as real + 1.0);
    ema := prices[0];
    var i := 1;
    while i < |prices|
      invariant 1 <= i <= |prices|
      invariant ema == SwingFold(prices[0], prices[1..i], k)
    {
      assert prices[1..i + 1][..i - 1] == prices[1..i];
      ema := (prices[i] * k) + (ema * (1.0 - k));
      i := i + 1;
    }
    assert prices[1..i] == prices[1..];
  }

  lemma SwingStepBounds(ema: real, p: real, k: real, lo: real, hi: real)
    requires 0.0 < k <= 1.0 && lo <= ema <= hi && lo <= p <= hi
    ensures lo <= SwingStep(ema, p, k) <= hi
  {
    ProductNonNegative(k, p - lo);
    ProductNonNegative(1.0 - k, ema - lo);
    ProductNonNegative(k, hi - p);
    ProductNonNegative(1.0 - k, hi - ema);
    assert SwingStep(ema, p, k) == lo + k * (p - lo) + (1.0 - k) * (ema - lo);
    assert SwingStep(ema, p, k) == hi - k * (hi - p) - (1.0 - k) * (hi - ema);
  }

  lemma {:induction false} SwingFoldBounds(seed: real, ps: seq<real>, k: real, lo: real, hi: real)
    requires 0.0 < k <= 1.0 && lo <= seed <= hi
    requires forall j :: 0 <= j < |ps| ==> lo <= ps[j] <= hi
    ensures lo <= SwingFold(seed, ps, k) <= hi
  {
    if ps != [] {
      SwingFoldBounds(seed, ps[..|ps| - 1], k, lo, hi);
      SwingStepBounds(SwingFold(seed, ps[..|ps| - 1], k), ps[|ps| - 1], k, lo, hi);
    }
  }

  /** Once defined, the first-price-seeded EMA lies between the smallest and largest price. */
  lemma FirstSeededEmaBounds(prices: seq<real>, period: nat, lo: real, hi: real)
    requires period > 0 && |prices| >= period
    requires forall j :: 0 <= j < |prices| ==> lo <= prices[j] <= hi
    ensures lo <= FirstSeededEma(prices, period) <= hi
  {
    SwingFoldBounds(prices[0], prices[1..], 2.0 / (period as real + 1.0), lo, hi);
  }

  /** A constant price series has that constant as its EMA. */
  lemma FirstSeededEmaOfConstant(prices: seq<real>, period: nat, c: real)
    requires period > 0 && |prices| >= period
    requires forall j :: 0 <= j < |prices| ==> prices[j] == c
    ensures FirstSeededEma(prices, period) == c
  {
    FirstSeededEmaBounds(prices, period, c, c);
  }

  /**
   * calculate_atr of validate_swing.py and validate_base_comparison.py: 0 for fewer than
   * period + 1 candles; otherwise the mean of ALL true ranges of the window. Never negative.
   */
  function WindowAtr(cs: seq<Candle>, period: nat): (r: real)
    requires period > 0
    ensures r >= 0.0
    ensures |cs| < period + 1 ==> r == 0.0
  {
    if |cs| < period + 1 then 0.0
    else
      var trs := TrueRanges(cs);
      SumNonNegative(trs);
      NonNegativeQuotient(Sum(trs), (|cs| - 1) as real);
      Sum(trs) / (|cs| - 1) as real
  }

  /** Extending the summed prefix of the true ranges by one candle adds that candle's range. */
  lemma TrueRangesPrefixSnoc(cs: seq<Candle>, i: nat)
    requires 1 <= i < |cs|
    ensures Sum(TrueRanges(cs)[..i]) == Sum(TrueRanges(cs)[..i - 1]) + TrueRange(cs[i - 1], cs[i])
  {
    var trs := TrueRanges(cs);
    assert trs[..i] == trs[..i - 1] + [trs[i - 1]];
    SumSnoc(trs[..i - 1], trs[i - 1]);
  }

  /** The loop of calculate_atr, which accumulates `tr_sum` over the whole window. */
  method CalculateAtr(cs: seq<Candle>, period: nat) returns (atr: real)
    requires period > 0
    ensures atr == WindowAtr(cs, period)
  {
    if |cs| < period + 1 {
      return 0.0;
    }
    var trSum := 0.0;
    var i := 1;
    while i < |cs|
      invariant 1 <= i <= |cs|
      invariant trSum == Sum(TrueRanges(cs)[..i - 1])
    {
      TrueRangesPrefixSnoc(cs, i);
      trSum := trSum + TrueRange(cs[i - 1], cs[i]);
      i := i + 1;
    }
    assert TrueRanges(cs)[..i - 1] == TrueRanges(cs);
    atr := trSum / (|cs| - 1) as real;
  }
}
