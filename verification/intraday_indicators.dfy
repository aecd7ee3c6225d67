/**
 * The indicator pair shared, character for character, by the upgraded and the unfiltered
 * intraday validators: an EMA seeded with the mean of the first `period` prices, and an
 * ATR that averages the most recent `period` true ranges.
 */
module IntradayIndicators {
  import opened Candles

  /** The EMA smoothing factor 2 / (period + 1); it lies in (0, 1]. */
  function Multiplier(period: nat): (k: real)
    requires period > 0
    ensures 0.0 < k <= 1.0
  {
    2.0 / (period as real + 1.0)
  }

  /** One step of the recurrence `ema = (price - ema) * multiplier + ema`. */
  function EmaStep(ema: real, price: real, k: real): real
  {
    (price - ema) * k + ema
  }

  /** The recurrence applied to each price of `ps` in turn, starting from `seed`. */
  function EmaFold(seed: real, ps: seq<real>, k: real): real
  {
    if ps == [] then seed else EmaStep(EmaFold(seed, ps[..|ps| - 1], k), ps[|ps| - 1], k)
  }

  /**
   * calculate_ema: 0 for fewer than `period` prices; otherwise the mean of the first
   * `period` prices folded through the recurrence over the remaining ones.
   */
  function SeededEma(prices: seq<real>, period: nat): (r: real)
    requires period > 0
    ensures |prices| < period ==> r == 0.0
    ensures |prices| == period ==> r == Sum(prices) / period as real
  {
    if |prices| < period then 0.0
    else
      assert |prices| == period ==> prices[..period] == prices && prices[period..] == [];
      EmaFold(Sum(prices[..period]) / period as real, prices[period..], Multiplier(period))
  }

  /** The loop of calculate_ema, proved to compute SeededEma. */
  method CalculateEma(prices: seq<real>, period: nat) returns (ema: real)
    requires period > 0
    ensures ema == SeededEma(prices, period)
  {
    if |prices| < period {
      return 0.0;
    }
    var multiplier := 2.0 / (period as real + 1.0);
    ema := Sum(prices[..period]) / period as real;
    ghost var seed := ema;
    var i := period;
    while i < |prices|
      invariant period <= i <= |prices|
      invariant ema == EmaFold(seed, prices[period..i], multiplier)
    {
      assert prices[period..i + 1][..i - period] == prices[period..i];
      ema := EmaStep(ema, prices[i], multiplier);
      i := i + 1;
    }
    assert prices[period..i] == prices[period..];
  }

  /** One recurrence step keeps the average inside any interval holding both inputs. */
  lemma EmaStepBounds(ema: real, price: real, k: real, lo: real, hi: real)
    requires 0.0 < k <= 1.0 && lo <= ema <= hi && lo <= price <= hi
    ensures lo <= EmaStep(ema, price, k) <= hi
  {
    var above := k * (price - lo) + (1.0 - k) * (ema - lo);
    var below := k * (hi - price) + (1.0 - k) * (hi - ema);
    assert EmaStep(ema, price, k) == lo + above;
    assert EmaStep(ema, price, k) == hi - below;
    ProductNonNegative(k, price - lo);
    ProductNonNegative(1.0 - k, ema - lo);
    ProductNonNegative(k, hi - price);
    ProductNonNegative(1.0 - k, hi - ema);
  }

  lemma {:induction false} EmaFoldBounds(seed: real, ps: seq<real>, k: real, lo: real, hi: real)
    requires 0.0 < k <= 1.0 && lo <= seed <= hi
    requires forall j :: 0 <= j < |ps| ==> lo <= ps[j] <= hi
    ensures lo <= EmaFold(seed, ps, k) <= hi
  {
    if ps != [] {
      EmaFoldBounds(seed, ps[..|ps| - 1], k, lo, hi);
      EmaStepBounds(EmaFold(seed, ps[..|ps| - 1], k), ps[|ps| - 1], k, lo, hi);
    }
  }

  /** Once defined, the EMA lies between the smallest and the largest price it averages. */
  lemma SeededEmaBounds(prices: seq<real>, period: nat, lo: real, hi: real)
    requires period > 0 && |prices| >= period
    requires forall j :: 0 <= j < |prices| ==> lo <= prices[j] <= hi
    ensures lo <= SeededEma(prices, period) <= hi
  {
    var head := prices[..period];
    MeanBounds(head, lo, hi);
    EmaFoldBounds(Sum(head) / period as real, prices[period..], Multiplier(period), lo, hi);
  }

  lemma {:induction false} EmaFoldPositive(seed: real, ps: seq<real>, k: real)
    requires 0.0 < k <= 1.0 && seed > 0.0
    requires forall j :: 0 <= j < |ps| ==> ps[j] > 0.0
    ensures EmaFold(seed, ps, k) > 0.0
  {
    if ps != [] {
      var prev := EmaFold(seed, ps[..|ps| - 1], k);
      EmaFoldPositive(seed, ps[..|ps| - 1], k);
      var p := ps[|ps| - 1];
      assert EmaStep(prev, p, k) == k * p + (1.0 - k) * prev;
      ProductNonNegative(1.0 - k, prev);
      assert k * p > 0.0;
    }
  }

  /** Once defined, the EMA of positive prices is positive. */
  lemma SeededEmaPositive(prices: seq<real>, period: nat)
    requires period > 0 && |prices| >= period
    requires forall j :: 0 <= j < |prices| ==> prices[j] > 0.0
    ensures SeededEma(prices, period) > 0.0
  {
    var head := prices[..period];
    SumPositive(head);
    assert Sum(head) / period as real > 0.0;
    EmaFoldPositive(Sum(head) / period as real, prices[period..], Multiplier(period));
  }

  /** A constant price series has that constant as its EMA. */
  lemma SeededEmaOfConstant(prices: seq<real>, period: nat, c: real)
    requires period > 0 && |prices| >= period
    requires forall j :: 0 <= j < |prices| ==> prices[j] == c
    ensures SeededEma(prices, period) == c
  {
    SeededEmaBounds(prices, period, c, c);
  }

  /**
   * calculate_atr: 0 for fewer than two candles; otherwise the mean of the last
   * `period` true ranges, or of all of them when there are fewer. Never negative.
   */
  function RecentAtr(cs: seq<Candle>, period: nat): (r: real)
    requires period > 0
    ensures r >= 0.0
  {
    if |cs| < 2 then 0.0
    else
      var trs := TrueRanges(cs);
      if |trs| < period then
        SumNonNegative(trs);
        NonNegativeQuotient(Sum(trs), |trs| as real);
        Sum(trs) / |trs| as real
      else
        var last := trs[|trs| - period..];
        SumNonNegative(last);
        NonNegativeQuotient(Sum(last), period as real);
        Sum(last) / period as real
  }

  /** For two or more candles the ATR is the mean of the last min(period, n - 1) true ranges. */
  lemma RecentAtrIsTailMean(cs: seq<Candle>, period: nat)
    requires period > 0 && |cs| >= 2
    ensures RecentAtr(cs, period) == Sum(Tail(TrueRanges(cs), period)) / MinNat(period, |cs| - 1) as real
  {
    var trs := TrueRanges(cs);
    assert |trs| == |cs| - 1;
    if |trs| < period {
      assert MinNat(period, |trs|) == |trs|;
      assert Tail(trs, period) == trs;
    } else {
      assert MinNat(period, |trs|) == period;
      assert Tail(trs, period) == trs[|trs| - period..];
    }
  }

  /** The loop of calculate_atr, which appends one true range per candle after the first. */
  method CalculateAtr(cs: seq<Candle>, period: nat) returns (atr: real)
    requires period > 0
    ensures atr == RecentAtr(cs, period)
  {
    if |cs| < 2 {
      return 0.0;
    }
    var trueRanges: seq<real> := [];
    var i := 1;
    while i < |cs|
      invariant 1 <= i <= |cs|
      invariant |trueRanges| == i - 1
      invariant forall k :: 0 <= k < i - 1 ==> trueRanges[k] == TrueRange(cs[k], cs[k + 1])
    {
      var tr := Max(Max(cs[i].high - cs[i].low, Abs(cs[i].high - cs[i - 1].close)),
                    Abs(cs[i].low - cs[i - 1].close));
      trueRanges := trueRanges + [tr];
      i := i + 1;
    }
    assert trueRanges == TrueRanges(cs);
    if |trueRanges| < period {
      atr := Sum(trueRanges) / |trueRanges| as real;
    } else {
      atr := Sum(trueRanges[|trueRanges| - period..]) / period as real;
    }
  }
}
