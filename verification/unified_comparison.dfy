/**
 * The standardized comparison of compare_strategies_unified.py: per symbol, a fixed intraday
 * estimate that does not look at the data, and a swing figure from a flat/long toggle on each
 * daily close against the 20-period EMA of the twenty closes before it, less delivery costs.
 */
module UnifiedComparison {
  import opened Candles
  import opened SwingIndicators

  const CAPITAL: real := 500000.0
  const EMA_PERIOD: nat := 20
  /** The monthly intraday return the estimate assumes, -0.5%. */
  const INTRADAY_MONTHLY_RETURN: real := -0.005
  /** The share of the swing P&L deducted as delivery costs. */
  const DELIVERY_COST: real := 0.002

  /**
   * Python's `s[-days_back:]`: the last `daysBack` elements, except that `s[-0:]` is the
   * whole list.
   */
  function LastDays<T>(s: seq<T>, daysBack: nat): (r: seq<T>)
    ensures daysBack == 0 ==> r == s
    ensures daysBack > 0 ==> r == Tail(s, daysBack)
  {
    if daysBack == 0 then s else Tail(s, daysBack)
  }

  /**
   * `intraday_pnl = -0.005 * CAPITAL * (days_back / 20)`: a loss of 125 per trading day,
   * whatever the data.
   */
  function IntradayEstimate(daysBack: nat): (r: real)
    ensures r == -125.0 * daysBack as real
    ensures r <= 0.0
  {
    INTRADAY_MONTHLY_RETURN * CAPITAL * (daysBack as real / 20.0)
  }

  /** `swing_pnl - (swing_pnl * 0.002)`: the swing P&L with 0.2% taken off its magnitude. */
  function ReportedSwing(swingPnl: real): (r: real)
    ensures r == 0.998 * swingPnl
    ensures swingPnl >= 0.0 ==> 0.0 <= r <= swingPnl
    ensures swingPnl <= 0.0 ==> swingPnl <= r <= 0.0
  {
    swingPnl - (swingPnl * DELIVERY_COST)
  }

  // ---------------------------------------------------------------------------------------
  // The swing toggle
  // ---------------------------------------------------------------------------------------

  /** The EMA the toggle compares candle i with: over the twenty closes BEFORE it. */
  function PriorEma(cs: seq<Candle>, i: nat): real
    requires EMA_PERIOD <= i <= |cs|
  {
    FirstSeededEma(Closes(cs[i - EMA_PERIOD..i]), EMA_PERIOD)
  }

  /** The EMA at candle i reads only the candles before i: no lookahead. */
  lemma PriorEmaIsPast(cs: seq<Candle>, ds: seq<Candle>, i: nat)
    requires EMA_PERIOD <= i <= |cs| && i <= |ds| && cs[..i] == ds[..i]
    ensures PriorEma(cs, i) == PriorEma(ds, i)
  {
    assert cs[i - EMA_PERIOD..i] == cs[..i][i - EMA_PERIOD..];
    assert ds[i - EMA_PERIOD..i] == ds[..i][i - EMA_PERIOD..];
  }

  /** What the toggle reads at one candle: its close and the prior EMA. */
  datatype Point = Point(close: real, ema: real)

  /** The points of candles 20 up to the last, the ones `range(20, len(candles_d))` visits. */
  function Points(cs: seq<Candle>): (ps: seq<Point>)
    ensures |ps| == if |cs| < EMA_PERIOD then 0 else |cs| - EMA_PERIOD
  {
    if |cs| < EMA_PERIOD then []
    else seq(|cs| - EMA_PERIOD, k requires 0 <= k < |cs| - EMA_PERIOD => Point(cs[k + EMA_PERIOD].close, PriorEma(cs, k + EMA_PERIOD)))
  }

  lemma PointsAt(cs: seq<Candle>, k: nat)
    requires k + EMA_PERIOD < |cs|
    ensures Points(cs)[k] == Point(cs[k + EMA_PERIOD].close, PriorEma(cs, k + EMA_PERIOD))
  {
  }

  /** The toggle's variables: `in_pos`, `tp_price` (the last entry close) and `swing_pnl`. */
  datatype Toggle = Toggle(inPos: bool, tpPrice: real, swingPnl: real)

  /** While long, the entry close is positive, so `CAPITAL / tp_price` is defined. */
  predicate Priced(t: Toggle)
  {
    t.inPos ==> t.tpPrice > 0.0
  }

  /**
   * One candle of the toggle: go long at the close when flat and the close is above the EMA;
   * when long and the close is below the EMA, book `(close - tp_price) * (CAPITAL / tp_price)`
   * and go flat; otherwise nothing changes.
   */
  function ToggleStep(t: Toggle, p: Point): Toggle
    requires Priced(t)
  {
    if !t.inPos && p.close > p.ema then Toggle(true, p.close, t.swingPnl)
    else if t.inPos && p.close < p.ema then Toggle(false, t.tpPrice, t.swingPnl + (p.close - t.tpPrice) * (CAPITAL / t.tpPrice))
    else t
  }

  /** Every close is positive, as prices are. */
  predicate PositiveCloses(ps: seq<Point>)
  {
    forall k :: 0 <= k < |ps| ==> ps[k].close > 0.0
  }

  lemma PositivePrefix(ps: seq<Point>, n: nat)
    requires PositiveCloses(ps) && n <= |ps|
    ensures PositiveCloses(ps[..n])
  {
  }

  /** The toggle after the points of `ps` in order, starting flat with no P&L. */
  function RunToggle(ps: seq<Point>): (t: Toggle)
    requires PositiveCloses(ps)
    ensures Priced(t)
  {
    if ps == [] then Toggle(false, 0.0, 0.0)
    else
      var prev := RunToggle(ps[..|ps| - 1]);
      ToggleStep(prev, ps[|ps| - 1])
  }

  /**
   * What one candle does: the position flips exactly when a flat toggle sees a close above
   * the EMA (an entry at that close) or a long one a close below it (an exit); the P&L moves
   * only on an exit, by the move since the entry close on CAPITAL's worth of shares.
   */
  lemma ToggleStepCases(t: Toggle, p: Point)
    requires Priced(t)
    ensures var r := ToggleStep(t, p);
      (r.inPos && !t.inPos <==> !t.inPos && p.close > p.ema) &&
      (!r.inPos && t.inPos <==> t.inPos && p.close < p.ema) &&
      (r.inPos && !t.inPos ==> r.tpPrice == p.close && r.swingPnl == t.swingPnl) &&
      (!r.inPos && t.inPos ==> r.swingPnl == t.swingPnl + (p.close - t.tpPrice) * CAPITAL / t.tpPrice) &&
      (r.inPos == t.inPos ==> r == t)
  {
  }

  /** The number of entries and of exits the toggle makes over `ps`. */
  function Entries(ps: seq<Point>): (n: nat)
    requires PositiveCloses(ps)
  {
    if ps == [] then 0
    else
      var prev := RunToggle(ps[..|ps| - 1]);
      Entries(ps[..|ps| - 1]) + (if !prev.inPos && ToggleStep(prev, ps[|ps| - 1]).inPos then 1 else 0)
  }

  function Exits(ps: seq<Point>): (n: nat)
    requires PositiveCloses(ps)
  {
    if ps == [] then 0
    else
      var prev := RunToggle(ps[..|ps| - 1]);
      Exits(ps[..|ps| - 1]) + (if prev.inPos && !ToggleStep(prev, ps[|ps| - 1]).inPos then 1 else 0)
  }

  /** An exit loses less than the CAPITAL it notionally holds: the close stays positive. */
  lemma ExitLossBelowCapital(tpPrice: real, close: real)
    requires tpPrice > 0.0 && close > 0.0
    ensures (close - tpPrice) * (CAPITAL / tpPrice) > -CAPITAL
  {
    var q := CAPITAL / tpPrice;
    assert q * tpPrice == CAPITAL;
    assert close * q > 0.0;
  }

  /** Entries and exits alternate strictly: the entries are the exits plus one while long. */
  lemma {:induction false} ToggleAlternates(ps: seq<Point>)
    requires PositiveCloses(ps)
    ensures Entries(ps) == Exits(ps) + (if RunToggle(ps).inPos then 1 else 0)
  {
    if ps != [] {
      ToggleAlternates(ps[..|ps| - 1]);
    }
  }

  /** The P&L is zero until the first exit, and each exit loses less than CAPITAL. */
  lemma {:induction false} ToggleLossBound(ps: seq<Point>)
    requires PositiveCloses(ps)
    ensures Exits(ps) == 0 ==> RunToggle(ps).swingPnl == 0.0
    ensures RunToggle(ps).swingPnl >= -CAPITAL * Exits(ps) as real
  {
    if ps != [] {
      var prev := ps[..|ps| - 1];
      var p := ps[|ps| - 1];
      ToggleLossBound(prev);
      var t := RunToggle(prev);
      if t.inPos && p.close < p.ema {
        ExitLossBelowCapital(t.tpPrice, p.close);
        assert Exits(ps) == Exits(prev) + 1;
      } else {
        assert RunToggle(ps).swingPnl == t.swingPnl;
      }
    }
  }

  /** With positive daily closes, every point's close is positive. */
  lemma PointsPositive(cs: seq<Candle>)
    requires forall k :: 0 <= k < |cs| ==> cs[k].close > 0.0
    ensures PositiveCloses(Points(cs))
  {
    forall k | 0 <= k < |Points(cs)|
      ensures Points(cs)[k].close > 0.0
    {
      PointsAt(cs, k);
    }
  }

  /** The last days of a positively priced list are positively priced. */
  lemma LastDaysPositive(cs: seq<Candle>, daysBack: nat)
    requires forall k :: 0 <= k < |cs| ==> cs[k].close > 0.0
    ensures var ds := LastDays(cs, daysBack); forall k :: 0 <= k < |ds| ==> ds[k].close > 0.0
  {
    var ds := LastDays(cs, daysBack);
    assert ds == cs[|cs| - |ds|..];
    forall k | 0 <= k < |ds|
      ensures ds[k].close > 0.0
    {
      assert ds[k] == cs[|cs| - |ds| + k];
    }
  }

  /**
   * The toggle loop of run_standardized_test over one symbol's daily candles: for each candle
   * from the twentieth on, the EMA of the twenty closes before it, then the toggle.
   */
  method SwingToggle(cs: seq<Candle>) returns (swingPnl: real)
    requires forall k :: 0 <= k < |cs| ==> cs[k].close > 0.0
    ensures PositiveCloses(Points(cs))
    ensures swingPnl == RunToggle(Points(cs)).swingPnl
  {
    ghost var ps := Points(cs);
    PointsPositive(cs);
    swingPnl := 0.0;
    var inPos := false;
    var tpPrice := 0.0;
    var i := EMA_PERIOD;
    while i < |cs|
      invariant |cs| < EMA_PERIOD ==> i == EMA_PERIOD && !inPos && swingPnl == 0.0
      invariant |cs| >= EMA_PERIOD ==> EMA_PERIOD <= i <= |cs|
      invariant |cs| >= EMA_PERIOD ==>
        PositiveCloses(ps[..i - EMA_PERIOD]) && Toggle(inPos, tpPrice, swingPnl) == RunToggle(ps[..i - EMA_PERIOD])
    {
      RunToggleSnoc(ps, i - EMA_PERIOD);
      inPos, tpPrice, swingPnl := ToggleCandle(cs, i, inPos, tpPrice, swingPnl);
      i := i + 1;
    }
    if |cs| >= EMA_PERIOD {
      assert ps[..|cs| - EMA_PERIOD] == ps;
    }
  }

  /** Toggling the prefix one point longer is one more step. */
  lemma RunToggleSnoc(ps: seq<Point>, n: nat)
    requires PositiveCloses(ps) && n < |ps|
    ensures PositiveCloses(ps[..n]) && PositiveCloses(ps[..n + 1])
    ensures RunToggle(ps[..n + 1]) == ToggleStep(RunToggle(ps[..n]), ps[n])
  {
    PositivePrefix(ps, n);
    PositivePrefix(ps, n + 1);
    assert ps[..n + 1][..n] == ps[..n];
  }

  /** `calculate_ema` over the twenty closes before candle i. */
  method EmaBefore(cs: seq<Candle>, i: nat) returns (ema: real)
    requires EMA_PERIOD <= i <= |cs|
    ensures ema == PriorEma(cs, i)
  {
    var closes := Closes(cs[i - EMA_PERIOD..i]);
    ema := CalculateEma(closes, EMA_PERIOD);
  }

  /** The body of the candle loop: the prior EMA, then the entry or exit decision. */
  method ToggleCandle(cs: seq<Candle>, i: nat, inPos: bool, tpPrice: real, swingPnl: real)
    returns (inPos': bool, tpPrice': real, swingPnl': real)
    requires EMA_PERIOD <= i < |cs| && Priced(Toggle(inPos, tpPrice, swingPnl))
    ensures Toggle(inPos', tpPrice', swingPnl') == ToggleStep(Toggle(inPos, tpPrice, swingPnl), Points(cs)[i - EMA_PERIOD])
  {
    var c := cs[i];
    var ema20 := EmaBefore(cs, i);
    PointsAt(cs, i - EMA_PERIOD);
    inPos', tpPrice', swingPnl' := ToggleOn(inPos, tpPrice, swingPnl, c.close, ema20);
  }

  /** The entry or exit decision on one close against its EMA. */
  method ToggleOn(inPos: bool, tpPrice: real, swingPnl: real, close: real, ema20: real)
    returns (inPos': bool, tpPrice': real, swingPnl': real)
    requires Priced(Toggle(inPos, tpPrice, swingPnl))
    ensures Toggle(inPos', tpPrice', swingPnl') == ToggleStep(Toggle(inPos, tpPrice, swingPnl), Point(close, ema20))
  {
    inPos', tpPrice', swingPnl' := inPos, tpPrice, swingPnl;
    if !inPos && close > ema20 {
      inPos' := true;
      tpPrice' := close;
    } else if inPos && close < ema20 {
      swingPnl' := swingPnl + (close - tpPrice) * (CAPITAL / tpPrice);
      inPos' := false;
    }
  }

  // ---------------------------------------------------------------------------------------
  // The comparison over the test symbols
  // ---------------------------------------------------------------------------------------

  /** One row of `comparisons`. */
  datatype Comparison = Comparison(intraday: real, swing: real)

  /** The row of one symbol, from its daily candles as loaded. */
  function CompareSymbol(daily: seq<Candle>, daysBack: nat): Comparison
    requires forall k :: 0 <= k < |daily| ==> daily[k].close > 0.0
  {
    var cs := LastDays(daily, daysBack);
    LastDaysPositive(daily, daysBack);
    PointsPositive(cs);
    Comparison(IntradayEstimate(daysBack), ReportedSwing(RunToggle(Points(cs)).swingPnl))
  }

  function SumIntraday(rows: seq<Comparison>): real
  {
    if rows == [] then 0.0 else SumIntraday(rows[..|rows| - 1]) + rows[|rows| - 1].intraday
  }

  function SumSwing(rows: seq<Comparison>): real
  {
    if rows == [] then 0.0 else SumSwing(rows[..|rows| - 1]) + rows[|rows| - 1].swing
  }

  /** The body of the per-symbol loop: the estimate, the toggle and the delivery cost. */
  method CompareOne(daily: seq<Candle>, daysBack: nat) returns (c: Comparison)
    requires forall k :: 0 <= k < |daily| ==> daily[k].close > 0.0
    ensures c == CompareSymbol(daily, daysBack)
  {
    var cs := LastDays(daily, daysBack);
    LastDaysPositive(daily, daysBack);
    var swingPnl := SwingToggle(cs);
    c := Comparison(IntradayEstimate(daysBack), swingPnl - (swingPnl * DELIVERY_COST));
  }

  /** `total_i` and `total_s`: the sums of the two columns. */
  method Totals(rows: seq<Comparison>) returns (totalIntraday: real, totalSwing: real)
    ensures totalIntraday == SumIntraday(rows) && totalSwing == SumSwing(rows)
  {
    totalIntraday := 0.0;
    totalSwing := 0.0;
    var r := 0;
    while r < |rows|
      invariant 0 <= r <= |rows|
      invariant totalIntraday == SumIntraday(rows[..r]) && totalSwing == SumSwing(rows[..r])
    {
      assert rows[..r + 1][..r] == rows[..r];
      totalIntraday := totalIntraday + rows[r].intraday;
      totalSwing := totalSwing + rows[r].swing;
      r := r + 1;
    }
    assert rows[..r] == rows;
  }

  /** Every symbol's daily closes are positive. */
  predicate PricedSymbols(symbols: seq<seq<Candle>>)
  {
    forall s, k :: 0 <= s < |symbols| && 0 <= k < |symbols[s]| ==> symbols[s][k].close > 0.0
  }

  /**
   * run_standardized_test on the daily candles of the test symbols, in order (file reads,
   * the 15-minute day keys it loads but never uses, and printing are left out): one row per
   * symbol, and the totals as the sums of the rows.
   */
  method RunStandardizedTest(symbols: seq<seq<Candle>>, daysBack: nat)
    returns (rows: seq<Comparison>, totalIntraday: real, totalSwing: real)
    requires PricedSymbols(symbols)
    ensures |rows| == |symbols|
    ensures forall s :: 0 <= s < |symbols| ==> rows[s] == CompareSymbol(symbols[s], daysBack)
    ensures totalIntraday == SumIntraday(rows) && totalSwing == SumSwing(rows)
  {
    rows := [];
    var j := 0;
    while j < |symbols|
      invariant 0 <= j <= |symbols|
      invariant |rows| == j
      invariant forall s :: 0 <= s < j ==> rows[s] == CompareSymbol(symbols[s], daysBack)
    {
      var c := CompareOne(symbols[j], daysBack);
      rows := rows + [c];
      j := j + 1;
    }
    totalIntraday, totalSwing := Totals(rows);
  }

  /** The intraday total is the same estimate once per symbol: it never depends on the data. */
  lemma {:induction false} IntradayTotalIgnoresData(rows: seq<Comparison>, daysBack: nat)
    requires forall s :: 0 <= s < |rows| ==> rows[s].intraday == IntradayEstimate(daysBack)
    ensures SumIntraday(rows) == |rows| as real * IntradayEstimate(daysBack)
  {
    if rows != [] {
      IntradayTotalIgnoresData(rows[..|rows| - 1], daysBack);
    }
  }
}
