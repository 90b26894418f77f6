/** A candidate's metrics over its bars. */
module ScreeningLaws {
  import opened Decimals
  import opened MarketData
  import opened Indicators
  import opened IndicatorBounds
  import opened IndicatorLaws
  import opened Oscillators
  import opened StrategySignals
  import opened DailyPickScreening

  /** What a candidate has passed, on its last bar and on the bars of its window. */
  lemma {:induction false} CandidatePassed(sqrt: real -> real, h: seq<Bar>, f: FilterParams)
    requires Qualifies(sqrt, h, f)
    ensures var n, last, m := |h|, h[|h| - 1], MetricsOf(sqrt, h, f);
      && n >= f.windowDays && m.close == last.close >= f.minClosePrice && m.adjClose == last.adjClose
      && last.high != last.low && m.avgTradingValue >= f.minAvgTradingValue
  {
    hide Lit, PlusDI, MinusDI, Adx, Atr, Rsi, MeanOf, AvgVolumeBefore;
  }

  /** The volumes of a candidate's window, the last day's included, add up to the minimum a day asked for. */
  lemma {:induction false} CandidateVolume(sqrt: real -> real, h: seq<Bar>, f: FilterParams, days: nat)
    requires Qualifies(sqrt, h, f) && days >= 1
    requires days == if f.metricsWindowDays < |h| then f.metricsWindowDays else |h|
    ensures Sum(Volumes(h)[|h| - days..]) >= f.minAvgVolume * days as real
  {
    hide Lit, PlusDI, MinusDI, Sum;
    var recent := Volumes(Recent(h, f.metricsWindowDays));
    assert recent == Volumes(h)[|h| - days..];
    var mean := MeanOf(recent);
    assert mean * days as real == Sum(recent);
    ProductMonotone(f.minAvgVolume, mean, days as real);
  }

  /** The trend metrics follow the bars, and the RSI metric the closes. */
  lemma {:induction false} MetricsFollowTrends(sqrt: real -> real, h: seq<Bar>, f: FilterParams)
    requires |h| >= 28 && WellFormedBars(h)
    ensures var m := MetricsOf(sqrt, h, f);
      && (BarsRise(h) ==> m.adx == 100.0 && m.plusDI > 0.0 && m.minusDI == 0.0)
      && (BarsFall(h) ==> m.adx == 100.0 && m.plusDI == 0.0 && m.minusDI > 0.0)
      && (NeverFalls(Closes(h)) ==> m.rsi == 100.0) && (AlwaysFalls(Closes(h)) ==> m.rsi == 0.0)
  {
    hide Lit, PlusDI, MinusDI, Adx, Atr, Rsi, MeanOf, AvgVolumeBefore;
    DirectionalIndices(h, 14);
    if BarsRise(h) || BarsFall(h) {
      AdxOfTrends(h, 14);
    }
    RsiOfTrends(Closes(h), 14);
  }

  /** The volatility metric times the close lies between any bounds of the true ranges. */
  lemma {:induction false} VolatilityOverBars(sqrt: real -> real, h: seq<Bar>, f: FilterParams, lo: real, hi: real)
    requires |h| >= 28 && h[|h| - 1].close > 0.0
    requires forall i | 1 <= i < |h| :: lo <= TrueRange(h[i].high, h[i].low, h[i - 1].close) <= hi
    ensures lo <= MetricsOf(sqrt, h, f).atrRatio * h[|h| - 1].close <= hi
  {
    hide *;
    AtrOverBars(h, lo, hi);
    RatioTimesClose(sqrt, h, f);
  }

  lemma {:induction false} AtrOverBars(h: seq<Bar>, lo: real, hi: real)
    requires |h| >= 28 && forall i | 1 <= i < |h| :: lo <= TrueRange(h[i].high, h[i].low, h[i - 1].close) <= hi
    ensures lo <= Atr(h, 14) <= hi
  {
    hide TrueRange, Atr;
    AtrBounds(h, 14, lo, hi);
  }

  lemma {:induction false} RatioTimesClose(sqrt: real -> real, h: seq<Bar>, f: FilterParams)
    requires |h| >= 28 && h[|h| - 1].close > 0.0
    ensures MetricsOf(sqrt, h, f).atrRatio * h[|h| - 1].close == Atr(h, 14)
  {
    hide Lit, PlusDI, MinusDI, Adx, Rsi, MeanOf, AvgVolumeBefore, Atr;
    var close := h[|h| - 1].close;
    assert Atr(h, 14) / close * close == Atr(h, 14);
  }

  /** The volume metric compares the last day's volume with the days before, not with itself: over days of one volume it
      is the quotient. */
  lemma {:induction false} VolumeOverBars(sqrt: real -> real, h: seq<Bar>, f: FilterParams, volume: int)
    requires |h| >= 28 && f.metricsWindowDays >= 1 && volume > 0
    requires forall i | |h| - 1 - f.metricsWindowDays <= i < |h| - 1 && i >= 0 :: h[i].volume == volume
    ensures MetricsOf(sqrt, h, f).volumeRatio == h[|h| - 1].volume as real / volume as real
  {
    hide Lit, PlusDI, MinusDI, Adx, Atr, Rsi, MeanOf, AvgVolumeBefore;
    ConstantVolume(h, f.metricsWindowDays, volume);
  }

  lemma {:induction false} ConstantVolume(h: seq<Bar>, window: nat, volume: int)
    requires |h| >= 2 && window >= 1
    requires forall i | |h| - 1 - window <= i < |h| - 1 && i >= 0 :: h[i].volume == volume
    ensures AvgVolumeBefore(h, window) == volume as real
  {
    hide Sum;
    var i := |h| - 1;
    var start := LookbackStart(i, window);
    var before := Volumes(h)[start..i];
    SumAtLeast(before, volume as real);
    SumAtMost(before, volume as real);
    QuotientIs(Sum(before), (i - start) as real, volume as real);
  }

  /** The liquidity metric lies between any bounds of the daily trading values of the window, the last day included. */
  lemma {:induction false} LiquidityOverBars(sqrt: real -> real, h: seq<Bar>, f: FilterParams, lo: real, hi: real)
    requires |h| >= 28 && f.metricsWindowDays >= 1
    requires forall i | |h| - f.metricsWindowDays <= i < |h| && i >= 0 :: lo <= h[i].volume as real * h[i].close <= hi
    ensures lo <= MetricsOf(sqrt, h, f).avgTradingValue <= hi
  {
    hide Lit, PlusDI, MinusDI, Adx, Atr, Rsi, AvgVolumeBefore, Sum;
    var recent := Recent(h, f.metricsWindowDays);
    var values := TradingValues(recent);
    forall i | 0 <= i < |values| ensures lo <= values[i] <= hi {
      assert recent[i] == h[|h| - |recent| + i];
    }
    SumAtLeast(values, lo);
    SumAtMost(values, hi);
    QuotientAtLeast(Sum(values), lo, |values| as real);
    QuotientAtMost(Sum(values), hi, |values| as real);
  }
}
