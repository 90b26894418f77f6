/** Screening of one stock: the filters it must pass and the factors it is scored on. */
module DailyPickScreening {
  import opened Decimals
  import opened MarketData
  import opened Indicators
  import opened Oscillators
  import opened Strategies
  import opened StrategySignals
  import opened ScoreCurves
  import IndicatorBounds

  datatype FilterParams = FilterParams(windowDays: nat, metricsWindowDays: nat, minClosePrice: real,
                                       minAvgTradingValue: real, minAvgVolume: real)

  /** The strategies counted as signals; the combined strategy is derived from them and not counted again. */
  const BASE_STRATEGIES := [MACDBullish, BollingerBreakout, TriangleFormation, MovingAverageCross]

  datatype Evaluation = Evaluation(metrics: Metrics, score: real, strategies: seq<Strategy>)

  function Recent(h: seq<Bar>, window: nat): seq<Bar> {
    h[LookbackStart(|h|, window)..]
  }

  function TradingValues(bars: seq<Bar>): (vs: seq<real>)
    ensures |vs| == |bars|
  {
    seq(|bars|, i requires 0 <= i < |bars| => bars[i].volume as real * bars[i].close)
  }

  method WindowAvg(xs: seq<real>) returns (avg: real)
    ensures avg == MeanOf(xs)
  {
    if |xs| == 0 {
      return 0.0;
    }
    var sum := SumBetween(xs, 0, |xs|);
    assert xs[0..|xs|] == xs;
    avg := sum / |xs| as real;
  }

  /** Affordable, with a range to trade in, and liquid enough. */
  ghost predicate PassesHardFilters(h: seq<Bar>, f: FilterParams)
    requires |h| > 0
  {
    var last, recent := h[|h| - 1], Recent(h, f.metricsWindowDays);
    && last.close >= f.minClosePrice && last.high != last.low
    && MeanOf(TradingValues(recent)) >= f.minAvgTradingValue && MeanOf(Volumes(recent)) >= f.minAvgVolume
  }

  /** The strategies of a list whose entry signal is lit on the last day. */
  ghost function Lit(sqrt: real -> real, strategies: seq<Strategy>, h: seq<Bar>): (lit: seq<Strategy>)
    ensures |lit| <= |strategies|
  {
    if strategies == [] then []
    else
      var n := |strategies| - 1;
      Lit(sqrt, strategies[..n], h) + if EntrySignal(sqrt, strategies[n], h) then [strategies[n]] else []
  }

  /** A candidate has enough history, passes the filters, trends upwards and has a signal today. */
  ghost predicate Qualifies(sqrt: real -> real, h: seq<Bar>, f: FilterParams) {
    && |h| >= f.windowDays && |h| >= 28
    && PassesHardFilters(h, f)
    && PlusDI(h, 14) > MinusDI(h, 14)
    && Lit(sqrt, BASE_STRATEGIES, h) != []
  }

  ghost function MetricsOf(sqrt: real -> real, h: seq<Bar>, f: FilterParams): Metrics
    requires |h| >= 28
  {
    var last, baseline := h[|h| - 1], AvgVolumeBefore(h, f.metricsWindowDays);
    Metrics(
      |Lit(sqrt, BASE_STRATEGIES, h)|,
      if baseline == 0.0 then 0.0 else last.volume as real / baseline,
      MeanOf(TradingValues(Recent(h, f.metricsWindowDays))),
      Adx(h, 14), PlusDI(h, 14), MinusDI(h, 14),
      if last.close == 0.0 then 0.0 else Atr(h, 14) / last.close,
      Rsi(Closes(h), 14), last.close, last.adjClose)
  }

  method CheckHardFilters(prices: seq<Bar>, f: FilterParams) returns (ok: bool)
    requires |prices| > 0
    ensures ok == PassesHardFilters(prices, f)
  {
    hide MeanOf;
    var last := prices[|prices| - 1];
    if last.close < f.minClosePrice || last.high == last.low {
      return false;
    }
    var recent := prices[LookbackStart(|prices|, f.metricsWindowDays)..];
    var value := WindowAvg(TradingValues(recent));
    if value < f.minAvgTradingValue {
      return false;
    }
    var volume := WindowAvg(Volumes(recent));
    ok := volume >= f.minAvgVolume;
  }

  method DetectStrategies(sqrt: real -> real, prices: seq<Bar>) returns (strategies: seq<Strategy>)
    requires |prices| > 0
    ensures strategies == Lit(sqrt, BASE_STRATEGIES, prices)
  {
    hide EntrySignal;
    strategies := [];
    var k, n := 0, |prices|;
    while k < |BASE_STRATEGIES|
      invariant 0 <= k <= |BASE_STRATEGIES| && strategies == Lit(sqrt, BASE_STRATEGIES[..k], prices)
    {
      var s := BASE_STRATEGIES[k];
      var signals := EntrySignalsByStrategy(sqrt, s, prices);
      assert prices[..n - 1 + 1] == prices && BASE_STRATEGIES[..k + 1][..k] == BASE_STRATEGIES[..k];
      if signals[n - 1] {
        strategies := strategies + [s];
      }
      k := k + 1;
    }
    assert BASE_STRATEGIES[..k] == BASE_STRATEGIES;
  }

  method EvaluateDailyPickCandidate(sqrt: real -> real, prices: seq<Bar>, f: FilterParams, w: Weights)
    returns (candidate: Option<Evaluation>)
    requires f.windowDays >= 1 || |prices| > 0
    ensures candidate.Some? <==> Qualifies(sqrt, prices, f)
    ensures candidate.Some? ==> candidate.value.metrics == MetricsOf(sqrt, prices, f)
    ensures candidate.Some? ==> candidate.value.score == ScoreDailyPick(MetricsOf(sqrt, prices, f), w)
    ensures candidate.Some? ==> candidate.value.strategies == Lit(sqrt, BASE_STRATEGIES, prices)
  {
    hide PassesHardFilters, Lit, Adx, PlusDI, MinusDI, Atr, Rsi, ScoreDailyPick, AvgVolumeBefore, MeanOf;
    var n := |prices|;
    if n < f.windowDays {
      return None;
    }
    var ok := CheckHardFilters(prices, f);
    if !ok {
      return None;
    }
    assert prices[..n - 1 + 1] == prices && Closes(prices)[..n - 1 + 1] == Closes(prices);
    var adx := CalculateADX(prices, 14);
    if adx.None? || adx.value[n - 1].plusDI <= adx.value[n - 1].minusDI {
      return None;
    }
    var rsi := CalculateRSI(Closes(prices), 14);
    var atr := CalculateATR(prices, 14);
    if rsi.None? || atr.None? {
      return None;
    }
    var last := prices[n - 1];
    var atrRatio := if last.close == 0.0 then 0.0 else atr.value[n - 1] / last.close;
    var strategies := DetectStrategies(sqrt, prices);
    if |strategies| == 0 {
      return None;
    }
    var value := WindowAvg(TradingValues(prices[LookbackStart(n, f.metricsWindowDays)..]));
    var baseline := AvgVolume(prices, n - 1, f.metricsWindowDays);
    var volumeRatio := if baseline == 0.0 then 0.0 else last.volume as real / baseline;
    var trend := adx.value[n - 1];
    var metrics := Metrics(|strategies|, volumeRatio, value, trend.adx, trend.plusDI, trend.minusDI, atrRatio,
      rsi.value[n - 1], last.close, last.adjClose);
    candidate := Some(Evaluation(metrics, ScoreDailyPick(metrics, w), strategies));
  }

  /** What a reader of the published figures may rely on. */
  lemma {:induction false} CandidateBounds(sqrt: real -> real, h: seq<Bar>, f: FilterParams)
    requires WellFormedBars(h) && f.windowDays >= 1 && Qualifies(sqrt, h, f)
    ensures var m := MetricsOf(sqrt, h, f);
      && 1 <= m.signalCount <= 4 && 0.0 <= m.minusDI < m.plusDI && m.plusDI + m.minusDI <= 100.0
      && m.avgTradingValue >= f.minAvgTradingValue
  {
    hide Adx, PlusDI, MinusDI, Atr, Rsi, AvgVolumeBefore, MeanOf, Lit;
    IndicatorBounds.DirectionalIndexBounds(h, 14);
  }
}
