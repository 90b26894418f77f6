/** What each factor contributes to a score on its own: the marks documented for the six curves. */
module ScoreMarks {
  import opened Decimals
  import opened ScoreCurves

  function Sum6(v: Weights, w: Weights): Weights {
    Weights(v.signal + w.signal, v.volume + w.volume, v.trend + w.trend, v.volatility + w.volatility,
      v.liquidity + w.liquidity, v.overheat + w.overheat)
  }

  /** The unrounded score adds up over the weights, so it is the sum of what the factors contribute one by one. */
  lemma {:induction false} ScoreIsLinear(m: Metrics, v: Weights, w: Weights)
    ensures RawScore(m, Sum6(v, w)) == RawScore(m, v) + RawScore(m, w)
  {
    hide NormalizeByBreakpoints;
    FactorAdds(v.signal, w.signal, m.signalCount as real, SIGNAL_CURVE);
    FactorAdds(v.volume, w.volume, m.volumeRatio, VOLUME_CURVE);
    FactorAdds(v.trend, w.trend, m.adx, ADX_CURVE);
    FactorAdds(v.volatility, w.volatility, m.atrRatio, ATR_RATIO_CURVE);
    FactorAdds(v.liquidity, w.liquidity, m.avgTradingValue, LIQUIDITY_CURVE);
    FactorAdds(v.overheat, w.overheat, m.rsi, RSI_CURVE);
  }

  lemma {:induction false} FactorAdds(a: real, b: real, v: real, curve: seq<Breakpoint>)
    ensures Factor(a + b, v, curve) == Factor(a, v, curve) + Factor(b, v, curve)
  {
    hide NormalizeByBreakpoints;
    var y := NormalizeByBreakpoints(v, curve);
    assert (a + b) * y == a * y + b * y;
  }

  lemma {:induction false} NoWeight(v: real, curve: seq<Breakpoint>)
    ensures Factor(0.0, v, curve) == 0.0
  {
    hide NormalizeByBreakpoints;
  }

  lemma {:induction false} OneFactor(m: Metrics, w: real)
    ensures RawScore(m, Weights(w, 0.0, 0.0, 0.0, 0.0, 0.0)) == Factor(w, m.signalCount as real, SIGNAL_CURVE)
    ensures RawScore(m, Weights(0.0, w, 0.0, 0.0, 0.0, 0.0)) == Factor(w, m.volumeRatio, VOLUME_CURVE)
    ensures RawScore(m, Weights(0.0, 0.0, w, 0.0, 0.0, 0.0)) == Factor(w, m.adx, ADX_CURVE)
    ensures RawScore(m, Weights(0.0, 0.0, 0.0, w, 0.0, 0.0)) == Factor(w, m.atrRatio, ATR_RATIO_CURVE)
    ensures RawScore(m, Weights(0.0, 0.0, 0.0, 0.0, w, 0.0)) == Factor(w, m.avgTradingValue, LIQUIDITY_CURVE)
    ensures RawScore(m, Weights(0.0, 0.0, 0.0, 0.0, 0.0, w)) == Factor(w, m.rsi, RSI_CURVE)
  {
    hide Factor;
    NoWeight(m.signalCount as real, SIGNAL_CURVE);
    NoWeight(m.volumeRatio, VOLUME_CURVE);
    NoWeight(m.adx, ADX_CURVE);
    NoWeight(m.atrRatio, ATR_RATIO_CURVE);
    NoWeight(m.avgTradingValue, LIQUIDITY_CURVE);
    NoWeight(m.rsi, RSI_CURVE);
  }

  lemma {:induction false} FactorIs(weight: real, v: real, curve: seq<Breakpoint>, y: real)
    requires NormalizeByBreakpoints(v, curve) == y
    ensures Factor(weight, v, curve) == weight * y
  {
  }

  lemma {:induction false} Level(v: real, curve: seq<Breakpoint>, i: nat)
    requires Ascending(curve) && i + 1 < |curve| && curve[i].x <= v <= curve[i + 1].x && curve[i].y == curve[i + 1].y
    ensures NormalizeByBreakpoints(v, curve) == curve[i].y
  {
    CurveIsSegment(v, curve, i);
    SegmentBounds(v, curve[i], curve[i + 1]);
  }

  /** One signal earns 30 percent of the signal weight, two earn 65, and three or more all of it. */
  lemma {:induction false} SignalMarks(m: Metrics, w: real)
    ensures var score := RawScore(m, Weights(w, 0.0, 0.0, 0.0, 0.0, 0.0));
      && (m.signalCount == 1 ==> score == w * 0.30) && (m.signalCount == 2 ==> score == w * 0.65)
      && (m.signalCount >= 3 ==> score == w * 1.0)
  {
    OneFactor(m, w);
    PassesThroughBreakpoints(SIGNAL_CURVE, 1);
    PassesThroughBreakpoints(SIGNAL_CURVE, 2);
  }

  /** Average volume earns nothing, one and a half times the average 40 percent, twice 70, three times or more all. */
  lemma {:induction false} VolumeMarks(m: Metrics, w: real)
    ensures var score := RawScore(m, Weights(0.0, w, 0.0, 0.0, 0.0, 0.0));
      && (m.volumeRatio <= 1.0 ==> score == 0.0) && (m.volumeRatio == 1.5 ==> score == w * 0.40)
      && (m.volumeRatio == 2.0 ==> score == w * 0.70) && (m.volumeRatio >= 3.0 ==> score == w * 1.0)
  {
    OneFactor(m, w);
    PassesThroughBreakpoints(VOLUME_CURVE, 1);
    PassesThroughBreakpoints(VOLUME_CURVE, 2);
  }

  /** A trend strength of 15 or less earns nothing, 20 earns 35 percent, 30 earns 80, and 40 or more all. */
  lemma {:induction false} TrendMarks(m: Metrics, w: real)
    ensures var score := RawScore(m, Weights(0.0, 0.0, w, 0.0, 0.0, 0.0));
      && (m.adx <= 15.0 ==> score == 0.0) && (m.adx == 20.0 ==> score == w * 0.35)
      && (m.adx == 30.0 ==> score == w * 0.80) && (m.adx >= 40.0 ==> score == w * 1.0)
  {
    OneFactor(m, w);
    PassesThroughBreakpoints(ADX_CURVE, 1);
    PassesThroughBreakpoints(ADX_CURVE, 2);
  }

  /** A daily range of 2 to 5 percent of the price earns all, one of at most 1 or at least 10 percent nothing. */
  lemma {:induction false} VolatilityMarks(m: Metrics, w: real)
    ensures var score := RawScore(m, Weights(0.0, 0.0, 0.0, w, 0.0, 0.0));
      && (m.atrRatio <= 0.010 || m.atrRatio >= 0.100 ==> score == 0.0)
      && (0.020 <= m.atrRatio <= 0.050 ==> score == w * 1.0)
  {
    OneFactor(m, w);
    if 0.020 <= m.atrRatio <= 0.050 {
      Level(m.atrRatio, ATR_RATIO_CURVE, 1);
    }
  }

  /** A trading value of 100 million or less earns nothing, 300 million 40 percent, a billion 75, five or more all. */
  lemma {:induction false} LiquidityMarks(m: Metrics, w: real)
    ensures var score := RawScore(m, Weights(0.0, 0.0, 0.0, 0.0, w, 0.0));
      && (m.avgTradingValue <= 100000000.0 ==> score == 0.0) && (m.avgTradingValue == 300000000.0 ==> score == w * 0.40)
      && (m.avgTradingValue == 1000000000.0 ==> score == w * 0.75)
      && (m.avgTradingValue >= 5000000000.0 ==> score == w * 1.0)
  {
    OneFactor(m, w);
    PassesThroughBreakpoints(LIQUIDITY_CURVE, 1);
    PassesThroughBreakpoints(LIQUIDITY_CURVE, 2);
  }

  /** An RSI of 60 earns all; 30 or less earns 40 percent, 45 earns 90, 70 earns 50, 80 earns 10, and 90 or more
      nothing. */
  lemma {:induction false} OverheatMarks(m: Metrics, w: real)
    ensures var score := RawScore(m, Weights(0.0, 0.0, 0.0, 0.0, 0.0, w));
      && (m.rsi <= 30.0 ==> score == w * 0.40) && (m.rsi == 45.0 ==> score == w * 0.90)
      && (m.rsi == 60.0 ==> score == w * 1.0) && (m.rsi == 70.0 ==> score == w * 0.50)
      && (m.rsi == 80.0 ==> score == w * 0.10) && (m.rsi >= 90.0 ==> score == 0.0)
  {
    OneFactor(m, w);
    PassesThroughBreakpoints(RSI_CURVE, 1);
    PassesThroughBreakpoints(RSI_CURVE, 2);
    PassesThroughBreakpoints(RSI_CURVE, 3);
    PassesThroughBreakpoints(RSI_CURVE, 4);
  }
}
