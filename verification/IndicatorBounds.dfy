/** Ranges that the indicators never leave, on any series of well-formed bars. */
module IndicatorBounds {
  import opened Decimals
  import opened MarketData
  import opened Indicators
  import opened Oscillators

  // ----- RSI and ATR

  lemma {:induction false} StrengthBounds(avgGain: real, avgLoss: real)
    requires avgGain >= 0.0 && avgLoss >= 0.0
    ensures 0.0 <= StrengthIndex(avgGain, avgLoss) <= 100.0
  {
    if avgLoss != 0.0 {
      QuotientAtLeast(avgGain, 0.0, avgLoss);
      var d := 1.0 + avgGain / avgLoss;
      QuotientAtMost(100.0, 100.0, d);
      QuotientAtLeast(100.0, 0.0, d);
    }
  }

  /** The relative strength index of any price history lies between 0 and 100. */
  lemma {:induction false} RsiBounds(h: seq<real>, period: nat)
    requires period >= 1
    ensures 0.0 <= Rsi(h, period) <= 100.0
  {
    hide Wilder, StrengthIndex;
    if |h| > period {
      GainsAndLosses(h, period);
      StrengthBounds(Wilder(Gains(h), period), Wilder(Losses(h), period));
    }
  }

  /** The average true range stays between the smallest and the largest true range seen. */
  lemma {:induction false} AtrBounds(h: seq<Bar>, period: nat, lo: real, hi: real)
    requires 1 <= period < |h|
    requires forall i | 0 <= i < |h| - 1 :: lo <= TrueRanges(h)[i] <= hi
    ensures lo <= Atr(h, period) <= hi
  {
    hide TrueRanges;
    WilderAtLeast(TrueRanges(h), period, lo);
    WilderAtMost(TrueRanges(h), period, hi);
  }

  // ----- Stochastics

  lemma {:induction false} RangeCovers(bars: seq<Bar>, i: nat)
    requires i < |bars|
    ensures Lowest(bars) <= bars[i].low && bars[i].high <= Highest(bars)
    decreases |bars|
  {
    if |bars| > 1 && i < |bars| - 1 {
      RangeCovers(bars[..|bars| - 1], i);
    }
  }

  lemma {:induction false} PositionBounds(close: real, hh: real, ll: real)
    requires ll <= close <= hh
    ensures 0.0 <= Position(close, hh, ll) <= 100.0
  {
    if hh - ll != 0.0 {
      QuotientAtMost(close - ll, 1.0, hh - ll);
      QuotientAtLeast(close - ll, 0.0, hh - ll);
    }
  }

  lemma {:induction false} FastKBounds(h: seq<Bar>, kPeriod: nat)
    requires kPeriod >= 1 && WellFormedBars(h)
    ensures 0.0 <= FastK(h, kPeriod) <= 100.0
  {
    hide Position, Highest, Lowest;
    if |h| >= kPeriod {
      var w := Window(h, kPeriod);
      RangeCovers(w, kPeriod - 1);
      assert w[kPeriod - 1] == h[|h| - 1];
      PositionBounds(h[|h| - 1].close, Highest(w), Lowest(w));
    }
  }

  /** %K and %D lie between 0 and 100. */
  lemma {:induction false} StochasticsBounds(h: seq<Bar>, kPeriod: nat, dPeriod: nat)
    requires kPeriod >= 1 && dPeriod >= 1 && WellFormedBars(h)
    ensures 0.0 <= FastK(h, kPeriod) <= 100.0 && 0.0 <= SlowD(h, kPeriod, dPeriod) <= 100.0
  {
    hide FastK;
    FastKBounds(h, kPeriod);
    if |h| >= kPeriod + dPeriod - 1 {
      var ks := RecentK(h, kPeriod, dPeriod);
      forall j | 0 <= j < dPeriod ensures 0.0 <= ks[j] <= 100.0 {
        FastKBounds(h[..|h| - dPeriod + j + 1], kPeriod);
      }
      MeanBounds(ks, dPeriod);
    }
  }

  lemma {:induction false} MeanBounds(xs: seq<real>, count: nat)
    requires |xs| == count >= 1 && forall i | 0 <= i < |xs| :: 0.0 <= xs[i] <= 100.0
    ensures 0.0 <= Sum(xs) / count as real <= 100.0
  {
    SumAtLeast(xs, 0.0);
    SumAtMost(xs, 100.0);
    QuotientAtLeast(Sum(xs), 0.0, count as real);
    QuotientAtMost(Sum(xs), 100.0, count as real);
  }

  // ----- Directional movement

  /** A bar moves in at most one direction, and by no more than its true range. */
  lemma {:induction false} MovementWithinRange(before: Bar, bar: Bar)
    requires before.low <= before.close <= before.high && bar.low <= bar.high
    ensures PlusDM(before, bar) >= 0.0 && MinusDM(before, bar) >= 0.0
    ensures PlusDM(before, bar) == 0.0 || MinusDM(before, bar) == 0.0
    ensures PlusDM(before, bar) + MinusDM(before, bar) <= TrueRange(bar.high, bar.low, before.close)
  {
  }

  lemma {:induction false} DecayDominates(a: real, b: real, c: real, x: real, y: real, z: real, period: nat)
    requires period >= 1 && a >= 0.0 && b >= 0.0 && a + b <= c && x >= 0.0 && y >= 0.0 && x + y <= z
    ensures Decay(a, x, period) >= 0.0 && Decay(b, y, period) >= 0.0
    ensures Decay(a, x, period) + Decay(b, y, period) <= Decay(c, z, period)
  {
    var p := period as real;
    QuotientAtMost(a, a, p);
    QuotientAtMost(b, b, p);
    var rest := c - a - b;
    QuotientAtMost(rest, rest, p);
    SumOfQuotients(a, b, rest, p);
  }

  lemma {:induction false} SumOfQuotients(a: real, b: real, rest: real, p: real)
    requires p > 0.0
    ensures (a + b + rest) / p == a / p + b / p + rest / p
  {
    var x, y, z := a / p, b / p, rest / p;
    assert x * p == a && y * p == b && z * p == rest;
    assert (x + y + z) * p == a + b + rest;
    QuotientIs(a + b + rest, p, x + y + z);
  }

  /** Wilder's accumulation keeps an entrywise bound x + y <= z between three series. */
  lemma {:induction false} AccumulatedDominates(xs: seq<real>, ys: seq<real>, zs: seq<real>, period: nat)
    requires |xs| == |ys| == |zs| && 1 <= period <= |xs|
    requires forall i | 0 <= i < |xs| :: xs[i] >= 0.0 && ys[i] >= 0.0 && xs[i] + ys[i] <= zs[i]
    ensures Accumulated(xs, period) >= 0.0 && Accumulated(ys, period) >= 0.0
    ensures Accumulated(xs, period) + Accumulated(ys, period) <= Accumulated(zs, period)
    decreases |xs|
  {
    hide Decay;
    var n := |xs| - 1;
    if |xs| == period {
      SumDominates(xs, ys, zs);
    } else {
      AccumulatedDominates(xs[..n], ys[..n], zs[..n], period);
      DecayDominates(Accumulated(xs[..n], period), Accumulated(ys[..n], period), Accumulated(zs[..n], period),
        xs[n], ys[n], zs[n], period);
    }
  }

  lemma {:induction false} SumDominates(xs: seq<real>, ys: seq<real>, zs: seq<real>)
    requires |xs| == |ys| == |zs|
    requires forall i | 0 <= i < |xs| :: xs[i] >= 0.0 && ys[i] >= 0.0 && xs[i] + ys[i] <= zs[i]
    ensures Sum(xs) >= 0.0 && Sum(ys) >= 0.0 && Sum(xs) + Sum(ys) <= Sum(zs)
    decreases |xs|
  {
    if xs != [] {
      var n := |xs| - 1;
      SumDominates(xs[..n], ys[..n], zs[..n]);
    }
  }

  lemma {:induction false} PercentSplit(a: real, b: real, c: real)
    requires a >= 0.0 && b >= 0.0 && a + b <= c
    ensures Percent(a, c) >= 0.0 && Percent(b, c) >= 0.0 && Percent(a, c) + Percent(b, c) <= 100.0
  {
    if c != 0.0 {
      QuotientAtLeast(a, 0.0, c);
      QuotientAtLeast(b, 0.0, c);
      SumOfQuotients(a, b, 0.0, c);
      QuotientAtMost(a + b, 1.0, c);
    }
  }

  /** +DI and -DI are non-negative and together at most 100. */
  lemma {:induction false} DirectionalIndexBounds(h: seq<Bar>, period: nat)
    requires period >= 1 && WellFormedBars(h)
    ensures PlusDI(h, period) >= 0.0 && MinusDI(h, period) >= 0.0
    ensures PlusDI(h, period) + MinusDI(h, period) <= 100.0
  {
    hide PlusDM, MinusDM, TrueRange, Accumulated, Percent;
    if |h| > period {
      forall i | 0 <= i < |h| - 1
        ensures PlusDMs(h)[i] >= 0.0 && MinusDMs(h)[i] >= 0.0 && PlusDMs(h)[i] + MinusDMs(h)[i] <= TrueRanges(h)[i]
      {
        MovementWithinRange(h[i], h[i + 1]);
      }
      AccumulatedDominates(PlusDMs(h), MinusDMs(h), TrueRanges(h), period);
      PercentSplit(Accumulated(PlusDMs(h), period), Accumulated(MinusDMs(h), period),
        Accumulated(TrueRanges(h), period));
    }
  }

  lemma {:induction false} SpreadBounds(pdi: real, mdi: real)
    requires pdi >= 0.0 && mdi >= 0.0
    ensures 0.0 <= Spread(pdi, mdi) <= 100.0
  {
    if pdi + mdi != 0.0 {
      QuotientAtLeast(Abs(pdi - mdi), 0.0, pdi + mdi);
      QuotientAtMost(Abs(pdi - mdi), 1.0, pdi + mdi);
    }
  }

  /** ADX lies between 0 and 100. */
  lemma {:induction false} AdxBounds(h: seq<Bar>, period: nat)
    requires period >= 1 && WellFormedBars(h)
    ensures 0.0 <= Adx(h, period) <= 100.0
  {
    hide PlusDI, MinusDI, Spread, Wilder;
    if |h| >= 2 * period {
      var xs := DxTail(h, period);
      forall j | 0 <= j < |xs| ensures 0.0 <= xs[j] <= 100.0 {
        var g := h[..period + j + 1];
        DirectionalIndexBounds(g, period);
        SpreadBounds(PlusDI(g, period), MinusDI(g, period));
      }
      WilderAtLeast(xs, period, 0.0);
      WilderAtMost(xs, period, 100.0);
    }
  }
}
