/** Technical indicator series.

    Each indicator is specified as a function of a history, the series up to and including one day. A method that
    fills entry i with the indicator of `prices[..i + 1]` therefore looks at no later price. */
module Indicators {
  import opened Decimals
  import opened MarketData

  /** The last `period` values of a history. */
  function Window<T>(h: seq<T>, period: nat): seq<T>
    requires period <= |h|
  {
    h[|h| - period..]
  }

  lemma {:induction false} WindowAt<T>(xs: seq<T>, i: nat, period: nat)
    requires i < |xs| && period <= i + 1
    ensures Window(xs[..i + 1], period) == xs[i + 1 - period..i + 1]
  {
  }

  /** Sum of xs[lo..hi], the inner loop of every windowed average. */
  method SumBetween(xs: seq<real>, lo: nat, hi: nat) returns (sum: real)
    requires lo <= hi <= |xs|
    ensures sum == Sum(xs[lo..hi])
  {
    sum := 0.0;
    for j := lo to hi
      invariant sum == Sum(xs[lo..j])
    {
      assert xs[lo..j + 1] == xs[lo..j] + [xs[j]];
      SumAppend(xs[lo..j], xs[j]);
      sum := sum + xs[j];
    }
  }

  /** The seed of the recursive averages: the mean of `period` values from `lo` on. */
  method MeanBetween(xs: seq<real>, lo: nat, period: nat) returns (mean: real)
    requires 1 <= period && lo + period <= |xs|
    ensures mean == Sum(xs[lo..lo + period]) / period as real
  {
    var sum := SumBetween(xs, lo, lo + period);
    mean := sum / period as real;
  }

  // ----- Exponential moving average

  function Ema(h: seq<real>, period: nat): real
    requires period >= 1
    decreases |h|
  {
    if |h| < period then 0.0
    else if |h| == period then Sum(h) / period as real
    else Blend(Ema(h[..|h| - 1], period), h[|h| - 1], 2.0 / (period + 1) as real)
  }

  function Blend(previous: real, price: real, k: real): real {
    (price - previous) * k + previous
  }

  method CalculateEMA(prices: seq<real>, period: nat) returns (ema: Option<seq<real>>)
    requires period >= 1
    ensures ema.None? <==> |prices| < period
    ensures ema.Some? ==> |ema.value| == |prices|
    ensures ema.Some? ==> forall i | 0 <= i < |prices| :: ema.value[i] == Ema(prices[..i + 1], period)
  {
    if |prices| < period {
      return None;
    }
    hide Blend, Sum;
    var out := new real[|prices|](_ => 0.0);
    var k := 2.0 / (period + 1) as real;
    out[period - 1] := MeanBetween(prices, 0, period);
    assert prices[..period] == prices[0..period];
    for i := period to |prices|
      invariant forall j | 0 <= j < i :: out[j] == Ema(prices[..j + 1], period)
      invariant forall j | i <= j < |prices| :: out[j] == 0.0
    {
      assert prices[..i + 1][..i] == prices[..i];
      out[i] := Blend(out[i - 1], prices[i], k);
    }
    ema := Some(out[..]);
  }

  // ----- MACD

  datatype MACDResult = MACDResult(macd: real, signal: real, histogram: real)

  function MacdLine(h: seq<real>, short: nat, long: nat): real
    requires short >= 1 && long >= 1
  {
    if |h| < long then 0.0 else Ema(h, short) - Ema(h, long)
  }

  /** The MACD line from its first defined day on. */
  function MacdTail(h: seq<real>, short: nat, long: nat): (tail: seq<real>)
    requires short >= 1 && 1 <= long <= |h| + 1
    ensures |tail| == |h| + 1 - long
  {
    seq(|h| + 1 - long, j requires 0 <= j < |h| + 1 - long => MacdLine(h[..long + j], short, long))
  }

  function Macd(h: seq<real>, short: nat, long: nat, signal: nat): MACDResult
    requires short >= 1 && long >= 1 && signal >= 1
  {
    if |h| < long + signal - 1 then MACDResult(0.0, 0.0, 0.0)
    else
      var line := MacdLine(h, short, long);
      var average := Ema(MacdTail(h, short, long), signal);
      MACDResult(line, average, line - average)
  }

  lemma {:induction false} MacdTailOfPrefix(prices: seq<real>, short: nat, long: nat, j: nat)
    requires short >= 1 && 1 <= long && long + j <= |prices|
    ensures MacdTail(prices, short, long)[..j + 1] == MacdTail(prices[..long + j], short, long)
  {
    hide MacdLine;
    var whole, part := MacdTail(prices, short, long), MacdTail(prices[..long + j], short, long);
    forall i | 0 <= i < j + 1 ensures whole[..j + 1][i] == part[i] {
      assert prices[..long + j][..long + i] == prices[..long + i];
    }
  }

  method CalculateMACD(prices: seq<real>, short: nat, long: nat, signal: nat) returns (macd: Option<seq<MACDResult>>)
    requires 1 <= short && 1 <= long && 1 <= signal && (|prices| >= long + signal ==> short <= |prices|)
    ensures macd.None? <==> |prices| < long + signal
    ensures macd.Some? ==> |macd.value| == |prices|
    ensures macd.Some? ==> forall i | 0 <= i < |prices| :: macd.value[i] == Macd(prices[..i + 1], short, long, signal)
  {
    if |prices| < long + signal {
      return None;
    }
    hide MacdTail, Ema, MacdLine;
    var line := MacdLineSeries(prices, short, long);
    LineTail(prices, short, long, line);
    var signalEMA := CalculateEMA(line[long - 1..], signal);
    var results := MacdResults(prices, short, long, signal, line, signalEMA.value);
    macd := Some(results);
  }

  method MacdResults(ghost prices: seq<real>, ghost short: nat, long: nat, signal: nat, line: seq<real>,
                     signalEMA: seq<real>)
    returns (out: seq<MACDResult>)
    requires 1 <= short && 1 <= long <= |prices| == |line| && 1 <= signal && |signalEMA| == |line| + 1 - long
    requires forall i | 0 <= i < |line| :: line[i] == MacdLine(prices[..i + 1], short, long)
    requires forall j | 0 <= j < |signalEMA| ::
      signalEMA[j] == Ema(MacdTail(prices, short, long)[..j + 1], signal)
    ensures |out| == |line|
    ensures forall i | 0 <= i < |line| :: out[i] == Macd(prices[..i + 1], short, long, signal)
  {
    hide MacdTail, Ema, MacdLine;
    var n, start := |line|, long - 1;
    var results := new MACDResult[n](_ => MACDResult(0.0, 0.0, 0.0));
    for j := 0 to n - start
      invariant forall i | 0 <= i < start + j :: results[i] == Macd(prices[..i + 1], short, long, signal)
      invariant forall i | start + j <= i < n :: results[i] == MACDResult(0.0, 0.0, 0.0)
    {
      if j < signal - 1 {
        continue;
      }
      MacdTailOfPrefix(prices, short, long, j);
      results[start + j] := MACDResult(line[start + j], signalEMA[j], line[start + j] - signalEMA[j]);
    }
    out := results[..];
  }

  method MacdLineSeries(prices: seq<real>, short: nat, long: nat) returns (line: seq<real>)
    requires 1 <= short <= |prices| && 1 <= long <= |prices|
    ensures |line| == |prices|
    ensures forall i | 0 <= i < |prices| :: line[i] == MacdLine(prices[..i + 1], short, long)
  {
    hide Ema;
    var shortEMA := CalculateEMA(prices, short);
    var longEMA := CalculateEMA(prices, long);
    var out := new real[|prices|](_ => 0.0);
    for i := 0 to |prices|
      invariant forall j | 0 <= j < i :: out[j] == MacdLine(prices[..j + 1], short, long)
    {
      if i < long - 1 {
        out[i] := 0.0;
        continue;
      }
      out[i] := shortEMA.value[i] - longEMA.value[i];
    }
    line := out[..];
  }

  lemma {:induction false} LineTail(prices: seq<real>, short: nat, long: nat, line: seq<real>)
    requires 1 <= short && 1 <= long <= |prices| == |line|
    requires forall i | 0 <= i < |prices| :: line[i] == MacdLine(prices[..i + 1], short, long)
    ensures line[long - 1..] == MacdTail(prices, short, long)
  {
    hide MacdLine;
  }

  // ----- RSI

  function GainOf(h: seq<real>, i: nat): real
    requires 1 <= i < |h|
  {
    if h[i] - h[i - 1] > 0.0 then h[i] - h[i - 1] else 0.0
  }

  function LossOf(h: seq<real>, i: nat): real
    requires 1 <= i < |h|
  {
    if h[i] - h[i - 1] > 0.0 then 0.0 else Abs(h[i] - h[i - 1])
  }

  /** Wilder's smoothing: the mean of the first `period` values, then one part in `period` per day. */
  function Wilder(xs: seq<real>, period: nat): real
    requires 1 <= period <= |xs|
    decreases |xs|
  {
    if |xs| == period then Sum(xs) / period as real
    else Smooth(Wilder(xs[..|xs| - 1], period), xs[|xs| - 1], period)
  }

  function Smooth(previous: real, x: real, period: nat): real
    requires period >= 1
  {
    (previous * (period - 1) as real + x) / period as real
  }

  function Gains(h: seq<real>): (gains: seq<real>)
    requires |h| >= 1
    ensures |gains| == |h| - 1
  {
    seq(|h| - 1, j requires 0 <= j < |h| - 1 => GainOf(h, j + 1))
  }

  function Losses(h: seq<real>): (losses: seq<real>)
    requires |h| >= 1
    ensures |losses| == |h| - 1
  {
    seq(|h| - 1, j requires 0 <= j < |h| - 1 => LossOf(h, j + 1))
  }

  function StrengthIndex(avgGain: real, avgLoss: real): real
    requires avgGain >= 0.0 && avgLoss >= 0.0
  {
    if avgLoss == 0.0 then 100.0
    else
      QuotientAtLeast(avgGain, 0.0, avgLoss);
      100.0 - 100.0 / (1.0 + avgGain / avgLoss)
  }

  /** A Wilder average is never below a lower bound, nor above an upper bound, of the values it has seen. */
  lemma {:induction false} WilderAtLeast(xs: seq<real>, period: nat, lo: real)
    requires 1 <= period <= |xs| && forall i | 0 <= i < |xs| :: xs[i] >= lo
    ensures Wilder(xs, period) >= lo
    decreases |xs|
  {
    hide Smooth;
    if |xs| == period {
      SumAtLeast(xs, lo);
      QuotientAtLeast(Sum(xs), lo, period as real);
    } else {
      WilderAtLeast(xs[..|xs| - 1], period, lo);
      SmoothMonotone(lo, lo, Wilder(xs[..|xs| - 1], period), xs[|xs| - 1], period);
      SmoothConstant(lo, period);
    }
  }

  lemma {:induction false} WilderAtMost(xs: seq<real>, period: nat, hi: real)
    requires 1 <= period <= |xs| && forall i | 0 <= i < |xs| :: xs[i] <= hi
    ensures Wilder(xs, period) <= hi
    decreases |xs|
  {
    hide Smooth;
    if |xs| == period {
      SumAtMost(xs, hi);
      QuotientAtMost(Sum(xs), hi, period as real);
    } else {
      WilderAtMost(xs[..|xs| - 1], period, hi);
      SmoothMonotone(Wilder(xs[..|xs| - 1], period), xs[|xs| - 1], hi, hi, period);
      SmoothConstant(hi, period);
    }
  }

  lemma {:induction false} SmoothMonotone(previous: real, x: real, previous': real, x': real, period: nat)
    requires period >= 1 && previous <= previous' && x <= x'
    ensures Smooth(previous, x, period) <= Smooth(previous', x', period)
  {
    WeightedMonotone(previous, x, previous', x', (period - 1) as real, period as real);
  }

  lemma {:induction false} WeightedMonotone(previous: real, x: real, previous': real, x': real, weight: real, d: real)
    requires weight >= 0.0 && d > 0.0 && previous <= previous' && x <= x'
    ensures (previous * weight + x) / d <= (previous' * weight + x') / d
  {
    ProductMonotone(previous, previous', weight);
    QuotientMonotone(previous * weight + x, previous' * weight + x', d);
  }

  lemma {:induction false} SmoothConstant(x: real, period: nat)
    requires period >= 1
    ensures Smooth(x, x, period) == x
  {
    QuotientIs(x * (period - 1) as real + x, period as real, x);
  }

  lemma {:induction false} GainsAndLosses(h: seq<real>, period: nat)
    requires 1 <= period < |h|
    ensures Wilder(Gains(h), period) >= 0.0 && Wilder(Losses(h), period) >= 0.0
  {
    WilderAtLeast(Gains(h), period, 0.0);
    WilderAtLeast(Losses(h), period, 0.0);
  }

  function Rsi(h: seq<real>, period: nat): real
    requires period >= 1
  {
    if |h| <= period then 0.0
    else
      GainsAndLosses(h, period);
      StrengthIndex(Wilder(Gains(h), period), Wilder(Losses(h), period))
  }

  method CalculateRSI(prices: seq<real>, period: nat) returns (rsi: Option<seq<real>>)
    requires period >= 1
    ensures rsi.None? <==> |prices| <= period
    ensures rsi.Some? ==> |rsi.value| == |prices|
    ensures rsi.Some? ==> forall i | 0 <= i < |prices| :: rsi.value[i] == Rsi(prices[..i + 1], period)
  {
    hide *;
    if |prices| <= period {
      return None;
    }
    var n := |prices|;
    var out := new real[n](_ => 0.0);
    RsiUndefined(period);
    var gains, losses := DailyMoves(prices);
    var avgGain, avgLoss;
    avgGain, avgLoss, out[period] := FirstRsi(prices, period, gains, losses);
    for i := period + 1 to n
      invariant avgGain == Wilder(Gains(prices[..i]), period) && avgLoss == Wilder(Losses(prices[..i]), period)
      invariant forall j | 0 <= j < i :: out[j] == Rsi(prices[..j + 1], period)
    {
      avgGain, avgLoss, out[i] := NextRsi(prices, period, i, gains[i - 1], losses[i - 1], avgGain, avgLoss);
    }
    rsi := Some(out[..]);
  }

  method FirstRsi(ghost prices: seq<real>, period: nat, gains: seq<real>, losses: seq<real>)
    returns (avgGain: real, avgLoss: real, rsi: real)
    requires 1 <= period < |prices| && gains == Gains(prices) && losses == Losses(prices)
    ensures var h := prices[..period + 1];
      avgGain == Wilder(Gains(h), period) && avgLoss == Wilder(Losses(h), period) && rsi == Rsi(h, period)
  {
    hide Wilder, StrengthIndex, Gains, Losses, Rsi;
    avgGain := MeanBetween(gains, 0, period);
    avgLoss := MeanBetween(losses, 0, period);
    FirstAverages(prices, period, avgGain, avgLoss);
    RsiIs(prices[..period + 1], period, avgGain, avgLoss);
    rsi := StrengthIndex(avgGain, avgLoss);
  }

  method NextRsi(ghost prices: seq<real>, period: nat, ghost i: nat, gain: real, loss: real, avgGain: real,
                 avgLoss: real)
    returns (nextGain: real, nextLoss: real, rsi: real)
    requires 1 <= period < i < |prices| && gain == Gains(prices)[i - 1] && loss == Losses(prices)[i - 1]
    requires avgGain == Wilder(Gains(prices[..i]), period) && avgLoss == Wilder(Losses(prices[..i]), period)
    ensures var h := prices[..i + 1];
      nextGain == Wilder(Gains(h), period) && nextLoss == Wilder(Losses(h), period) && rsi == Rsi(h, period)
  {
    hide Wilder, Smooth, StrengthIndex, Gains, Losses, Rsi;
    NextAverages(prices, period, i);
    nextGain := Smooth(avgGain, gain, period);
    nextLoss := Smooth(avgLoss, loss, period);
    RsiIs(prices[..i + 1], period, nextGain, nextLoss);
    rsi := StrengthIndex(nextGain, nextLoss);
  }

  lemma {:induction false} RsiUndefined(period: nat)
    requires period >= 1
    ensures forall h | |h| <= period :: Rsi(h, period) == 0.0
  {
  }

  lemma {:induction false} RsiIs(h: seq<real>, period: nat, avgGain: real, avgLoss: real)
    requires 1 <= period < |h|
    requires avgGain == Wilder(Gains(h), period) && avgLoss == Wilder(Losses(h), period)
    ensures avgGain >= 0.0 && avgLoss >= 0.0 && Rsi(h, period) == StrengthIndex(avgGain, avgLoss)
  {
    hide Wilder;
    GainsAndLosses(h, period);
  }

  lemma {:induction false} FirstAverages(prices: seq<real>, period: nat, avgGain: real, avgLoss: real)
    requires 1 <= period < |prices|
    requires avgGain == Sum(Gains(prices)[0..0 + period]) / period as real
    requires avgLoss == Sum(Losses(prices)[0..0 + period]) / period as real
    ensures avgGain == Wilder(Gains(prices[..period + 1]), period)
    ensures avgLoss == Wilder(Losses(prices[..period + 1]), period)
  {
    assert Gains(prices)[0..period] == Gains(prices[..period + 1]);
    assert Losses(prices)[0..period] == Losses(prices[..period + 1]);
  }

  lemma {:induction false} NextAverages(prices: seq<real>, period: nat, i: nat)
    requires 1 <= period < i < |prices|
    ensures Wilder(Gains(prices[..i + 1]), period)
         == Smooth(Wilder(Gains(prices[..i]), period), Gains(prices)[i - 1], period)
    ensures Wilder(Losses(prices[..i + 1]), period)
         == Smooth(Wilder(Losses(prices[..i]), period), Losses(prices)[i - 1], period)
  {
    hide Smooth;
    MovesOfPrefix(prices, i);
  }

  lemma {:induction false} MovesOfPrefix(prices: seq<real>, i: nat)
    requires 1 <= i < |prices|
    ensures Gains(prices[..i + 1])[..i - 1] == Gains(prices[..i])
    ensures Gains(prices[..i + 1])[i - 1] == Gains(prices)[i - 1]
    ensures Losses(prices[..i + 1])[..i - 1] == Losses(prices[..i])
    ensures Losses(prices[..i + 1])[i - 1] == Losses(prices)[i - 1]
  {
  }

  method DailyMoves(prices: seq<real>) returns (gains: seq<real>, losses: seq<real>)
    requires |prices| >= 1
    ensures gains == Gains(prices) && losses == Losses(prices)
  {
    gains, losses := [], [];
    for i := 1 to |prices|
      invariant |gains| == |losses| == i - 1
      invariant forall j | 0 <= j < i - 1 :: gains[j] == GainOf(prices, j + 1) && losses[j] == LossOf(prices, j + 1)
    {
      var diff := prices[i] - prices[i - 1];
      if diff > 0.0 {
        gains, losses := gains + [diff], losses + [0.0];
      } else {
        gains, losses := gains + [0.0], losses + [Abs(diff)];
      }
    }
  }

  // ----- Moving average and Bollinger bands

  function WindowMean(h: seq<real>, period: nat): real
    requires 1 <= period <= |h|
  {
    Sum(Window(h, period)) / period as real
  }

  function Sma(h: seq<real>, period: nat): real
    requires period >= 1
  {
    if |h| < period then 0.0 else WindowMean(h, period)
  }

  method WindowAverage(prices: seq<real>, i: nat, period: nat) returns (mean: real)
    requires 1 <= period <= i + 1 <= |prices|
    ensures mean == WindowMean(prices[..i + 1], period)
  {
    WindowAt(prices, i, period);
    var sum := SumBetween(prices, i + 1 - period, i + 1);
    mean := sum / period as real;
  }

  method SmaSeries(prices: seq<real>, period: nat) returns (sma: seq<real>)
    requires period >= 1
    ensures |sma| == |prices|
    ensures forall i | 0 <= i < |prices| :: sma[i] == Sma(prices[..i + 1], period)
  {
    hide WindowMean;
    var out := new real[|prices|](_ => 0.0);
    if |prices| < period {
      return out[..];
    }
    for i := period - 1 to |prices|
      invariant forall j | 0 <= j < i :: out[j] == Sma(prices[..j + 1], period)
      invariant forall j | i <= j < |prices| :: out[j] == 0.0
    {
      out[i] := WindowAverage(prices, i, period);
    }
    sma := out[..];
  }

  datatype BollingerBands = BollingerBands(upper: real, middle: real, lower: real, bandWidth: real)

  function SquaredDistances(xs: seq<real>, centre: real): seq<real> {
    seq(|xs|, i requires 0 <= i < |xs| => (xs[i] - centre) * (xs[i] - centre))
  }

  function Bands(sma: real, stdDev: real, multiplier: real): BollingerBands {
    var upper, lower := sma + multiplier * stdDev, sma - multiplier * stdDev;
    BollingerBands(upper, sma, lower, if sma != 0.0 then (upper - lower) / sma else 0.0)
  }

  /** The square root is a parameter: nothing about it is used. */
  function Bollinger(sqrt: real -> real, h: seq<real>, period: nat, multiplier: real): BollingerBands
    requires period >= 1
  {
    if |h| < period then BollingerBands(0.0, 0.0, 0.0, 0.0)
    else
      var sma := WindowMean(h, period);
      Bands(sma, sqrt(Sum(SquaredDistances(Window(h, period), sma)) / period as real), multiplier)
  }

  method CalculateBollingerBands(sqrt: real -> real, prices: seq<real>, period: nat, multiplier: real)
    returns (bands: Option<seq<BollingerBands>>)
    requires period >= 1
    ensures bands.None? <==> |prices| < period
    ensures bands.Some? ==> |bands.value| == |prices|
    ensures bands.Some? ==>
      forall i | 0 <= i < |prices| :: bands.value[i] == Bollinger(sqrt, prices[..i + 1], period, multiplier)
  {
    hide *;
    if |prices| < period {
      return None;
    }
    var none := BollingerBands(0.0, 0.0, 0.0, 0.0);
    var out := new BollingerBands[|prices|](_ => none);
    NoBandsYet(sqrt, period, multiplier);
    for i := period - 1 to |prices|
      invariant forall j | 0 <= j < i :: out[j] == Bollinger(sqrt, prices[..j + 1], period, multiplier)
      invariant forall j | i <= j < |prices| :: out[j] == none
    {
      out[i] := BandsAt(sqrt, prices, i, period, multiplier);
    }
    bands := Some(out[..]);
  }

  lemma {:induction false} NoBandsYet(sqrt: real -> real, period: nat, multiplier: real)
    requires period >= 1
    ensures forall h | |h| < period :: Bollinger(sqrt, h, period, multiplier) == BollingerBands(0.0, 0.0, 0.0, 0.0)
  {
  }

  method BandsAt(sqrt: real -> real, prices: seq<real>, i: nat, period: nat, multiplier: real)
    returns (bands: BollingerBands)
    requires 1 <= period <= i + 1 <= |prices|
    ensures bands == Bollinger(sqrt, prices[..i + 1], period, multiplier)
  {
    hide Bands, SquaredDistances, WindowMean;
    WindowAt(prices, i, period);
    var sma := WindowAverage(prices, i, period);
    var variance := SumOfSquares(prices[i + 1 - period..i + 1], sma);
    var stdDev := sqrt(variance / period as real);
    bands := Bands(sma, stdDev, multiplier);
  }

  method SumOfSquares(xs: seq<real>, centre: real) returns (sum: real)
    ensures sum == Sum(SquaredDistances(xs, centre))
  {
    sum := 0.0;
    var all := SquaredDistances(xs, centre);
    for j := 0 to |xs|
      invariant sum == Sum(all[..j])
    {
      var diff := xs[j] - centre;
      assert all[..j + 1] == all[..j] + [all[j]];
      SumAppend(all[..j], all[j]);
      sum := sum + diff * diff;
    }
    assert all[..|xs|] == all;
  }

  // ----- True range and ATR

  function TrueRange(high: real, low: real, prevClose: real): real {
    Max(high - low, Max(Abs(high - prevClose), Abs(low - prevClose)))
  }

  /** True ranges of days 1, 2, ... of a history. */
  function TrueRanges(h: seq<Bar>): (trs: seq<real>)
    requires |h| >= 1
    ensures |trs| == |h| - 1
  {
    seq(|h| - 1, j requires 0 <= j < |h| - 1 => TrueRange(h[j + 1].high, h[j + 1].low, h[j].close))
  }

  function Atr(h: seq<Bar>, period: nat): real
    requires period >= 1
  {
    if |h| <= period then 0.0 else Wilder(TrueRanges(h), period)
  }

  method CalculateATR(prices: seq<Bar>, period: int) returns (atr: Option<seq<real>>)
    ensures atr.None? <==> period <= 0 || |prices| <= period
    ensures atr.Some? ==> |atr.value| == |prices|
    ensures atr.Some? ==> forall i | 0 <= i < |prices| :: atr.value[i] == Atr(prices[..i + 1], period)
  {
    hide *;
    var n := |prices|;
    if period <= 0 || n <= period {
      return None;
    }
    var ranges := TrueRangeSeries(prices);
    var out := new real[n](_ => 0.0);
    AtrUndefined(period);
    out[period] := MeanBetween(ranges, 1, period);
    FirstAtr(prices, period, ranges);
    for i := period + 1 to n
      invariant forall j | 0 <= j < i :: out[j] == Atr(prices[..j + 1], period)
    {
      NextAtr(prices, period, i, ranges);
      out[i] := Smooth(out[i - 1], ranges[i], period);
    }
    atr := Some(out[..]);
  }

  lemma {:induction false} AtrUndefined(period: nat)
    requires period >= 1
    ensures forall h | |h| <= period :: Atr(h, period) == 0.0
  {
  }

  /** True range per day; day 0 has none. */
  method TrueRangeSeries(prices: seq<Bar>) returns (tr: seq<real>)
    requires |prices| >= 1
    ensures |tr| == |prices| && tr[0] == 0.0 && tr[1..] == TrueRanges(prices)
  {
    hide TrueRange;
    var out := new real[|prices|](_ => 0.0);
    for i := 1 to |prices|
      invariant out[0] == 0.0
      invariant forall j | 1 <= j < i :: out[j] == TrueRange(prices[j].high, prices[j].low, prices[j - 1].close)
    {
      out[i] := TrueRange(prices[i].high, prices[i].low, prices[i - 1].close);
    }
    tr := out[..];
  }

  lemma {:induction false} FirstAtr(prices: seq<Bar>, period: nat, ranges: seq<real>)
    requires 1 <= period < |prices| == |ranges| && ranges[1..] == TrueRanges(prices)
    ensures Atr(prices[..period + 1], period) == Sum(ranges[1..1 + period]) / period as real
  {
    hide TrueRange;
    assert ranges[1..1 + period] == ranges[1..][..period] == TrueRanges(prices[..period + 1]);
  }

  lemma {:induction false} NextAtr(prices: seq<Bar>, period: nat, i: nat, ranges: seq<real>)
    requires 1 <= period < i < |prices| == |ranges| && ranges[1..] == TrueRanges(prices)
    ensures Atr(prices[..i + 1], period) == Smooth(Atr(prices[..i], period), ranges[i], period)
  {
    hide TrueRange, Smooth;
    assert TrueRanges(prices[..i + 1])[..i - 1] == TrueRanges(prices[..i]);
    assert ranges[1..][i - 1] == ranges[i];
  }
}
