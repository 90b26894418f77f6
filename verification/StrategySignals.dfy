/** Entry and exit signals of the trading strategies.

    Each signal is a predicate of a history; each method fills day i with the predicate of `prices[..i + 1]`. */
module StrategySignals {
  import opened Decimals
  import opened MarketData
  import opened Indicators
  import opened Strategies
  import opened TrendLines

  lemma {:induction false} ClosesOfPrefix(prices: seq<Bar>, k: nat)
    requires k <= |prices|
    ensures Closes(prices)[..k] == Closes(prices[..k])
  {
  }

  // ----- Averages over the days before

  function Volumes(bars: seq<Bar>): (vs: seq<real>)
    ensures |vs| == |bars|
  {
    seq(|bars|, i requires 0 <= i < |bars| => bars[i].volume as real)
  }

  /** First day of a look-back of `window` days that ends before day i. */
  function LookbackStart(i: nat, window: nat): (start: nat)
    ensures start <= i
  {
    if i < window then 0 else i - window
  }

  /** Mean volume of the `window` days before the last day. */
  function AvgVolumeBefore(h: seq<Bar>, window: nat): real
    requires |h| >= 1
  {
    var i := |h| - 1;
    var start := LookbackStart(i, window);
    if start == i then 0.0 else Sum(Volumes(h)[start..i]) / (i - start) as real
  }

  method AvgVolume(prices: seq<Bar>, i: nat, window: nat) returns (avg: real)
    requires i < |prices|
    ensures avg == AvgVolumeBefore(prices[..i + 1], window)
  {
    var start := LookbackStart(i, window);
    if start >= i {
      return 0.0;
    }
    var sum := SumBetween(Volumes(prices), start, i);
    assert Volumes(prices)[start..i] == Volumes(prices[..i + 1])[start..i];
    avg := sum / (i - start) as real;
  }

  /** Highest high of the `lookback` days before day idx; zero when there are none. */
  function HighBefore(h: seq<Bar>, idx: nat, lookback: nat): real
    requires idx <= |h|
  {
    HighBetween(h, LookbackStart(idx, lookback), idx)
  }

  function HighBetween(h: seq<Bar>, start: nat, end: nat): real
    requires start <= end <= |h|
    decreases end
  {
    if start == end then 0.0
    else if start + 1 == end then h[start].high
    else Max(h[end - 1].high, HighBetween(h, start, end - 1))
  }

  method MaxHighInLookback(prices: seq<Bar>, idx: nat, lookback: nat) returns (m: real)
    requires idx < |prices|
    ensures m == HighBefore(prices[..idx + 1], idx, lookback)
  {
    var start := LookbackStart(idx, lookback);
    if start >= idx {
      return 0.0;
    }
    m := prices[start].high;
    for j := start + 1 to idx
      invariant m == HighBetween(prices[..idx + 1], start, j)
    {
      if prices[j].high > m {
        m := prices[j].high;
      }
    }
  }

  function Ranges(bars: seq<Bar>): seq<real> {
    seq(|bars|, i requires 0 <= i < |bars| => bars[i].high - bars[i].low)
  }

  function AvgRange(bars: seq<Bar>): real {
    if |bars| == 0 then 0.0 else Sum(Ranges(bars)) / |bars| as real
  }

  method AvgPriceRange(bars: seq<Bar>) returns (avg: real)
    ensures avg == AvgRange(bars)
  {
    if |bars| == 0 {
      return 0.0;
    }
    var sum := SumBetween(Ranges(bars), 0, |bars|);
    assert Ranges(bars)[0..|bars|] == Ranges(bars);
    avg := sum / |bars| as real;
  }

  /** Band widths of the last `count` days. */
  function RecentWidths(sqrt: real -> real, closes: seq<real>, count: nat): (ws: seq<real>)
    requires count <= |closes|
    ensures |ws| == count
  {
    seq(count, j requires 0 <= j < count => Bollinger(sqrt, closes[..|closes| - count + j + 1], 20, 2.0).bandWidth)
  }

  function AvgWidth(sqrt: real -> real, closes: seq<real>, window: nat): real
    requires |closes| >= 1
  {
    var count := if |closes| < window then |closes| else window;
    if count == 0 then 0.0 else Sum(RecentWidths(sqrt, closes, count)) / count as real
  }

  method AvgBandWidth(sqrt: real -> real, ghost closes: seq<real>, bands: seq<BollingerBands>, i: nat, window: nat)
    returns (avg: real)
    requires i < |closes| == |bands|
    requires forall j | 0 <= j < |closes| :: bands[j] == Bollinger(sqrt, closes[..j + 1], 20, 2.0)
    ensures avg == AvgWidth(sqrt, closes[..i + 1], window)
  {
    hide Bollinger;
    var start := if i + 1 < window then 0 else i + 1 - window;
    ghost var widths := RecentWidths(sqrt, closes[..i + 1], i + 1 - start);
    var sum := 0.0;
    for j := start to i + 1
      invariant sum == Sum(widths[..j - start])
    {
      assert closes[..i + 1][..j + 1] == closes[..j + 1];
      assert widths[..j + 1 - start] == widths[..j - start] + [bands[j].bandWidth];
      SumAppend(widths[..j - start], bands[j].bandWidth);
      sum := sum + bands[j].bandWidth;
    }
    assert widths[..i + 1 - start] == widths;
    if start == i + 1 {
      return 0.0;
    }
    avg := sum / (i + 1 - start) as real;
  }

  // ----- MACD

  ghost predicate MacdEntry(h: seq<Bar>) {
    |h| >= 36 &&
    var c := Closes(h);
    var cur, prev := Macd(c, 12, 26, 9), Macd(c[..|h| - 1], 12, 26, 9);
    && cur.macd > cur.signal && !(prev.macd > prev.signal) && cur.signal >= 0.0
    && Rsi(c, 14) < 70.0
    && h[|h| - 1].volume as real > AvgVolumeBefore(h, 5)
  }

  method MACDBullishEntrySignals(prices: seq<Bar>) returns (signals: seq<bool>)
    ensures |signals| == |prices|
    ensures forall i | 0 <= i < |prices| :: signals[i] == MacdEntry(prices[..i + 1])
  {
    hide Macd, Rsi, AvgVolumeBefore;
    var n := |prices|;
    var out := new bool[n](_ => false);
    var closes := Closes(prices);
    var macd := CalculateMACD(closes, 12, 26, 9);
    var rsi := CalculateRSI(closes, 14);
    if macd.None? || rsi.None? {
      return out[..];
    }
    var i := 35;
    while i < n
      invariant 35 <= i
      invariant forall j | 0 <= j < n :: out[j] == (j < i && MacdEntry(prices[..j + 1]))
    {
      out[i] := MacdEntryAt(prices, i, macd.value, rsi.value);
      i := i + 1;
    }
    signals := out[..];
  }

  method MacdEntryAt(prices: seq<Bar>, i: nat, macd: seq<MACDResult>, rsi: seq<real>) returns (entry: bool)
    requires 35 <= i < |prices| == |macd| == |rsi|
    requires forall j | 0 <= j < |prices| :: macd[j] == Macd(Closes(prices)[..j + 1], 12, 26, 9)
    requires forall j | 0 <= j < |prices| :: rsi[j] == Rsi(Closes(prices)[..j + 1], 14)
    ensures entry == MacdEntry(prices[..i + 1])
  {
    hide Macd, Rsi, AvgVolumeBefore;
    ClosesOfPrefix(prices, i + 1);
    assert Closes(prices)[..i + 1][..i] == Closes(prices)[..i];
    var cur, prev := macd[i], macd[i - 1];
    var goldenCross := cur.macd > cur.signal && !(prev.macd > prev.signal) && cur.signal >= 0.0;
    if !goldenCross || rsi[i] >= 70.0 {
      return false;
    }
    var avg := AvgVolume(prices, i, 5);
    entry := prices[i].volume as real > avg;
  }

  ghost predicate MacdExit(h: seq<Bar>) {
    |h| >= 36 &&
    var c := Closes(h);
    var cur, prev := Macd(c, 12, 26, 9), Macd(c[..|h| - 1], 12, 26, 9);
    cur.macd < cur.signal && !(prev.macd < prev.signal)
  }

  method MACDBullishExitSignals(prices: seq<Bar>) returns (signals: seq<bool>)
    ensures |signals| == |prices|
    ensures forall i | 0 <= i < |prices| :: signals[i] == MacdExit(prices[..i + 1])
  {
    hide Macd;
    var n := |prices|;
    var out := new bool[n](_ => false);
    var closes := Closes(prices);
    var macd := CalculateMACD(closes, 12, 26, 9);
    if macd.None? {
      return out[..];
    }
    var i := 35;
    while i < n
      invariant 35 <= i
      invariant forall j | 0 <= j < n :: out[j] == (j < i && MacdExit(prices[..j + 1]))
    {
      ClosesOfPrefix(prices, i + 1);
      assert closes[..i + 1][..i] == closes[..i];
      var cur, prev := macd.value[i], macd.value[i - 1];
      out[i] := cur.macd < cur.signal && !(prev.macd < prev.signal);
      i := i + 1;
    }
    signals := out[..];
  }

  // ----- Bollinger bands

  ghost predicate BollingerEntry(sqrt: real -> real, h: seq<Bar>) {
    |h| >= 40 &&
    var c := Closes(h);
    var before := c[..|h| - 1];
    && c[|h| - 1] > Bollinger(sqrt, c, 20, 2.0).upper
    && !(before[|h| - 2] > Bollinger(sqrt, before, 20, 2.0).upper)
    && AvgWidth(sqrt, c, 5) < AvgWidth(sqrt, c, 20)
    && h[|h| - 1].volume as real > AvgVolumeBefore(h, 5) * 1.5
    && Rsi(c, 14) < 70.0
  }

  method BollingerBreakoutEntrySignals(sqrt: real -> real, prices: seq<Bar>) returns (signals: seq<bool>)
    ensures |signals| == |prices|
    ensures forall i | 0 <= i < |prices| :: signals[i] == BollingerEntry(sqrt, prices[..i + 1])
  {
    hide Bollinger, Rsi, AvgVolumeBefore, AvgWidth;
    var n := |prices|;
    var out := new bool[n](_ => false);
    var closes := Closes(prices);
    var bb := CalculateBollingerBands(sqrt, closes, 20, 2.0);
    var rsi := CalculateRSI(closes, 14);
    if bb.None? || rsi.None? {
      return out[..];
    }
    var i := 39;
    while i < n
      invariant 39 <= i
      invariant forall j | 0 <= j < n :: out[j] == (j < i && BollingerEntry(sqrt, prices[..j + 1]))
    {
      out[i] := BollingerEntryAt(sqrt, prices, i, bb.value, rsi.value);
      i := i + 1;
    }
    signals := out[..];
  }

  method BollingerEntryAt(sqrt: real -> real, prices: seq<Bar>, i: nat, bb: seq<BollingerBands>, rsi: seq<real>)
    returns (entry: bool)
    requires 39 <= i < |prices| == |bb| == |rsi|
    requires forall j | 0 <= j < |prices| :: bb[j] == Bollinger(sqrt, Closes(prices)[..j + 1], 20, 2.0)
    requires forall j | 0 <= j < |prices| :: rsi[j] == Rsi(Closes(prices)[..j + 1], 14)
    ensures entry == BollingerEntry(sqrt, prices[..i + 1])
  {
    hide Bollinger, Rsi, AvgVolumeBefore, AvgWidth;
    ClosesOfPrefix(prices, i + 1);
    var closes := Closes(prices);
    assert closes[..i + 1][..i] == closes[..i];
    var breakout := closes[i] > bb[i].upper && !(closes[i - 1] > bb[i - 1].upper);
    if !breakout {
      return false;
    }
    var shortAvg := AvgBandWidth(sqrt, closes, bb, i, 5);
    var longAvg := AvgBandWidth(sqrt, closes, bb, i, 20);
    if !(shortAvg < longAvg) {
      return false;
    }
    var avg := AvgVolume(prices, i, 5);
    if prices[i].volume as real <= avg * 1.5 {
      return false;
    }
    entry := rsi[i] < 70.0;
  }

  ghost predicate BollingerExit(sqrt: real -> real, h: seq<Bar>) {
    |h| >= 21 &&
    var c := Closes(h);
    var before := c[..|h| - 1];
    && c[|h| - 1] < Bollinger(sqrt, c, 20, 2.0).middle
    && !(before[|h| - 2] < Bollinger(sqrt, before, 20, 2.0).middle)
  }

  method BollingerBreakoutExitSignals(sqrt: real -> real, prices: seq<Bar>) returns (signals: seq<bool>)
    ensures |signals| == |prices|
    ensures forall i | 0 <= i < |prices| :: signals[i] == BollingerExit(sqrt, prices[..i + 1])
  {
    hide *;
    var n := |prices|;
    var out := new bool[n](_ => false);
    NoBollingerExitYet(sqrt);
    var closes := Closes(prices);
    var bb := CalculateBollingerBands(sqrt, closes, 20, 2.0);
    if bb.None? {
      return out[..];
    }
    var i := 20;
    while i < n
      invariant 20 <= i
      invariant forall j | 0 <= j < n :: out[j] == (j < i && BollingerExit(sqrt, prices[..j + 1]))
    {
      BollingerExitOn(sqrt, prices, i);
      assert closes[..i + 1][..i] == closes[..i];
      out[i] := closes[i] < bb.value[i].middle && !(closes[i - 1] < bb.value[i - 1].middle);
      i := i + 1;
    }
    signals := out[..];
  }

  lemma {:induction false} NoBollingerExitYet(sqrt: real -> real)
    ensures forall h | |h| <= 20 :: !BollingerExit(sqrt, h)
  {
  }

  lemma {:induction false} BollingerExitOn(sqrt: real -> real, prices: seq<Bar>, i: nat)
    requires 20 <= i < |prices|
    ensures var c := Closes(prices);
      BollingerExit(sqrt, prices[..i + 1])
      <==> c[i] < Bollinger(sqrt, c[..i + 1], 20, 2.0).middle && !(c[i - 1] < Bollinger(sqrt, c[..i], 20, 2.0).middle)
  {
    hide Bollinger;
    ClosesOfPrefix(prices, i + 1);
    assert Closes(prices)[..i + 1][..i] == Closes(prices)[..i];
  }

  // ----- Moving averages

  /** The last close lies above its 5, 25 and 75 day averages, all of which are defined and non-zero. */
  ghost predicate AboveAll(c: seq<real>) {
    |c| >= 1 &&
    var s5, s25, s75 := Sma(c, 5), Sma(c, 25), Sma(c, 75);
    var close := c[|c| - 1];
    s5 != 0.0 && s25 != 0.0 && s75 != 0.0 && close > s5 && close > s25 && close > s75
  }

  ghost predicate AverageEntry(h: seq<Bar>) {
    |h| >= 76 && AboveAll(Closes(h)) && !AboveAll(Closes(h)[..|h| - 1])
  }

  method MovingAverageCrossEntrySignals(prices: seq<Bar>) returns (signals: seq<bool>)
    ensures |signals| == |prices|
    ensures forall i | 0 <= i < |prices| :: signals[i] == AverageEntry(prices[..i + 1])
  {
    var n := |prices|;
    var closes := Closes(prices);
    var above := AboveAllSeries(closes);
    hide AboveAll;
    var out := new bool[n](_ => false);
    var i := 75;
    while i < n
      invariant 75 <= i
      invariant forall j | 0 <= j < n :: out[j] == (j < i && AverageEntry(prices[..j + 1]))
    {
      ClosesOfPrefix(prices, i + 1);
      assert closes[..i + 1][..i] == closes[..i];
      out[i] := above[i] && !above[i - 1];
      i := i + 1;
    }
    signals := out[..];
  }

  method AboveAllSeries(closes: seq<real>) returns (above: seq<bool>)
    ensures |above| == |closes|
    ensures forall i | 0 <= i < |closes| :: above[i] == AboveAll(closes[..i + 1])
  {
    hide Sma;
    var sma5 := SmaSeries(closes, 5);
    var sma25 := SmaSeries(closes, 25);
    var sma75 := SmaSeries(closes, 75);
    above := seq(|closes|, i requires 0 <= i < |closes| =>
      && sma5[i] != 0.0 && sma25[i] != 0.0 && sma75[i] != 0.0
      && closes[i] > sma5[i] && closes[i] > sma25[i] && closes[i] > sma75[i]);
  }

  /** Averages of today and yesterday, all defined, cross downwards. */
  ghost predicate AverageExit(h: seq<Bar>) {
    |h| >= 26 &&
    var c := Closes(h);
    var b := c[..|h| - 1];
    && Sma(c, 5) != 0.0 && Sma(c, 25) != 0.0 && Sma(b, 5) != 0.0 && Sma(b, 25) != 0.0
    && Sma(c, 5) < Sma(c, 25) && !(Sma(b, 5) < Sma(b, 25))
  }

  method MovingAverageCrossExitSignals(prices: seq<Bar>) returns (signals: seq<bool>)
    ensures |signals| == |prices|
    ensures forall i | 0 <= i < |prices| :: signals[i] == AverageExit(prices[..i + 1])
  {
    hide Sma;
    var n := |prices|;
    var out := new bool[n](_ => false);
    var closes := Closes(prices);
    var sma5 := SmaSeries(closes, 5);
    var sma25 := SmaSeries(closes, 25);
    var i := 25;
    while i < n
      invariant 25 <= i
      invariant forall j | 0 <= j < n :: out[j] == (j < i && AverageExit(prices[..j + 1]))
    {
      ClosesOfPrefix(prices, i + 1);
      assert closes[..i + 1][..i] == closes[..i];
      if sma5[i] != 0.0 && sma25[i] != 0.0 && sma5[i - 1] != 0.0 && sma25[i - 1] != 0.0 {
        out[i] := sma5[i] < sma25[i] && !(sma5[i - 1] < sma25[i - 1]);
      }
      i := i + 1;
    }
    signals := out[..];
  }

  ghost predicate TrendBreak(h: seq<Bar>) {
    |h| >= 26 &&
    var c := Closes(h);
    var b := c[..|h| - 1];
    && Sma(c, 25) != 0.0 && Sma(b, 25) != 0.0
    && c[|h| - 1] < Sma(c, 25) && !(b[|h| - 2] < Sma(b, 25))
  }

  method GenericTrendBreakExitSignals(prices: seq<Bar>) returns (signals: seq<bool>)
    ensures |signals| == |prices|
    ensures forall i | 0 <= i < |prices| :: signals[i] == TrendBreak(prices[..i + 1])
  {
    hide Sma;
    var n := |prices|;
    var out := new bool[n](_ => false);
    var closes := Closes(prices);
    var sma25 := SmaSeries(closes, 25);
    var i := 25;
    while i < n
      invariant 25 <= i
      invariant forall j | 0 <= j < n :: out[j] == (j < i && TrendBreak(prices[..j + 1]))
    {
      ClosesOfPrefix(prices, i + 1);
      assert closes[..i + 1][..i] == closes[..i];
      if sma25[i] != 0.0 && sma25[i - 1] != 0.0 {
        out[i] := closes[i] < sma25[i] && !(closes[i - 1] < sma25[i - 1]);
      }
      i := i + 1;
    }
    signals := out[..];
  }

  // ----- Triangle formation

  datatype TriangleParams = TriangleParams(
    window: nat, extremaStrength: nat, minExtremaPoints: int, minSlopeRatio: real, rangeContractionRatio: real,
    breakLookback: nat, volumeWindow: nat, volumeMultiplier: real)

  const DEFAULT_TRIANGLE := TriangleParams(60, 2, 3, 0.0005, 0.80, 20, 20, 1.5)

  /** Highs falling and lows rising by at least the minimal slope per day, relative to the last close. */
  ghost predicate Converging(w: seq<Bar>, close: real, p: TriangleParams) {
    var highs, lows := AllExtrema(w, true, p.extremaStrength), AllExtrema(w, false, p.extremaStrength);
    && |highs| >= p.minExtremaPoints && |highs| >= 2 && |lows| >= p.minExtremaPoints && |lows| >= 2
    && close != 0.0
    && Slope(highs) / close <= -p.minSlopeRatio
    && Slope(lows) / close >= p.minSlopeRatio
  }

  /** The mean daily range of the last third is at most the given share of that of the first third. */
  ghost predicate Contracting(w: seq<Bar>, p: TriangleParams)
    requires |w| == p.window
  {
    var third := p.window / 3;
    && third != 0
    && AvgRange(w[..third]) != 0.0
    && AvgRange(w[p.window - third..]) / AvgRange(w[..third]) <= p.rangeContractionRatio
  }

  /** The last close is the first above the recent highs, on enough volume. */
  ghost predicate BreaksOut(h: seq<Bar>, p: TriangleParams)
    requires |h| >= 2
  {
    var i := |h| - 1;
    && h[i].close > HighBefore(h, i, p.breakLookback)
    && !(h[i - 1].close > HighBefore(h[..i], i - 1, p.breakLookback))
    && h[i].volume as real > AvgVolumeBefore(h, p.volumeWindow) * p.volumeMultiplier
  }

  ghost predicate TriangleEntry(h: seq<Bar>, p: TriangleParams) {
    |h| >= 1 &&
    var i := |h| - 1;
    && i >= p.window && i >= 1 + p.breakLookback
    && var w := h[i - p.window..i];
      Converging(w, h[i].close, p) && Contracting(w, p) && BreaksOut(h, p)
  }

  method TriangleFormationEntrySignals(prices: seq<Bar>, p: TriangleParams) returns (signals: seq<bool>)
    ensures |signals| == |prices|
    ensures forall i | 0 <= i < |prices| :: signals[i] == TriangleEntry(prices[..i + 1], p)
  {
    hide Converging, Contracting, BreaksOut;
    var n := |prices|;
    var out := new bool[n](_ => false);
    if n == 0 {
      return out[..];
    }
    var i := p.window;
    while i < n
      invariant p.window <= i
      invariant forall j | 0 <= j < n :: out[j] == (j < i && TriangleEntry(prices[..j + 1], p))
    {
      if i - 1 - p.breakLookback >= 0 {
        var w := prices[i - p.window..i];
        assert w == prices[..i + 1][i - p.window..i];
        var converging := CheckConvergence(w, prices[i].close, p);
        if converging {
          var contracting := CheckContraction(w, p);
          if contracting {
            out[i] := CheckBreakout(prices, i, p);
          }
        }
      }
      i := i + 1;
    }
    signals := out[..];
  }

  method CheckConvergence(w: seq<Bar>, close: real, p: TriangleParams) returns (ok: bool)
    ensures ok == Converging(w, close, p)
  {
    hide Slope, AllExtrema;
    var highSlope, okH := LocalExtremaSlope(w, true, p.extremaStrength, p.minExtremaPoints);
    var lowSlope, okL := LocalExtremaSlope(w, false, p.extremaStrength, p.minExtremaPoints);
    if !okH || !okL || close == 0.0 {
      return false;
    }
    if highSlope / close > -p.minSlopeRatio {
      return false;
    }
    if lowSlope / close < p.minSlopeRatio {
      return false;
    }
    ok := true;
  }

  method CheckContraction(w: seq<Bar>, p: TriangleParams) returns (ok: bool)
    requires |w| == p.window
    ensures ok == Contracting(w, p)
  {
    hide AvgRange;
    var third := p.window / 3;
    if third == 0 {
      return false;
    }
    var firstAvg := AvgPriceRange(w[..third]);
    var lastAvg := AvgPriceRange(w[|w| - third..]);
    if firstAvg == 0.0 {
      return false;
    }
    ok := lastAvg / firstAvg <= p.rangeContractionRatio;
  }

  method CheckBreakout(prices: seq<Bar>, i: nat, p: TriangleParams) returns (ok: bool)
    requires 1 <= i < |prices|
    ensures ok == BreaksOut(prices[..i + 1], p)
  {
    hide HighBefore, AvgVolumeBefore;
    var prevHigh := MaxHighInLookback(prices, i, p.breakLookback);
    var prevPrevHigh := MaxHighInLookback(prices, i - 1, p.breakLookback);
    assert prices[..i + 1][..i] == prices[..i];
    if !(prices[i].close > prevHigh && !(prices[i - 1].close > prevPrevHigh)) {
      return false;
    }
    var avg := AvgVolume(prices, i, p.volumeWindow);
    ok := prices[i].volume as real > avg * p.volumeMultiplier;
  }

  // ----- Several signals on one day

  function Count(a: bool, b: bool, c: bool, d: bool): nat {
    (if a then 1 else 0) + (if b then 1 else 0) + (if c then 1 else 0) + (if d then 1 else 0)
  }

  ghost predicate MultipleEntry(sqrt: real -> real, h: seq<Bar>) {
    Count(MacdEntry(h), BollingerEntry(sqrt, h), TriangleEntry(h, DEFAULT_TRIANGLE), AverageEntry(h)) >= 2
  }

  method MultipleSignalsEntrySignals(sqrt: real -> real, prices: seq<Bar>) returns (signals: seq<bool>)
    ensures |signals| == |prices|
    ensures forall i | 0 <= i < |prices| :: signals[i] == MultipleEntry(sqrt, prices[..i + 1])
  {
    hide MacdEntry, BollingerEntry, TriangleEntry, AverageEntry;
    var macd := MACDBullishEntrySignals(prices);
    var bb := BollingerBreakoutEntrySignals(sqrt, prices);
    var tri := TriangleFormationEntrySignals(prices, DEFAULT_TRIANGLE);
    var ma := MovingAverageCrossEntrySignals(prices);
    signals := [];
    for i := 0 to |prices|
      invariant |signals| == i
      invariant forall j | 0 <= j < i :: signals[j] == MultipleEntry(sqrt, prices[..j + 1])
    {
      var count := 0;
      if macd[i] {
        count := count + 1;
      }
      if bb[i] {
        count := count + 1;
      }
      if tri[i] {
        count := count + 1;
      }
      if ma[i] {
        count := count + 1;
      }
      signals := signals + [count >= 2];
    }
  }

  // ----- Dispatch

  ghost predicate EntrySignal(sqrt: real -> real, strategy: Strategy, h: seq<Bar>) {
    match strategy
    case MACDBullish => MacdEntry(h)
    case BollingerBreakout => BollingerEntry(sqrt, h)
    case TriangleFormation => TriangleEntry(h, DEFAULT_TRIANGLE)
    case MovingAverageCross => AverageEntry(h)
    case MultipleSignals => MultipleEntry(sqrt, h)
    case Unknown => false
  }

  ghost predicate ExitSignal(sqrt: real -> real, strategy: Strategy, h: seq<Bar>) {
    match strategy
    case MACDBullish => MacdExit(h)
    case BollingerBreakout => BollingerExit(sqrt, h)
    case TriangleFormation => TrendBreak(h)
    case MovingAverageCross => AverageExit(h)
    case MultipleSignals => TrendBreak(h)
    case Unknown => false
  }

  /** Day i's entry signal is a function of the prices up to day i. */
  method EntrySignalsByStrategy(sqrt: real -> real, strategy: Strategy, prices: seq<Bar>) returns (signals: seq<bool>)
    ensures |signals| == |prices|
    ensures forall i | 0 <= i < |prices| :: signals[i] == EntrySignal(sqrt, strategy, prices[..i + 1])
  {
    hide MacdEntry, BollingerEntry, TriangleEntry, AverageEntry, MultipleEntry;
    match strategy
    case MACDBullish => signals := MACDBullishEntrySignals(prices);
    case BollingerBreakout => signals := BollingerBreakoutEntrySignals(sqrt, prices);
    case TriangleFormation => signals := TriangleFormationEntrySignals(prices, DEFAULT_TRIANGLE);
    case MovingAverageCross => signals := MovingAverageCrossEntrySignals(prices);
    case MultipleSignals => signals := MultipleSignalsEntrySignals(sqrt, prices);
    case Unknown => signals := seq(|prices|, _ => false);
  }

  method ExitSignalsByStrategy(sqrt: real -> real, strategy: Strategy, prices: seq<Bar>) returns (signals: seq<bool>)
    ensures |signals| == |prices|
    ensures forall i | 0 <= i < |prices| :: signals[i] == ExitSignal(sqrt, strategy, prices[..i + 1])
  {
    hide MacdExit, BollingerExit, TrendBreak, AverageExit;
    match strategy
    case MACDBullish => signals := MACDBullishExitSignals(prices);
    case BollingerBreakout => signals := BollingerBreakoutExitSignals(sqrt, prices);
    case TriangleFormation => signals := GenericTrendBreakExitSignals(prices);
    case MovingAverageCross => signals := MovingAverageCrossExitSignals(prices);
    case MultipleSignals => signals := GenericTrendBreakExitSignals(prices);
    case Unknown => signals := seq(|prices|, _ => false);
  }
}
