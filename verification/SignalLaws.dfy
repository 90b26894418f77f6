/** What a signal implies for the price path that gives it. */
module SignalLaws {
  import opened Decimals
  import opened MarketData
  import opened Indicators
  import opened IndicatorLaws
  import opened Strategies
  import opened StrategySignals
  import opened Backtest
  import opened NoLookAhead
  import DailyPickScreening
  import TrendLines

  /** Closes that never rise from one day to the next. */
  ghost predicate NeverRises(h: seq<Bar>) {
    forall i | 1 <= i < |h| :: h[i].close <= h[i - 1].close
  }

  lemma {:induction false} LastIsLowest(h: seq<Bar>, i: nat)
    requires NeverRises(h) && i < |h|
    ensures h[|h| - 1].close <= h[i].close
    decreases |h| - i
  {
    if i < |h| - 1 {
      LastIsLowest(h, i + 1);
    }
  }

  lemma {:induction false} LastIsHighest(c: seq<real>, i: nat, j: nat)
    requires NeverFalls(c) && i <= j < |c|
    ensures c[i] <= c[j]
    decreases j - i
  {
    if i < j {
      LastIsHighest(c, i + 1, j);
    }
  }

  // ----- MACD

  lemma {:induction false} EmaAtLeast(h: seq<real>, period: nat, lo: real)
    requires 1 <= period <= |h| && forall i | 0 <= i < |h| :: h[i] >= lo
    ensures Ema(h, period) >= lo
    decreases |h|
  {
    hide Blend;
    var n := |h| - 1;
    if |h| == period {
      SumAtLeast(h, lo);
      QuotientAtLeast(Sum(h), lo, period as real);
    } else {
      EmaAtLeast(h[..n], period, lo);
      BlendAtLeast(Ema(h[..n], period), h[n], period, lo);
    }
  }

  lemma {:induction false} BlendAtLeast(previous: real, price: real, period: nat, lo: real)
    requires period >= 1 && previous >= lo && price >= lo
    ensures Blend(previous, price, 2.0 / (period + 1) as real) >= lo
  {
    var d := (period + 1) as real;
    var k := 2.0 / d;
    QuotientAtMost(2.0, 1.0, d);
    QuotientAtLeast(2.0, 0.0, d);
    ProductMonotone(lo, price, k);
    ProductMonotone(lo, previous, 1.0 - k);
    assert Blend(previous, price, k) == previous * (1.0 - k) + price * k;
    assert lo * (1.0 - k) + lo * k == lo;
  }

  /** One day of the MACD: both averages and the signal line move towards the new values. */
  lemma {:induction false} MacdStep(c: seq<real>)
    requires |c| >= 36
    ensures var b, p := c[..|c| - 1], c[|c| - 1];
      var cur, prev := Macd(c, 12, 26, 9), Macd(b, 12, 26, 9);
      && Ema(c, 12) == Ema(b, 12) + (p - Ema(b, 12)) * (2.0 / 13.0)
      && Ema(c, 26) == Ema(b, 26) + (p - Ema(b, 26)) * (2.0 / 27.0)
      && cur.macd == Ema(c, 12) - Ema(c, 26) && prev.macd == Ema(b, 12) - Ema(b, 26)
      && cur.signal == prev.signal + (cur.macd - prev.signal) * 0.2
      && cur.histogram == cur.macd - cur.signal
  {
    var n := |c|;
    MacdTailOfPrefix(c, 12, 26, n - 27);
    var tail := MacdTail(c, 12, 26);
    assert c[..26 + (n - 26)] == c;
    assert tail[|tail| - 1] == MacdLine(c, 12, 26);
    assert tail[..|tail| - 1] == MacdTail(c[..n - 1], 12, 26);
  }

  /** A golden cross with a signal line that is not negative: the MACD line has risen, and the close is above its own
      twelve-day average, of today and of yesterday. */
  lemma {:induction false} CrossAbove(p: real, short: real, long: real, line: real, line': real, signal: real,
                                      signal': real)
    requires line == short - long && signal' == signal + (line' - signal) * 0.2
    requires line' == (short + (p - short) * (2.0 / 13.0)) - (long + (p - long) * (2.0 / 27.0))
    requires line' > signal' && line <= signal && signal' >= 0.0
    ensures line' > line && p > short && p > short + (p - short) * (2.0 / 13.0)
  {
  }

  /** A dead cross: the MACD line has fallen, and if it was not positive the close is below its twelve-day average. */
  lemma {:induction false} CrossBelow(p: real, short: real, long: real, line: real, line': real, signal: real,
                                      signal': real)
    requires line == short - long && signal' == signal + (line' - signal) * 0.2
    requires line' == (short + (p - short) * (2.0 / 13.0)) - (long + (p - long) * (2.0 / 27.0))
    requires line' < signal' && line >= signal
    ensures line' < line && 14.0 * (p - short) < 13.0 * line
  {
  }

  lemma {:induction false} MacdEntryMeans(h: seq<Bar>)
    requires MacdEntry(h)
    ensures |h| >= 36
    ensures var c, n := Closes(h), |h|;
      && c[n - 1] > Ema(c, 12) && c[n - 1] > Ema(c[..n - 1], 12)
      && Macd(c, 12, 26, 9).macd > Macd(c[..n - 1], 12, 26, 9).macd
      && Macd(c, 12, 26, 9).histogram > 0.0
      && Rsi(c, 14) < 70.0 && 5.0 * h[n - 1].volume as real > Sum(Volumes(h)[n - 6..n - 1])
  {
    hide Macd, Ema, Rsi;
    var c, n := Closes(h), |h|;
    var cur, prev := Macd(c, 12, 26, 9), Macd(c[..n - 1], 12, 26, 9);
    MacdStep(c);
    CrossAbove(c[n - 1], Ema(c[..n - 1], 12), Ema(c[..n - 1], 26), prev.macd, cur.macd, prev.signal, cur.signal);
  }

  lemma {:induction false} MacdExitMeans(h: seq<Bar>)
    requires MacdExit(h)
    ensures |h| >= 36
    ensures var c, n := Closes(h), |h|;
      && Macd(c, 12, 26, 9).macd < Macd(c[..n - 1], 12, 26, 9).macd
      && 14.0 * (c[n - 1] - Ema(c[..n - 1], 12)) < 13.0 * (Ema(c[..n - 1], 12) - Ema(c[..n - 1], 26))
  {
    hide Macd, Ema, Rsi;
    var c, n := Closes(h), |h|;
    var cur, prev := Macd(c, 12, 26, 9), Macd(c[..n - 1], 12, 26, 9);
    MacdStep(c);
    CrossBelow(c[n - 1], Ema(c[..n - 1], 12), Ema(c[..n - 1], 26), prev.macd, cur.macd, prev.signal, cur.signal);
  }

  // ----- Bands and averages

  /** A breakout closes above the mean of its last twenty closes, out of bands narrower lately than before, on half as
      much volume again as the five days before. */
  lemma {:induction false} BollingerEntryMeans(sqrt: real -> real, h: seq<Bar>)
    requires RootsSquares(sqrt) && BollingerEntry(sqrt, h)
    ensures |h| >= 40
    ensures var c, n := Closes(h), |h|;
      && 20.0 * c[n - 1] > Sum(c[n - 20..])
      && 4.0 * Sum(RecentWidths(sqrt, c, 5)) < Sum(RecentWidths(sqrt, c, 20))
      && Rsi(c, 14) < 70.0 && 5.0 * h[n - 1].volume as real > 1.5 * Sum(Volumes(h)[n - 6..n - 1])
  {
    hide Bollinger, Rsi, RecentWidths;
    BandsMeasureSpread(sqrt, Closes(h), 20, 2.0);
  }

  lemma {:induction false} BollingerExitMeans(sqrt: real -> real, h: seq<Bar>)
    requires RootsSquares(sqrt) && BollingerExit(sqrt, h)
    ensures |h| >= 21 && 20.0 * h[|h| - 1].close < Sum(Closes(h)[|h| - 20..])
    ensures 20.0 * h[|h| - 2].close >= Sum(Closes(h)[|h| - 21..|h| - 1])
  {
    hide Bollinger;
    var c, n := Closes(h), |h|;
    BandsMeasureSpread(sqrt, c, 20, 2.0);
    BandsMeasureSpread(sqrt, c[..n - 1], 20, 2.0);
    assert c[..n - 1][n - 21..] == c[n - 21..n - 1];
  }

  /** The close stands above the means of its last 5, 25 and 75 closes, as the day before did not. */
  ghost predicate TopsMeans(c: seq<real>) {
    var n := |c|;
    && n >= 75 && 5.0 * c[n - 1] > Sum(c[n - 5..]) && 25.0 * c[n - 1] > Sum(c[n - 25..])
    && 75.0 * c[n - 1] > Sum(c[n - 75..])
  }

  lemma {:induction false} SmaIs(c: seq<real>, period: nat)
    requires 1 <= period <= |c|
    ensures Sma(c, period) * period as real == Sum(c[|c| - period..])
  {
  }

  lemma {:induction false} AverageEntryMeans(h: seq<Bar>)
    requires AverageEntry(h)
    ensures |h| >= 76 && TopsMeans(Closes(h))
    ensures Tradable(h) ==> !TopsMeans(Closes(h)[..|h| - 1])
  {
    hide Sma;
    var c := Closes(h);
    SmaIs(c, 5);
    SmaIs(c, 25);
    SmaIs(c, 75);
    if Tradable(h) {
      ToppedIsAbove(c[..|h| - 1]);
    }
  }

  lemma {:induction false} ToppedIsAbove(c: seq<real>)
    requires forall i | 0 <= i < |c| :: c[i] > 0.0
    ensures TopsMeans(c) ==> AboveAll(c)
  {
    hide Sma;
    if TopsMeans(c) {
      SmaIs(c, 5);
      SmaIs(c, 25);
      SmaIs(c, 75);
      SumPositive(c[|c| - 5..]);
      SumPositive(c[|c| - 25..]);
      SumPositive(c[|c| - 75..]);
    }
  }

  lemma {:induction false} SumPositive(xs: seq<real>)
    requires xs != [] && forall i | 0 <= i < |xs| :: xs[i] > 0.0
    ensures Sum(xs) > 0.0
  {
    SumAtLeast(xs[..|xs| - 1], 0.0);
  }

  lemma {:induction false} TrendBreakMeans(h: seq<Bar>)
    requires TrendBreak(h)
    ensures |h| >= 26 && 25.0 * h[|h| - 1].close < Sum(Closes(h)[|h| - 25..])
    ensures 25.0 * h[|h| - 2].close >= Sum(Closes(h)[|h| - 26..|h| - 1])
  {
    hide Sma;
    var c, n := Closes(h), |h|;
    SmaIs(c, 25);
    SmaIs(c[..n - 1], 25);
    assert c[..n - 1][n - 26..] == c[n - 26..n - 1];
  }

  lemma {:induction false} AverageExitMeans(h: seq<Bar>)
    requires AverageExit(h)
    ensures |h| >= 26
    ensures var c, n := Closes(h), |h|;
      5.0 * Sum(c[n - 5..]) < Sum(c[n - 25..]) && 5.0 * Sum(c[n - 6..n - 1]) >= Sum(c[n - 26..n - 1])
  {
    hide Sma;
    var c, n := Closes(h), |h|;
    SmaIs(c, 5);
    SmaIs(c, 25);
    SmaIs(c[..n - 1], 5);
    SmaIs(c[..n - 1], 25);
    assert c[..n - 1][n - 6..] == c[n - 6..n - 1] && c[..n - 1][n - 26..] == c[n - 26..n - 1];
  }

  // ----- Triangles

  lemma {:induction false} HighCovers(h: seq<Bar>, start: nat, end: nat, j: nat)
    requires start <= j < end <= |h|
    ensures HighBetween(h, start, end) >= h[j].high
    decreases end
  {
    if j < end - 1 {
      HighCovers(h, start, end - 1, j);
    }
  }

  /** A triangle breaks out above every high of the twenty days before, on half as much volume again as they had, from a
      window whose highs do not all rise, whose lows do not all fall and whose daily ranges have shrunk by a fifth. */
  lemma {:induction false} TriangleEntryMeans(h: seq<Bar>)
    requires TriangleEntry(h, DEFAULT_TRIANGLE)
    ensures |h| >= 61
    ensures forall j | |h| - 21 <= j < |h| - 1 :: h[|h| - 1].close > h[j].high
    ensures h[|h| - 1].close > h[|h| - 2].high
    ensures var w := h[|h| - 61..|h| - 1];
      h[|h| - 1].close > 0.0 ==>
        !TrendLines.Rising(TrendLines.AllExtrema(w, true, 2)) && !TrendLines.Falling(TrendLines.AllExtrema(w, false, 2))
    ensures var w := h[|h| - 61..|h| - 1];
      WellFormedBars(h) ==> Sum(Ranges(w[40..])) <= 0.80 * Sum(Ranges(w[..20]))
    ensures 20.0 * h[|h| - 1].volume as real > 1.5 * Sum(Volumes(h)[|h| - 21..|h| - 1])
  {
    hide TrendLines.Slope, TrendLines.AllExtrema, Contracting, AvgVolumeBefore, HighBetween;
    var i := |h| - 1;
    var w := h[i - 60..i];
    forall j | |h| - 21 <= j < i ensures h[i].close > h[j].high {
      HighCovers(h, i - 20, i, j);
    }
    if h[i].close > 0.0 {
      NotAgainstSlope(w, h[i].close);
    }
    EnoughVolume(h);
    if WellFormedBars(h) {
      Narrows(w);
    }
  }

  lemma {:induction false} EnoughVolume(h: seq<Bar>)
    requires |h| >= 61 && BreaksOut(h, DEFAULT_TRIANGLE)
    ensures 20.0 * h[|h| - 1].volume as real > 1.5 * Sum(Volumes(h)[|h| - 21..|h| - 1])
  {
    hide HighBefore;
  }

  lemma {:induction false} Narrows(w: seq<Bar>)
    requires |w| == 60 && Contracting(w, DEFAULT_TRIANGLE) && WellFormedBars(w)
    ensures Sum(Ranges(w[40..])) <= 0.80 * Sum(Ranges(w[..20]))
  {
    var first, last := AvgRange(w[..20]), AvgRange(w[40..]);
    SumAtLeast(Ranges(w[..20]), 0.0);
    assert |w[..20]| == 20 && |w[40..]| == 20 && DEFAULT_TRIANGLE.window / 3 == 20;
    assert first * 20.0 == Sum(Ranges(w[..20])) && last * 20.0 == Sum(Ranges(w[40..]));
    hide *;
    AtMostShare(first, last, Sum(Ranges(w[..20])), Sum(Ranges(w[40..])));
  }

  lemma {:induction false} AtMostShare(first: real, last: real, firstSum: real, lastSum: real)
    requires first > 0.0 && last / first <= 0.80 && first * 20.0 == firstSum && last * 20.0 == lastSum
    ensures lastSum <= 0.80 * firstSum
  {
    var q := last / first;
    assert q * first == last;
    ProductMonotone(q, 0.80, first);
  }

  lemma {:induction false} NotAgainstSlope(w: seq<Bar>, close: real)
    requires Converging(w, close, DEFAULT_TRIANGLE) && close > 0.0
    ensures !TrendLines.Rising(TrendLines.AllExtrema(w, true, 2))
    ensures !TrendLines.Falling(TrendLines.AllExtrema(w, false, 2))
  {
    hide TrendLines.Slope, TrendLines.AllExtrema;
    var highs, lows := TrendLines.AllExtrema(w, true, 2), TrendLines.AllExtrema(w, false, 2);
    AllAscend(w, true);
    AllAscend(w, false);
    TrendLines.SlopeFollowsExtrema(highs);
    TrendLines.SlopeFollowsExtrema(lows);
    SlopeSign(TrendLines.Slope(highs), close);
    SlopeSign(TrendLines.Slope(lows), close);
  }

  lemma {:induction false} AllAscend(w: seq<Bar>, high: bool)
    ensures TrendLines.Ascending(TrendLines.AllExtrema(w, high, 2))
  {
    if |w| >= 2 {
      TrendLines.ExtremaAscend(w, high, 2, |w| - 2);
    }
  }

  lemma {:induction false} SlopeSign(slope: real, close: real)
    requires close > 0.0
    ensures slope > 0.0 ==> slope / close > 0.0
    ensures slope < 0.0 ==> slope / close < 0.0
  {
    if slope > 0.0 {
      QuotientPositive(slope, close);
    } else if slope < 0.0 {
      QuotientPositive(-slope, close);
      QuotientIs(slope, close, -(-slope / close));
    }
  }

  // ----- By strategy

  /** What the entry signal of each base strategy says about the last close. */
  lemma {:induction false} EntryMeans(sqrt: real -> real, strategy: Strategy, h: seq<Bar>)
    requires RootsSquares(sqrt) && EntrySignal(sqrt, strategy, h) && strategy != MultipleSignals
    ensures |h| >= 36
    ensures var c, n := Closes(h), |h|;
      && (strategy == MACDBullish ==> c[n - 1] > Ema(c, 12))
      && (strategy == BollingerBreakout ==> 20.0 * c[n - 1] > Sum(c[n - 20..]))
      && (strategy == TriangleFormation ==> forall j | n - 21 <= j < n - 1 :: c[n - 1] > h[j].high)
      && (strategy == MovingAverageCross ==> TopsMeans(c))
      && strategy != Unknown
  {
    hide MacdEntry, BollingerEntry, TriangleEntry, AverageEntry, Ema, TopsMeans;
    match strategy
    case MACDBullish => MacdEntryMeans(h);
    case BollingerBreakout => BollingerEntryMeans(sqrt, h);
    case TriangleFormation => TriangleEntryMeans(h);
    case MovingAverageCross => AverageEntryMeans(h);
    case _ =>
  }

  /** What the exit signal of each strategy says about the last closes: one of them falls through a mean, or the short
      mean through the long one, or the MACD line falls. */
  lemma {:induction false} ExitMeans(sqrt: real -> real, strategy: Strategy, h: seq<Bar>)
    requires RootsSquares(sqrt) && ExitSignal(sqrt, strategy, h)
    ensures |h| >= 21 && strategy != Unknown && (strategy != BollingerBreakout ==> |h| >= 26)
    ensures var c, n := Closes(h), |h|;
      && (strategy == MACDBullish ==> Macd(c, 12, 26, 9).macd < Macd(c[..n - 1], 12, 26, 9).macd)
      && (strategy == BollingerBreakout ==>
            20.0 * c[n - 1] < Sum(c[n - 20..]) && 20.0 * c[n - 2] >= Sum(c[n - 21..n - 1]))
      && (strategy == MovingAverageCross ==>
            5.0 * Sum(c[n - 5..]) < Sum(c[n - 25..]) && 5.0 * Sum(c[n - 6..n - 1]) >= Sum(c[n - 26..n - 1]))
      && (strategy == TriangleFormation || strategy == MultipleSignals ==>
            25.0 * c[n - 1] < Sum(c[n - 25..]) && 25.0 * c[n - 2] >= Sum(c[n - 26..n - 1]))
  {
    hide MacdExit, BollingerExit, TrendBreak, AverageExit, Macd;
    match strategy
    case MACDBullish => MacdExitMeans(h);
    case BollingerBreakout => BollingerExitMeans(sqrt, h);
    case MovingAverageCross => AverageExitMeans(h);
    case _ =>
      if TrendBreak(h) {
        TrendBreakMeans(h);
      }
  }

  /** The combined strategy signals exactly when two different base strategies do. */
  lemma {:induction false} MultipleMeansTwo(sqrt: real -> real, h: seq<Bar>)
    ensures EntrySignal(sqrt, MultipleSignals, h) <==>
      exists s, t | s in DailyPickScreening.BASE_STRATEGIES && t in DailyPickScreening.BASE_STRATEGIES && s != t ::
        EntrySignal(sqrt, s, h) && EntrySignal(sqrt, t, h)
  {
    hide MacdEntry, BollingerEntry, TriangleEntry, AverageEntry;
    var macd, bands := EntrySignal(sqrt, MACDBullish, h), EntrySignal(sqrt, BollingerBreakout, h);
    var triangle, average := EntrySignal(sqrt, TriangleFormation, h), EntrySignal(sqrt, MovingAverageCross, h);
    var b := DailyPickScreening.BASE_STRATEGIES;
    assert b[0] in b && b[1] in b && b[2] in b && b[3] in b;
  }

  // ----- No entry without a rise, no exit without a fall

  lemma {:induction false} MeanNotBelow(xs: seq<real>, lo: real)
    requires forall i | 0 <= i < |xs| :: xs[i] >= lo
    ensures |xs| as real * lo <= Sum(xs)
  {
    SumAtLeast(xs, lo);
  }

  lemma {:induction false} NoMacdEntry(h: seq<Bar>)
    requires NeverRises(h)
    ensures !MacdEntry(h)
  {
    hide MacdEntry, Ema, Macd;
    if MacdEntry(h) {
      MacdEntryMeans(h);
      var c, last := Closes(h), h[|h| - 1].close;
      forall i | 0 <= i < |h| ensures c[i] >= last {
        LastIsLowest(h, i);
      }
      EmaAtLeast(c, 12, last);
    }
  }

  lemma {:induction false} NoMeanEntry(sqrt: real -> real, h: seq<Bar>)
    requires RootsSquares(sqrt) && NeverRises(h)
    ensures !BollingerEntry(sqrt, h) && !AverageEntry(h)
  {
    hide BollingerEntry, AverageEntry;
    var c, n := Closes(h), |h|;
    forall i | 0 <= i < n ensures c[i] >= h[n - 1].close {
      LastIsLowest(h, i);
    }
    if BollingerEntry(sqrt, h) {
      BollingerEntryMeans(sqrt, h);
      MeanNotBelow(c[n - 20..], h[n - 1].close);
    }
    if AverageEntry(h) {
      AverageEntryMeans(h);
      MeanNotBelow(c[n - 5..], h[n - 1].close);
    }
  }

  lemma {:induction false} NoTriangleEntry(h: seq<Bar>)
    requires WellFormedBars(h) && NeverRises(h)
    ensures !TriangleEntry(h, DEFAULT_TRIANGLE)
  {
    hide TriangleEntry;
    if TriangleEntry(h, DEFAULT_TRIANGLE) {
      TriangleEntryMeans(h);
    }
  }

  /** On closes that never rise no strategy gives an entry signal. */
  lemma {:induction false} NoEntryWithoutRise(sqrt: real -> real, strategy: Strategy, h: seq<Bar>)
    requires RootsSquares(sqrt) && WellFormedBars(h) && NeverRises(h)
    ensures !EntrySignal(sqrt, strategy, h)
  {
    hide MacdEntry, BollingerEntry, TriangleEntry, AverageEntry;
    NoMacdEntry(h);
    NoMeanEntry(sqrt, h);
    NoTriangleEntry(h);
  }

  lemma {:induction false} NothingEntered(prices: seq<Bar>, entries: seq<bool>, exits: seq<bool>, params: ExitParams,
                                          days: nat)
    requires Tradable(prices) && |entries| == |prices| && days <= |prices| && forall i | 0 <= i < days :: !entries[i]
    ensures Run(prices, entries, exits, params, days) == Book(None, [])
  {
    if days > 0 {
      NothingEntered(prices, entries, exits, params, days - 1);
    }
  }

  /** So in a market that never rises no strategy trades at all, and the equity stays at one. */
  lemma {:induction false} FallingMarketUntraded(sqrt: real -> real, strategy: Strategy, exits: seq<bool>,
                                                 prices: seq<Bar>, params: ExitParams)
    requires Tradable(prices) && ValidCosts(params)
    requires RootsSquares(sqrt) && WellFormedBars(prices) && NeverRises(prices)
    ensures var entries := Entries(sqrt, strategy, prices);
      && Ledger(prices, entries, exits, params) == []
      && forall x | x in EquityCurve(prices, entries, exits, params, |prices|) :: x == 1.0
  {
    hide EntrySignal, Run;
    var entries := Entries(sqrt, strategy, prices);
    forall i | 0 <= i < |prices| ensures !entries[i] {
      NoEntryWithoutRise(sqrt, strategy, prices[..i + 1]);
    }
    forall days | 0 <= days <= |prices| ensures Run(prices, entries, exits, params, days) == Book(None, []) {
      NothingEntered(prices, entries, exits, params, days);
    }
  }

  /** Nor is a stock that never rises, or whose bars fall every day, ever a candidate for the day's picks. */
  lemma {:induction false} FallingStockNotPicked(sqrt: real -> real, h: seq<Bar>, f: DailyPickScreening.FilterParams)
    requires RootsSquares(sqrt) && WellFormedBars(h) && (NeverRises(h) || BarsFall(h))
    ensures !DailyPickScreening.Qualifies(sqrt, h, f)
  {
    hide EntrySignal, DailyPickScreening.PassesHardFilters;
    if BarsFall(h) && |h| >= 28 {
      DirectionalIndices(h, 14);
    }
    if NeverRises(h) {
      forall s: Strategy ensures !EntrySignal(sqrt, s, h) {
        NoEntryWithoutRise(sqrt, s, h);
      }
      NothingLit(sqrt, DailyPickScreening.BASE_STRATEGIES, h);
    }
  }

  lemma {:induction false} NothingLit(sqrt: real -> real, strategies: seq<Strategy>, h: seq<Bar>)
    requires forall s: Strategy :: !EntrySignal(sqrt, s, h)
    ensures DailyPickScreening.Lit(sqrt, strategies, h) == []
    decreases |strategies|
  {
    hide EntrySignal;
    if strategies != [] {
      NothingLit(sqrt, strategies[..|strategies| - 1], h);
    }
  }

  lemma {:induction false} SumSplit(xs: seq<real>, k: nat)
    requires k <= |xs|
    ensures Sum(xs) == Sum(xs[..k]) + Sum(xs[k..])
    decreases |xs|
  {
    if k == |xs| {
      assert xs[..k] == xs;
    } else {
      var n := |xs| - 1;
      SumSplit(xs[..n], k);
      assert xs[..n][..k] == xs[..k] && xs[k..] == xs[..n][k..] + [xs[n]];
      SumAppend(xs[..n][k..], xs[n]);
    }
  }

  /** Of closes that never fall the last five have no smaller mean than the last twenty-five. */
  lemma {:induction false} ShortMeanLeads(c: seq<real>)
    requires NeverFalls(c) && |c| >= 25
    ensures 5.0 * Sum(c[|c| - 5..]) >= Sum(c[|c| - 25..])
  {
    var n := |c|;
    var w := c[n - 25..];
    SumSplit(w, 20);
    assert w[20..] == c[n - 5..];
    forall i | 0 <= i < 25 ensures i < 20 ==> w[i] <= c[n - 5]
      ensures i >= 20 ==> w[i] >= c[n - 5]
    {
      if i < 20 {
        LastIsHighest(c, n - 25 + i, n - 5);
      } else {
        LastIsHighest(c, n - 5, n - 25 + i);
      }
    }
    SumAtMost(w[..20], c[n - 5]);
    SumAtLeast(w[20..], c[n - 5]);
  }

  lemma {:induction false} LastAboveMean(c: seq<real>, period: nat)
    requires NeverFalls(c) && 1 <= period <= |c|
    ensures Sum(c[|c| - period..]) <= c[|c| - 1] * period as real
  {
    forall i | |c| - period <= i < |c| ensures c[i] <= c[|c| - 1] {
      LastIsHighest(c, i, |c| - 1);
    }
    SumAtMost(c[|c| - period..], c[|c| - 1]);
  }

  /** On closes that never fall no strategy but the MACD, which can slow down while it rises, gives an exit signal. */
  lemma {:induction false} NoExitWithoutFall(sqrt: real -> real, strategy: Strategy, h: seq<Bar>)
    requires RootsSquares(sqrt) && NeverFalls(Closes(h)) && strategy != MACDBullish
    ensures !ExitSignal(sqrt, strategy, h)
  {
    hide MacdExit, BollingerExit, TrendBreak, AverageExit;
    var c := Closes(h);
    if BollingerExit(sqrt, h) {
      BollingerExitMeans(sqrt, h);
      LastAboveMean(c, 20);
    }
    if TrendBreak(h) {
      TrendBreakMeans(h);
      LastAboveMean(c, 25);
    }
    if AverageExit(h) {
      AverageExitMeans(h);
      ShortMeanLeads(c);
    }
  }
}
