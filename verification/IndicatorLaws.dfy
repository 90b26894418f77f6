/** What the indicators say about the prices they are computed from: which way they point, and when they are extreme. */
module IndicatorLaws {
  import opened Decimals
  import opened MarketData
  import opened Indicators
  import opened Oscillators
  import opened IndicatorBounds

  // ----- RSI

  ghost predicate NeverFalls(h: seq<real>) {
    forall i | 1 <= i < |h| :: h[i - 1] <= h[i]
  }

  ghost predicate AlwaysFalls(h: seq<real>) {
    forall i | 1 <= i < |h| :: h[i] < h[i - 1]
  }

  /** On every day one of gain and loss is zero, and altogether they make up the way from the first price to the
      last. */
  lemma {:induction false} GainsLessLosses(h: seq<real>)
    requires |h| >= 1
    ensures forall i | 0 <= i < |h| - 1 ::
      Gains(h)[i] >= 0.0 && Losses(h)[i] >= 0.0 && (Gains(h)[i] == 0.0 || Losses(h)[i] == 0.0)
    ensures Sum(Gains(h)) - Sum(Losses(h)) == h[|h| - 1] - h[0]
    decreases |h|
  {
    if |h| > 1 {
      var n := |h| - 1;
      GainsLessLosses(h[..n]);
      assert Gains(h)[..n - 1] == Gains(h[..n]) && Losses(h)[..n - 1] == Losses(h[..n]);
    }
  }

  /** The index is the share of the average gain in the average gain and loss. */
  lemma {:induction false} RsiIsShare(h: seq<real>, period: nat)
    requires 1 <= period < |h|
    ensures var gain, loss := Wilder(Gains(h), period), Wilder(Losses(h), period);
      gain + loss > 0.0 ==> Rsi(h, period) * (gain + loss) == 100.0 * gain
  {
    hide Wilder, StrengthIndex;
    GainsAndLosses(h, period);
    if Wilder(Gains(h), period) + Wilder(Losses(h), period) > 0.0 {
      StrengthIsShare(Wilder(Gains(h), period), Wilder(Losses(h), period));
    }
  }

  lemma {:induction false} StrengthIsShare(gain: real, loss: real)
    requires gain >= 0.0 && loss >= 0.0 && gain + loss > 0.0
    ensures StrengthIndex(gain, loss) * (gain + loss) == 100.0 * gain
  {
    if loss > 0.0 {
      var q := gain / loss;
      assert q * loss == gain;
      var p := 100.0 / (1.0 + q);
      QuotientAtLeast(gain, 0.0, loss);
      assert p * (1.0 + q) == 100.0;
      assert (gain + loss) == (1.0 + q) * loss;
      assert p * (gain + loss) == (p * (1.0 + q)) * loss;
    }
  }

  /** Prices that fall every day have index 0, and prices that never fall have index 100. */
  lemma {:induction false} RsiOfTrends(h: seq<real>, period: nat)
    requires 1 <= period < |h|
    ensures AlwaysFalls(h) ==> Rsi(h, period) == 0.0
    ensures NeverFalls(h) ==> Rsi(h, period) == 100.0
  {
    hide Wilder, StrengthIndex;
    GainsAndLosses(h, period);
    var gain, loss := Wilder(Gains(h), period), Wilder(Losses(h), period);
    if AlwaysFalls(h) {
      WilderAtMost(Gains(h), period, 0.0);
      WilderPositive(Losses(h), period);
      StrengthIsShare(gain, loss);
      ZeroFactor(StrengthIndex(gain, loss), gain + loss);
    }
    if NeverFalls(h) {
      WilderAtMost(Losses(h), period, 0.0);
      NoLossIsStrong(gain, loss);
    }
  }

  lemma {:induction false} NoLossIsStrong(gain: real, loss: real)
    requires gain >= 0.0 && loss == 0.0
    ensures StrengthIndex(gain, loss) == 100.0
  {
  }

  lemma {:induction false} ZeroFactor(x: real, y: real)
    requires y > 0.0 && x * y == 0.0
    ensures x == 0.0
  {
  }

  lemma {:induction false} WilderPositive(xs: seq<real>, period: nat)
    requires 1 <= period <= |xs| && forall i | 0 <= i < |xs| :: xs[i] > 0.0
    ensures Wilder(xs, period) > 0.0
    decreases |xs|
  {
    var n := |xs| - 1;
    if |xs| == period {
      SumAtLeast(xs[..n], 0.0);
      QuotientPositive(Sum(xs), period as real);
    } else {
      WilderPositive(xs[..n], period);
      WeightedPositive(Wilder(xs[..n], period), xs[n], period);
    }
  }

  lemma {:induction false} WeightedPositive(previous: real, x: real, period: nat)
    requires period >= 1 && previous >= 0.0 && x > 0.0
    ensures Smooth(previous, x, period) > 0.0
  {
    ProductMonotone(0.0, previous, (period - 1) as real);
    QuotientPositive(previous * (period - 1) as real + x, period as real);
  }

  /** A higher last close never lowers the index. */
  lemma {:induction false} RsiRisesWithClose(h: seq<real>, a: real, b: real, period: nat)
    requires 1 <= period <= |h| && a <= b
    ensures Rsi(h + [a], period) <= Rsi(h + [b], period)
  {
    hide Wilder, StrengthIndex;
    GainsAndLosses(h + [a], period);
    GainsAndLosses(h + [b], period);
    LastMove(h, a, b);
    WilderMonotone(Gains(h + [a]), Gains(h + [b]), period);
    WilderMonotone(Losses(h + [b]), Losses(h + [a]), period);
    StrengthMonotone(Wilder(Gains(h + [a]), period), Wilder(Losses(h + [a]), period),
      Wilder(Gains(h + [b]), period), Wilder(Losses(h + [b]), period));
  }

  lemma {:induction false} LastMove(h: seq<real>, a: real, b: real)
    requires |h| >= 1 && a <= b
    ensures forall i | 0 <= i < |h| ::
      Gains(h + [a])[i] <= Gains(h + [b])[i] && Losses(h + [b])[i] <= Losses(h + [a])[i]
  {
  }

  lemma {:induction false} WilderMonotone(xs: seq<real>, ys: seq<real>, period: nat)
    requires 1 <= period <= |xs| == |ys| && forall i | 0 <= i < |xs| :: xs[i] <= ys[i]
    ensures Wilder(xs, period) <= Wilder(ys, period)
    decreases |xs|
  {
    hide Smooth;
    var n := |xs| - 1;
    if |xs| == period {
      SumMonotone(xs, ys);
      QuotientMonotone(Sum(xs), Sum(ys), period as real);
    } else {
      WilderMonotone(xs[..n], ys[..n], period);
      SmoothMonotone(Wilder(xs[..n], period), xs[n], Wilder(ys[..n], period), ys[n], period);
    }
  }

  lemma {:induction false} SumMonotone(xs: seq<real>, ys: seq<real>)
    requires |xs| == |ys| && forall i | 0 <= i < |xs| :: xs[i] <= ys[i]
    ensures Sum(xs) <= Sum(ys)
    decreases |xs|
  {
    if xs != [] {
      SumMonotone(xs[..|xs| - 1], ys[..|ys| - 1]);
    }
  }

  lemma {:induction false} StrengthMonotone(gain: real, loss: real, gain': real, loss': real)
    requires 0.0 <= gain <= gain' && 0.0 <= loss' <= loss
    ensures StrengthIndex(gain, loss) <= StrengthIndex(gain', loss')
  {
    StrengthBounds(gain, loss);
    if loss' > 0.0 {
      var q, q' := gain / loss, gain' / loss';
      assert q * loss == gain && q' * loss' == gain';
      QuotientAtLeast(gain, 0.0, loss);
      QuotientAtLeast(gain', 0.0, loss');
      ProductMonotone(loss', loss, q);
      QuotientAtLeast(gain', q, loss');
      var p := 100.0 / (1.0 + q);
      assert p * (1.0 + q) == 100.0;
      QuotientAtLeast(100.0, 0.0, 1.0 + q);
      ProductMonotone(1.0 + q, 1.0 + q', p);
      QuotientAtMost(100.0, p, 1.0 + q');
    }
  }

  // ----- True range and directional movement

  /** The true range is the length of the shortest interval that holds the bar and the close before it. */
  lemma {:induction false} TrueRangeIsSpan(high: real, low: real, prevClose: real)
    requires low <= high
    ensures TrueRange(high, low, prevClose) == Max(high, prevClose) - Min(low, prevClose)
  {
  }

  /** A bar moves up exactly when its high is higher and its middle is higher, and then by as much as its high is
      higher; and down likewise. */
  lemma {:induction false} MovementDirection(before: Bar, bar: Bar)
    ensures PlusDM(before, bar) > 0.0 <==> bar.high > before.high && bar.high + bar.low > before.high + before.low
    ensures PlusDM(before, bar) > 0.0 ==> PlusDM(before, bar) == bar.high - before.high
    ensures MinusDM(before, bar) > 0.0 <==> bar.low < before.low && bar.high + bar.low < before.high + before.low
    ensures MinusDM(before, bar) > 0.0 ==> MinusDM(before, bar) == before.low - bar.low
    ensures PlusDM(before, bar) >= 0.0 && MinusDM(before, bar) >= 0.0
  {
  }

  ghost predicate BarsRise(h: seq<Bar>) {
    forall i | 1 <= i < |h| :: h[i - 1].high < h[i].high && h[i - 1].low < h[i].low
  }

  ghost predicate BarsFall(h: seq<Bar>) {
    forall i | 1 <= i < |h| :: h[i].high < h[i - 1].high && h[i].low < h[i - 1].low
  }

  lemma {:induction false} AccumulatedZero(xs: seq<real>, period: nat)
    requires 1 <= period <= |xs| && forall i | 0 <= i < |xs| :: xs[i] == 0.0
    ensures Accumulated(xs, period) == 0.0
    decreases |xs|
  {
    var n := |xs| - 1;
    if |xs| == period {
      SumAtLeast(xs, 0.0);
      SumAtMost(xs, 0.0);
    } else {
      AccumulatedZero(xs[..n], period);
    }
  }

  lemma {:induction false} AccumulatedPositive(xs: seq<real>, period: nat)
    requires 1 <= period <= |xs| && forall i | 0 <= i < |xs| :: xs[i] > 0.0
    ensures Accumulated(xs, period) > 0.0
    decreases |xs|
  {
    var n := |xs| - 1;
    if |xs| == period {
      SumAtLeast(xs[..n], 0.0);
    } else {
      AccumulatedPositive(xs[..n], period);
      var a := Accumulated(xs[..n], period);
      QuotientAtMost(a, a, period as real);
    }
  }

  lemma {:induction false} PercentOf(part: real, whole: real)
    requires 0.0 <= part <= whole
    ensures part == 0.0 ==> Percent(part, whole) == 0.0
    ensures part > 0.0 ==> Percent(part, whole) > 0.0
  {
    if part > 0.0 {
      QuotientPositive(part, whole);
    } else if whole > 0.0 {
      QuotientIs(part, whole, 0.0);
    }
  }

  /** Bars that rise every day have a positive +DI and no -DI, and bars that fall every day the reverse. */
  lemma {:induction false} DirectionalIndices(h: seq<Bar>, period: nat)
    requires 1 <= period < |h| && WellFormedBars(h)
    ensures BarsRise(h) ==> PlusDI(h, period) > 0.0 && MinusDI(h, period) == 0.0
    ensures BarsFall(h) ==> MinusDI(h, period) > 0.0 && PlusDI(h, period) == 0.0
  {
    hide PlusDM, MinusDM, TrueRange, Accumulated, Percent;
    var plus, minus, ranges := PlusDMs(h), MinusDMs(h), TrueRanges(h);
    forall i | 0 <= i < |h| - 1
      ensures plus[i] >= 0.0 && minus[i] >= 0.0 && plus[i] + minus[i] <= ranges[i]
      ensures BarsRise(h) ==> plus[i] > 0.0 && minus[i] == 0.0
      ensures BarsFall(h) ==> minus[i] > 0.0 && plus[i] == 0.0
    {
      MovementWithinRange(h[i], h[i + 1]);
      MovementDirection(h[i], h[i + 1]);
    }
    AccumulatedDominates(plus, minus, ranges, period);
    PercentOf(Accumulated(plus, period), Accumulated(ranges, period));
    PercentOf(Accumulated(minus, period), Accumulated(ranges, period));
    if BarsRise(h) {
      AccumulatedPositive(plus, period);
      AccumulatedZero(minus, period);
    }
    if BarsFall(h) {
      AccumulatedPositive(minus, period);
      AccumulatedZero(plus, period);
    }
  }

  lemma {:induction false} OneSided(pdi: real, mdi: real)
    requires pdi >= 0.0 && mdi >= 0.0
    ensures pdi == mdi ==> Spread(pdi, mdi) == 0.0
    ensures (pdi == 0.0) != (mdi == 0.0) ==> Spread(pdi, mdi) == 100.0
  {
    if pdi != mdi {
      QuotientIs(pdi + mdi, pdi + mdi, 1.0);
    } else if pdi + mdi > 0.0 {
      QuotientIs(0.0, pdi + mdi, 0.0);
    }
  }

  /** A trend that never turns, up or down, has the full strength. */
  lemma {:induction false} AdxOfTrends(h: seq<Bar>, period: nat)
    requires 1 <= period && 2 * period <= |h| && WellFormedBars(h) && (BarsRise(h) || BarsFall(h))
    ensures Adx(h, period) == 100.0
  {
    hide PlusDI, MinusDI, Spread, Wilder;
    var xs := DxTail(h, period);
    forall j | 0 <= j < |xs| ensures xs[j] == 100.0 {
      var g := h[..period + j + 1];
      DirectionalIndices(g, period);
      OneSided(PlusDI(g, period), MinusDI(g, period));
      assert BarsRise(h) ==> BarsRise(g);
      assert BarsFall(h) ==> BarsFall(g);
      assert xs[j] == Spread(PlusDI(g, period), MinusDI(g, period));
    }
    WilderAtLeast(xs, period, 100.0);
    WilderAtMost(xs, period, 100.0);
  }

  // ----- Stochastics

  /** %K is 100 on a close at the top of its window and 0 at the bottom, and rises with the close in between. */
  lemma {:induction false} PositionExtremes(hh: real, ll: real, a: real, b: real)
    requires ll < hh && a <= b
    ensures Position(hh, hh, ll) == 100.0 && Position(ll, hh, ll) == 0.0
    ensures Position(a, hh, ll) <= Position(b, hh, ll)
  {
    QuotientIs(hh - ll, hh - ll, 1.0);
    QuotientMonotone(a - ll, b - ll, hh - ll);
  }

  lemma {:induction false} RangeAttained(bars: seq<Bar>) returns (top: nat, bottom: nat)
    requires |bars| >= 1
    ensures top < |bars| && bars[top].high == Highest(bars)
    ensures bottom < |bars| && bars[bottom].low == Lowest(bars)
    decreases |bars|
  {
    var n := |bars| - 1;
    if n == 0 {
      top, bottom := 0, 0;
    } else {
      top, bottom := RangeAttained(bars[..n]);
      if bars[n].high > Highest(bars[..n]) {
        top := n;
      }
      if bars[n].low < Lowest(bars[..n]) {
        bottom := n;
      }
    }
  }

  /** The same over bars: the last close is at least every high, or at most every low, of its window. */
  lemma {:induction false} FastKExtremes(h: seq<Bar>, kPeriod: nat)
    requires 1 <= kPeriod <= |h| && WellFormedBars(h)
    requires exists i, j | |h| - kPeriod <= i < |h| && |h| - kPeriod <= j < |h| :: h[i].low < h[j].high
    ensures (forall i | |h| - kPeriod <= i < |h| :: h[i].high <= h[|h| - 1].close) ==> FastK(h, kPeriod) == 100.0
    ensures (forall i | |h| - kPeriod <= i < |h| :: h[i].low >= h[|h| - 1].close) ==> FastK(h, kPeriod) == 0.0
  {
    hide *;
    var w := Window(h, kPeriod);
    FastKIs(h, kPeriod);
    var top, bottom := RangeAttained(w);
    var i, j :| |h| - kPeriod <= i < |h| && |h| - kPeriod <= j < |h| && h[i].low < h[j].high;
    RangeCovers(w, i - (|h| - kPeriod));
    RangeCovers(w, j - (|h| - kPeriod));
    RangeCovers(w, kPeriod - 1);
    OwnRange(h);
    PositionExtremes(Highest(w), Lowest(w), 0.0, 0.0);
  }

  lemma {:induction false} FastKIs(h: seq<Bar>, kPeriod: nat)
    requires 1 <= kPeriod <= |h|
    ensures var w := Window(h, kPeriod);
      && |w| == kPeriod && (forall i | 0 <= i < kPeriod :: w[i] == h[|h| - kPeriod + i])
      && FastK(h, kPeriod) == Position(h[|h| - 1].close, Highest(w), Lowest(w))
  {
    hide Position, Highest, Lowest;
  }

  lemma {:induction false} OwnRange(h: seq<Bar>)
    requires WellFormedBars(h) && h != []
    ensures h[|h| - 1].low <= h[|h| - 1].close <= h[|h| - 1].high
  {
  }

  /** %D is the level of %K where that has kept one for `dPeriod` days, whatever came before. */
  lemma {:induction false} SlowDOfLevel(h: seq<Bar>, kPeriod: nat, dPeriod: nat, level: real)
    requires kPeriod >= 1 && dPeriod >= 1 && |h| >= kPeriod + dPeriod - 1
    requires forall m | |h| - dPeriod < m <= |h| :: FastK(h[..m], kPeriod) == level
    ensures SlowD(h, kPeriod, dPeriod) == level
  {
    hide FastK;
    var ks := RecentK(h, kPeriod, dPeriod);
    SumAtLeast(ks, level);
    SumAtMost(ks, level);
    QuotientIs(Sum(ks), dPeriod as real, level);
  }

  // ----- Bollinger bands

  ghost predicate RootsSquares(sqrt: real -> real) {
    forall x | x >= 0.0 :: sqrt(x) >= 0.0 && sqrt(x) * sqrt(x) == x
  }

  function Squares(xs: seq<real>): (ys: seq<real>)
    ensures |ys| == |xs|
  {
    SquaredDistances(xs, 0.0)
  }

  /** The squared distances from c, as a sum of squares. */
  lemma {:induction false} DistancesExpand(xs: seq<real>, c: real)
    ensures Sum(SquaredDistances(xs, c)) == Sum(Squares(xs)) - 2.0 * c * Sum(xs) + |xs| as real * c * c
    ensures Sum(SquaredDistances(xs, c)) >= 0.0
    decreases |xs|
  {
    hide *;
    if xs == [] {
      NoDistances(c);
    } else {
      var init, x := xs[..|xs| - 1], xs[|xs| - 1];
      assert xs == init + [x];
      DistancesExpand(init, c);
      DistancesSnoc(init, x, c);
      ExpandStep(|init| as real, Sum(SquaredDistances(init, c)), Sum(Squares(init)), Sum(init), c, x);
    }
  }

  lemma {:induction false} NoDistances(c: real)
    ensures Sum(SquaredDistances([], c)) == 0.0 && Sum(Squares([])) == 0.0 && Sum([]) == 0.0
  {
  }

  lemma {:induction false} DistancesSnoc(xs: seq<real>, x: real, c: real)
    ensures Sum(SquaredDistances(xs + [x], c)) == Sum(SquaredDistances(xs, c)) + (x - c) * (x - c)
    ensures Sum(Squares(xs + [x])) == Sum(Squares(xs)) + x * x
    ensures Sum(xs + [x]) == Sum(xs) + x
  {
    DistancesAppend(xs, x, c);
    DistancesAppend(xs, x, 0.0);
    SumAppend(SquaredDistances(xs, c), (x - c) * (x - c));
    SumAppend(Squares(xs), (x - 0.0) * (x - 0.0));
    SumAppend(xs, x);
  }

  lemma {:induction false} DistancesAppend(xs: seq<real>, x: real, c: real)
    ensures SquaredDistances(xs + [x], c) == SquaredDistances(xs, c) + [(x - c) * (x - c)]
  {
    var longer := xs + [x];
    forall i | 0 <= i <= |xs|
      ensures SquaredDistances(longer, c)[i] == (SquaredDistances(xs, c) + [(x - c) * (x - c)])[i]
    {
      assert longer[i] == if i < |xs| then xs[i] else x;
    }
  }

  lemma {:induction false} ExpandStep(n: real, distances: real, squares: real, sum: real, c: real, x: real)
    requires distances == squares - 2.0 * c * sum + n * c * c && distances >= 0.0
    ensures distances + (x - c) * (x - c) == squares + x * x - 2.0 * c * (sum + x) + (n + 1.0) * c * c
    ensures distances + (x - c) * (x - c) >= 0.0
  {
    assert (x - c) * (x - c) == x * x - 2.0 * c * x + c * c;
    assert 2.0 * c * (sum + x) == 2.0 * c * sum + 2.0 * c * x;
    assert (n + 1.0) * c * c == n * c * c + c * c;
    SquareNonNegative(x - c);
  }

  lemma {:induction false} SquareNonNegative(x: real)
    ensures x * x >= 0.0
  {
  }

  /** The bands lie symmetrically about the mean of the window, at `multiplier` times the root of its variance, which is
      the mean square less the square of the mean. */
  lemma {:induction false} BandsMeasureSpread(sqrt: real -> real, h: seq<real>, period: nat, multiplier: real)
    requires RootsSquares(sqrt) && 1 <= period <= |h| && multiplier >= 0.0
    ensures var b, w, n := Bollinger(sqrt, h, period, multiplier), h[|h| - period..], period as real;
      && b.middle * n == Sum(w)
      && b.lower <= b.middle <= b.upper && b.upper - b.middle == b.middle - b.lower
      && (b.upper - b.middle) * (b.upper - b.middle) * n
         == multiplier * multiplier * (Sum(Squares(w)) - b.middle * Sum(w))
      && b.bandWidth * b.middle == if b.middle == 0.0 then 0.0 else b.upper - b.lower
  {
    hide *;
    var w, n, mean := Window(h, period), period as real, WindowMean(h, period);
    var distances := Sum(SquaredDistances(w, mean));
    BollingerIs(sqrt, h, period, multiplier);
    DistancesExpand(w, mean);
    MeanRemoved(n, mean, distances, Sum(w), Sum(Squares(w)));
    QuotientAtLeast(distances, 0.0, n);
    RootOf(sqrt, distances / n);
    BandsAround(mean, sqrt(distances / n), multiplier, distances, n);
  }

  lemma {:induction false} BollingerIs(sqrt: real -> real, h: seq<real>, period: nat, multiplier: real)
    requires 1 <= period <= |h|
    ensures var w, mean := h[|h| - period..], WindowMean(h, period);
      && w == Window(h, period) && |w| == period && mean * period as real == Sum(w)
      && Bollinger(sqrt, h, period, multiplier)
         == Bands(mean, sqrt(Sum(SquaredDistances(w, mean)) / period as real), multiplier)
  {
    hide Sum, SquaredDistances, Bands;
  }

  lemma {:induction false} RootOf(sqrt: real -> real, x: real)
    requires RootsSquares(sqrt) && x >= 0.0
    ensures sqrt(x) >= 0.0 && sqrt(x) * sqrt(x) == x
  {
  }

  lemma {:induction false} MeanRemoved(n: real, mean: real, distances: real, sum: real, squares: real)
    requires mean * n == sum && distances == squares - 2.0 * mean * sum + n * mean * mean
    ensures distances == squares - mean * sum
  {
    assert n * mean * mean == mean * sum;
  }

  lemma {:induction false} BandsAround(mean: real, root: real, multiplier: real, distances: real, n: real)
    requires n > 0.0 && root >= 0.0 && root * root == distances / n && multiplier >= 0.0
    ensures var b := Bands(mean, root, multiplier);
      && b.middle == mean && b.lower <= mean <= b.upper && b.upper - mean == mean - b.lower
      && (b.upper - mean) * (b.upper - mean) * n == multiplier * multiplier * distances
      && b.bandWidth * mean == if mean == 0.0 then 0.0 else b.upper - b.lower
  {
    var width := multiplier * root;
    ProductMonotone(0.0, multiplier, root);
    assert distances == (root * root) * n;
    assert width * width == (multiplier * multiplier) * (root * root);
    assert (width * width) * n == (multiplier * multiplier) * ((root * root) * n);
  }
}
