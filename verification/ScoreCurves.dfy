/** The score of a daily pick: six factors, each normalised by a broken line, then weighted. */
module ScoreCurves {
  import opened Decimals

  datatype Breakpoint = Breakpoint(x: real, y: real)

  ghost predicate Ascending(points: seq<Breakpoint>) {
    forall i, j | 0 <= i < j < |points| :: points[i].x < points[j].x
  }

  /** Like Ascending, but equal abscissae may follow one another. */
  ghost predicate NonDescending(points: seq<Breakpoint>) {
    forall i, j | 0 <= i < j < |points| :: points[i].x <= points[j].x
  }

  ghost predicate Rising(points: seq<Breakpoint>) {
    forall i, j | 0 <= i < j < |points| :: points[i].y <= points[j].y
  }

  ghost predicate WithinY(points: seq<Breakpoint>, lo: real, hi: real) {
    forall i | 0 <= i < |points| :: lo <= points[i].y <= hi
  }

  /** The height at v of the segment from p0 to p1; of p1 when the segment is vertical. */
  function OnSegment(v: real, p0: Breakpoint, p1: Breakpoint): real {
    var denom := p1.x - p0.x;
    if denom == 0.0 then p1.y else p0.y + (p1.y - p0.y) * ((v - p0.x) / denom)
  }

  /** The height at v of the first segment, from the i-th on, whose span holds v. */
  function Scan(v: real, points: seq<Breakpoint>, i: nat): real
    requires |points| > 0
    decreases |points| - i
  {
    if i >= |points| - 1 then points[|points| - 1].y
    else if points[i].x <= v <= points[i + 1].x then OnSegment(v, points[i], points[i + 1])
    else Scan(v, points, i + 1)
  }

  function NormalizeByBreakpoints(v: real, points: seq<Breakpoint>): real {
    if |points| == 0 then 0.0
    else if v <= points[0].x then points[0].y
    else if v >= points[|points| - 1].x then points[|points| - 1].y
    else Scan(v, points, 0)
  }

  // ----- Segments

  lemma {:induction false} WeightedBounds(weight: real, y: real, product: real)
    requires weight >= 0.0 && 0.0 <= y <= 1.0 && product == weight * y
    ensures 0.0 <= product <= weight
  {
    ProductMonotone(0.0, y, weight);
    ProductMonotone(y, 1.0, weight);
  }

  lemma {:induction false} Blend(y0: real, y1: real, ratio: real)
    requires 0.0 <= ratio <= 1.0
    ensures Min(y0, y1) <= y0 + (y1 - y0) * ratio <= Max(y0, y1)
  {
    var d := y1 - y0;
    if d >= 0.0 {
      WeightedBounds(d, ratio, d * ratio);
    } else {
      WeightedBounds(-d, ratio, -(d * ratio));
    }
  }

  lemma {:induction false} RatioBounds(v: real, x0: real, x1: real)
    requires x0 <= v <= x1 && x0 < x1
    ensures 0.0 <= (v - x0) / (x1 - x0) <= 1.0
  {
    QuotientAtLeast(v - x0, 0.0, x1 - x0);
    QuotientAtMost(v - x0, 1.0, x1 - x0);
  }

  lemma {:induction false} SegmentBounds(v: real, p0: Breakpoint, p1: Breakpoint)
    requires p0.x <= v <= p1.x
    ensures Min(p0.y, p1.y) <= OnSegment(v, p0, p1) <= Max(p0.y, p1.y)
  {
    if p0.x < p1.x {
      RatioBounds(v, p0.x, p1.x);
      Blend(p0.y, p1.y, (v - p0.x) / (p1.x - p0.x));
    }
  }

  lemma {:induction false} SegmentEnds(p0: Breakpoint, p1: Breakpoint)
    requires p0.x < p1.x
    ensures OnSegment(p0.x, p0, p1) == p0.y && OnSegment(p1.x, p0, p1) == p1.y
  {
    QuotientIs(p1.x - p0.x, p1.x - p0.x, 1.0);
    QuotientIs(p0.x - p0.x, p1.x - p0.x, 0.0);
  }

  lemma {:induction false} SegmentRises(v: real, w: real, p0: Breakpoint, p1: Breakpoint)
    requires p0.x <= v <= w <= p1.x && p0.x < p1.x && p0.y <= p1.y
    ensures OnSegment(v, p0, p1) <= OnSegment(w, p0, p1)
  {
    QuotientMonotone(v - p0.x, w - p0.x, p1.x - p0.x);
    var a, b := (v - p0.x) / (p1.x - p0.x), (w - p0.x) / (p1.x - p0.x);
    ProductMonotone(a, b, p1.y - p0.y);
  }

  // ----- The whole line

  /** With ascending abscissae the curve is, on each span, exactly the segment between its two breakpoints. */
  lemma {:induction false} CurveIsSegment(v: real, points: seq<Breakpoint>, i: nat)
    requires Ascending(points) && i + 1 < |points| && points[i].x <= v <= points[i + 1].x
    ensures NormalizeByBreakpoints(v, points) == OnSegment(v, points[i], points[i + 1])
  {
    hide OnSegment;
    var n := |points| - 1;
    if v <= points[0].x {
      SegmentEnds(points[0], points[1]);
    } else if v >= points[n].x {
      SegmentEnds(points[n - 1], points[n]);
    } else {
      ScanFinds(v, points, 0, i);
    }
  }

  lemma {:induction false} ScanFinds(v: real, points: seq<Breakpoint>, from: nat, i: nat)
    requires Ascending(points) && from <= i && i + 1 < |points| && points[i].x <= v <= points[i + 1].x
    ensures Scan(v, points, from) == OnSegment(v, points[i], points[i + 1])
    decreases i - from
  {
    hide OnSegment;
    if from < i {
      if v <= points[from + 1].x {
        SegmentEnds(points[from], points[i]);
        SegmentEnds(points[i], points[i + 1]);
      } else {
        ScanFinds(v, points, from + 1, i);
      }
    }
  }

  /** The curve passes through every breakpoint. */
  lemma {:induction false} PassesThroughBreakpoints(points: seq<Breakpoint>, i: nat)
    requires Ascending(points) && i < |points|
    ensures NormalizeByBreakpoints(points[i].x, points) == points[i].y
  {
    hide OnSegment, NormalizeByBreakpoints;
    if |points| == 1 {
      OnePoint(points, points[0].x);
    } else if i + 1 < |points| {
      CurveIsSegment(points[i].x, points, i);
      SegmentEnds(points[i], points[i + 1]);
    } else {
      CurveIsSegment(points[i].x, points, i - 1);
      SegmentEnds(points[i - 1], points[i]);
    }
  }

  lemma {:induction false} OnePoint(points: seq<Breakpoint>, v: real)
    requires |points| == 1
    ensures NormalizeByBreakpoints(v, points) == points[0].y
  {
  }

  /** On each span the curve stays between the heights of the two breakpoints. */
  lemma {:induction false} BetweenNeighbours(v: real, points: seq<Breakpoint>, i: nat)
    requires Ascending(points) && i + 1 < |points| && points[i].x <= v <= points[i + 1].x
    ensures Min(points[i].y, points[i + 1].y) <= NormalizeByBreakpoints(v, points) <= Max(points[i].y, points[i + 1].y)
  {
    hide OnSegment, NormalizeByBreakpoints, Min, Max;
    CurveIsSegment(v, points, i);
    SegmentBounds(v, points[i], points[i + 1]);
  }

  /** Whatever the order of the breakpoints, the curve stays within the range of their heights. */
  lemma {:induction false} CurveWithinY(v: real, points: seq<Breakpoint>, lo: real, hi: real)
    requires |points| > 0 && WithinY(points, lo, hi)
    ensures lo <= NormalizeByBreakpoints(v, points) <= hi
  {
    ScanWithinY(v, points, 0, lo, hi);
  }

  lemma {:induction false} ScanWithinY(v: real, points: seq<Breakpoint>, i: nat, lo: real, hi: real)
    requires |points| > 0 && WithinY(points, lo, hi)
    ensures lo <= Scan(v, points, i) <= hi
    decreases |points| - i
  {
    hide OnSegment;
    if i < |points| - 1 {
      if points[i].x <= v <= points[i + 1].x {
        SegmentBounds(v, points[i], points[i + 1]);
      } else {
        ScanWithinY(v, points, i + 1, lo, hi);
      }
    }
  }

  /** The span an inner value falls in. */
  lemma {:induction false} SpanOf(v: real, points: seq<Breakpoint>, from: nat) returns (i: nat)
    requires from + 1 < |points| && points[from].x <= v <= points[|points| - 1].x
    ensures from <= i && i + 1 < |points| && points[i].x <= v <= points[i + 1].x
    decreases |points| - from
  {
    if v <= points[from + 1].x {
      i := from;
    } else {
      i := SpanOf(v, points, from + 1);
    }
  }

  /** A curve whose heights rise is monotone over all inputs. */
  lemma {:induction false} CurveMonotone(v: real, w: real, points: seq<Breakpoint>)
    requires Ascending(points) && Rising(points) && v <= w
    ensures NormalizeByBreakpoints(v, points) <= NormalizeByBreakpoints(w, points)
  {
    var n := |points| - 1;
    if n < 0 {
    } else if v <= points[0].x {
      assert WithinY(points, points[0].y, points[n].y);
      CurveWithinY(w, points, points[0].y, points[n].y);
    } else if w >= points[n].x {
      assert WithinY(points, points[0].y, points[n].y);
      CurveWithinY(v, points, points[0].y, points[n].y);
    } else {
      hide NormalizeByBreakpoints;
      var i := SpanOf(v, points, 0);
      var j := SpanOf(w, points, i);
      RisesAcross(v, w, points, i, j);
    }
  }

  lemma {:induction false} RisesAcross(v: real, w: real, points: seq<Breakpoint>, i: nat, j: nat)
    requires Ascending(points) && Rising(points) && v <= w
    requires i + 1 < |points| && points[i].x <= v <= points[i + 1].x
    requires i <= j && j + 1 < |points| && points[j].x <= w <= points[j + 1].x
    ensures NormalizeByBreakpoints(v, points) <= NormalizeByBreakpoints(w, points)
  {
    hide NormalizeByBreakpoints, OnSegment;
    CurveIsSegment(v, points, i);
    CurveIsSegment(w, points, j);
    if i == j {
      SegmentRises(v, w, points[i], points[i + 1]);
    } else {
      SegmentBounds(v, points[i], points[i + 1]);
      SegmentBounds(w, points[j], points[j + 1]);
      assert i + 1 < j ==> points[i + 1].y <= points[j].y;
    }
  }

  // ----- Repeated abscissae

  /** At a repeated abscissa the curve takes the height of the FIRST breakpoint there, except at the right-hand end of
      the curve, where it takes the last one's. */
  lemma {:induction false} RepeatedAbscissa(points: seq<Breakpoint>, i: nat)
    requires NonDescending(points) && i < |points| && (forall j | 0 <= j < i :: points[j].x < points[i].x)
    ensures var n := |points| - 1;
            NormalizeByBreakpoints(points[i].x, points)
            == if i > 0 && points[i].x == points[n].x then points[n].y else points[i].y
  {
    var v := points[i].x;
    if i > 0 {
      assert points[0].x < v;
      if v < points[|points| - 1].x {
        ScanStops(points, 0, i);
      }
    }
  }

  lemma {:induction false} ScanStops(points: seq<Breakpoint>, from: nat, i: nat)
    requires NonDescending(points) && from < i < |points| && (forall j | 0 <= j < i :: points[j].x < points[i].x)
    ensures Scan(points[i].x, points, from) == points[i].y
    decreases i - from
  {
    hide OnSegment;
    if from + 1 == i {
      SegmentEnds(points[from], points[i]);
    } else {
      ScanStops(points, from + 1, i);
    }
  }

  /** So the rule in the code's comment, that the later breakpoint of a repeated abscissa wins, holds for the last
      breakpoint k at that abscissa exactly when it ends a curve it does not also start, or the heights agree. */
  lemma {:induction false} LaterWinsIff(points: seq<Breakpoint>, i: nat, k: nat)
    requires NonDescending(points) && i < k < |points| && points[i].x == points[k].x
    requires (forall j | 0 <= j < i :: points[j].x < points[i].x)
    requires (forall j | k < j < |points| :: points[k].x < points[j].x)
    ensures NormalizeByBreakpoints(points[k].x, points) == points[k].y
       <==> (i > 0 && k == |points| - 1) || points[i].y == points[k].y
  {
    hide NormalizeByBreakpoints;
    RepeatedAbscissa(points, i);
  }

  /** A concrete curve on which the earlier breakpoint wins. */
  lemma {:induction false} EarlierWins() returns (points: seq<Breakpoint>)
    ensures NonDescending(points) && |points| == 4 && points[1].x == points[2].x
    ensures NormalizeByBreakpoints(points[2].x, points) == points[1].y != points[2].y
  {
    points := [Breakpoint(0.0, 0.0), Breakpoint(1.0, 0.2), Breakpoint(1.0, 0.8), Breakpoint(2.0, 1.0)];
    RepeatedAbscissa(points, 1);
  }

  // ----- The score

  const SIGNAL_CURVE := [Breakpoint(1.0, 0.30), Breakpoint(2.0, 0.65), Breakpoint(3.0, 1.00), Breakpoint(4.0, 1.00)]

  const VOLUME_CURVE := [Breakpoint(1.0, 0.0), Breakpoint(1.5, 0.40), Breakpoint(2.0, 0.70), Breakpoint(3.0, 1.00)]

  const ADX_CURVE := [Breakpoint(15.0, 0.0), Breakpoint(20.0, 0.35), Breakpoint(30.0, 0.80), Breakpoint(40.0, 1.00)]

  const ATR_RATIO_CURVE :=
    [Breakpoint(0.010, 0.0), Breakpoint(0.020, 1.00), Breakpoint(0.050, 1.00), Breakpoint(0.100, 0.0)]

  const LIQUIDITY_CURVE :=
    [Breakpoint(100000000.0, 0.0), Breakpoint(300000000.0, 0.40), Breakpoint(1000000000.0, 0.75),
     Breakpoint(5000000000.0, 1.00)]

  const RSI_CURVE :=
    [Breakpoint(30.0, 0.40), Breakpoint(45.0, 0.90), Breakpoint(60.0, 1.00), Breakpoint(70.0, 0.50),
     Breakpoint(80.0, 0.10), Breakpoint(90.0, 0.0)]

  datatype Weights = Weights(signal: real, volume: real, trend: real, volatility: real, liquidity: real,
                             overheat: real) {
    predicate NonNegative() {
      signal >= 0.0 && volume >= 0.0 && trend >= 0.0 && volatility >= 0.0 && liquidity >= 0.0 && overheat >= 0.0
    }

    function Total(): real {
      signal + volume + trend + volatility + liquidity + overheat
    }
  }

  const DEFAULT_WEIGHTS := Weights(30.0, 20.0, 20.0, 10.0, 10.0, 10.0)

  datatype Metrics = Metrics(signalCount: nat, volumeRatio: real, avgTradingValue: real, adx: real, plusDI: real,
                             minusDI: real, atrRatio: real, rsi: real, close: real, adjClose: real)

  function Factor(weight: real, v: real, curve: seq<Breakpoint>): real {
    weight * NormalizeByBreakpoints(v, curve)
  }

  function RawScore(m: Metrics, w: Weights): real {
    Factor(w.signal, m.signalCount as real, SIGNAL_CURVE)
    + Factor(w.volume, m.volumeRatio, VOLUME_CURVE)
    + Factor(w.trend, m.adx, ADX_CURVE)
    + Factor(w.volatility, m.atrRatio, ATR_RATIO_CURVE)
    + Factor(w.liquidity, m.avgTradingValue, LIQUIDITY_CURVE)
    + Factor(w.overheat, m.rsi, RSI_CURVE)
  }

  function ScoreDailyPick(m: Metrics, w: Weights): real {
    Round(RawScore(m, w), 2)
  }

  lemma {:induction false} FactorBounds(weight: real, v: real, curve: seq<Breakpoint>)
    requires weight >= 0.0 && |curve| > 0 && WithinY(curve, 0.0, 1.0)
    ensures 0.0 <= Factor(weight, v, curve) <= weight
  {
    hide NormalizeByBreakpoints, WithinY;
    CurveWithinY(v, curve, 0.0, 1.0);
    WeightedBounds(weight, NormalizeByBreakpoints(v, curve), Factor(weight, v, curve));
  }

  lemma {:induction false} RawScoreBounds(m: Metrics, w: Weights)
    requires w.NonNegative()
    ensures 0.0 <= RawScore(m, w) <= w.Total()
  {
    hide Factor;
    FactorBounds(w.signal, m.signalCount as real, SIGNAL_CURVE);
    FactorBounds(w.volume, m.volumeRatio, VOLUME_CURVE);
    FactorBounds(w.trend, m.adx, ADX_CURVE);
    FactorBounds(w.volatility, m.atrRatio, ATR_RATIO_CURVE);
    FactorBounds(w.liquidity, m.avgTradingValue, LIQUIDITY_CURVE);
    FactorBounds(w.overheat, m.rsi, RSI_CURVE);
  }

  /** With non-negative weights the score lies between 0 and their total, whatever the metrics. */
  lemma {:induction false} ScoreBounds(m: Metrics, w: Weights)
    requires w.NonNegative()
    ensures 0.0 <= ScoreDailyPick(m, w) <= Round(w.Total(), 2)
  {
    hide RawScore, Round;
    RawScoreBounds(m, w);
    RoundMonotone(0.0, RawScore(m, w), 2);
    RoundMonotone(RawScore(m, w), w.Total(), 2);
    RoundOfInteger(0, 2);
  }

  /** The standard weights score every stock between 0 and 100. */
  lemma {:induction false} DefaultScoreBounds(m: Metrics)
    ensures 0.0 <= ScoreDailyPick(m, DEFAULT_WEIGHTS) <= 100.0
  {
    hide RawScore, Round;
    ScoreBounds(m, DEFAULT_WEIGHTS);
    RoundOfInteger(100, 2);
  }

  lemma {:induction false} FactorMonotone(weight: real, v: real, w: real, curve: seq<Breakpoint>)
    requires weight >= 0.0 && v <= w && Climbs(curve)
    ensures Factor(weight, v, curve) <= Factor(weight, w, curve)
  {
    hide NormalizeByBreakpoints;
    CurveMonotone(v, w, curve);
    ProductMonotone(NormalizeByBreakpoints(v, curve), NormalizeByBreakpoints(w, curve), weight);
  }

  ghost predicate Climbs(curve: seq<Breakpoint>) {
    Ascending(curve) && Rising(curve)
  }

  lemma {:induction false} SignalAndVolumeClimb()
    ensures Climbs(SIGNAL_CURVE) && Climbs(VOLUME_CURVE)
  {
  }

  lemma {:induction false} AdxAndLiquidityClimb()
    ensures Climbs(ADX_CURVE) && Climbs(LIQUIDITY_CURVE)
  {
  }

  /** More signals, volume, trend strength or liquidity never lower the score. */
  lemma {:induction false} ScoreMonotone(m: Metrics, n: Metrics, w: Weights)
    requires w.NonNegative() && m.atrRatio == n.atrRatio && m.rsi == n.rsi
    requires m.signalCount <= n.signalCount && m.volumeRatio <= n.volumeRatio
    requires m.adx <= n.adx && m.avgTradingValue <= n.avgTradingValue
    ensures ScoreDailyPick(m, w) <= ScoreDailyPick(n, w)
  {
    hide Factor, Round, Climbs;
    SignalAndVolumeClimb();
    AdxAndLiquidityClimb();
    FactorMonotone(w.signal, m.signalCount as real, n.signalCount as real, SIGNAL_CURVE);
    FactorMonotone(w.volume, m.volumeRatio, n.volumeRatio, VOLUME_CURVE);
    FactorMonotone(w.trend, m.adx, n.adx, ADX_CURVE);
    FactorMonotone(w.liquidity, m.avgTradingValue, n.avgTradingValue, LIQUIDITY_CURVE);
    RoundMonotone(RawScore(m, w), RawScore(n, w), 2);
  }
}
