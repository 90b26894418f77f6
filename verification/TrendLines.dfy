/** The least-squares trend line through the local extrema of a window. */
module TrendLines {
  import opened MarketData
  import opened PairSums
  import opened Decimals

  datatype Point = Point(x: nat, y: real)

  ghost function Extrema(window: seq<Bar>, high: bool, strength: nat, upTo: nat): seq<Point>
    requires upTo + strength <= |window|
  {
    if upTo <= strength then []
    else
      var j := upTo - 1;
      Extrema(window, high, strength, j)
      + if IsExtreme(window, high, strength, j) then [Point(j, ValueAt(window, high, j))] else []
  }

  ghost function AllExtrema(window: seq<Bar>, high: bool, strength: nat): seq<Point> {
    if |window| < strength then [] else Extrema(window, high, strength, |window| - strength)
  }

  /** The points are the local highs, or lows, of the window at their days. */
  lemma {:induction false} ExtremaOverBars(window: seq<Bar>, high: bool, strength: nat, upTo: nat, p: Point)
    requires upTo + strength <= |window|
    ensures p in Extrema(window, high, strength, upTo) <==>
      && strength <= p.x < upTo && IsExtreme(window, high, strength, p.x)
      && p.y == if high then window[p.x].high else window[p.x].low
    decreases upTo
  {
    hide IsExtreme;
    if upTo > strength {
      ExtremaOverBars(window, high, strength, upTo - 1, p);
    }
  }

  ghost predicate Ascending(pts: seq<Point>) {
    forall i, j | 0 <= i < j < |pts| :: pts[i].x < pts[j].x
  }

  lemma {:induction false} ExtremaAscend(window: seq<Bar>, high: bool, strength: nat, upTo: nat)
    requires upTo + strength <= |window|
    ensures Ascending(Extrema(window, high, strength, upTo))
    ensures forall p | p in Extrema(window, high, strength, upTo) :: p.x < upTo
  {
    hide IsExtreme, ValueAt;
    if upTo > strength {
      ExtremaAscend(window, high, strength, upTo - 1);
    }
  }

  function Xs(pts: seq<Point>): (xs: seq<real>)
    ensures |xs| == |pts|
  {
    seq(|pts|, i requires 0 <= i < |pts| => pts[i].x as real)
  }

  function Ys(pts: seq<Point>): (ys: seq<real>)
    ensures |ys| == |pts|
  {
    seq(|pts|, i requires 0 <= i < |pts| => pts[i].y)
  }

  function Denominator(pts: seq<Point>): real {
    var n := |pts|;
    n as real * Dot(Xs(pts), Xs(pts), n) - Total(Xs(pts), n) * Total(Xs(pts), n)
  }

  function Numerator(pts: seq<Point>): real {
    var n := |pts|;
    n as real * Dot(Xs(pts), Ys(pts), n) - Total(Xs(pts), n) * Total(Ys(pts), n)
  }

  function Slope(pts: seq<Point>): real {
    if Denominator(pts) == 0.0 then 0.0 else Numerator(pts) / Denominator(pts)
  }

  lemma CentredDotFlipped(a: seq<real>, c: seq<real>, n: nat)
    requires |a| == |c| == n
    ensures Total(a, n) * Total(c, n) - n as real * Dot(a, c, n) == MinorPairs(a, Ones(n), Ones(n), c, n)
  {
    hide MinorPairs, Dot, Total;
    var ones := Ones(n);
    DotOnes(a, n);
    DotOnes(c, n);
    BinetCauchy(a, ones, ones, c, n);
    Recentre(n as real, Dot(ones, ones, n), Dot(a, c, n), Dot(a, ones, n), Dot(ones, c, n), Total(a, n), Total(c, n));
  }

  lemma SameSign(x: real, y: real)
    requires (x < 0.0 && y < 0.0) || (x > 0.0 && y > 0.0)
    ensures x * y > 0.0
  {
  }

  /** The zero guard of the regression fires exactly on fewer than two points. */
  lemma DenominatorPositive(pts: seq<Point>)
    requires Ascending(pts)
    ensures Denominator(pts) >= 0.0
    ensures Denominator(pts) > 0.0 <==> |pts| >= 2
  {
    var n, xs, ones := |pts|, Xs(pts), Ones(|pts|);
    CentredDot(xs, xs, n);
    if n >= 2 {
      forall i, j | 0 <= i < j < n
        ensures Minor(xs, ones, i, j) * Minor(xs, ones, i, j) > 0.0
      {
        SameSign(Minor(xs, ones, i, j), Minor(xs, ones, i, j));
      }
      PairsPositive(xs, ones, xs, ones, n);
    } else if n == 1 {
      assert MinorPairs(xs, ones, xs, ones, 0) == 0.0;
    }
  }

  ghost predicate Falling(pts: seq<Point>) {
    forall i, j | 0 <= i < j < |pts| :: pts[i].y > pts[j].y
  }

  ghost predicate Rising(pts: seq<Point>) {
    forall i, j | 0 <= i < j < |pts| :: pts[i].y < pts[j].y
  }

  lemma FallingNumerator(pts: seq<Point>)
    requires Ascending(pts) && |pts| >= 2 && Falling(pts)
    ensures Numerator(pts) < 0.0
  {
    var n, xs, ys, ones := |pts|, Xs(pts), Ys(pts), Ones(|pts|);
    forall i, j | 0 <= i < j < n
      ensures Minor(xs, ones, i, j) * Minor(ones, ys, i, j) > 0.0
    {
      SameSign(Minor(xs, ones, i, j), Minor(ones, ys, i, j));
    }
    CentredDotFlipped(xs, ys, n);
    PairsPositive(xs, ones, ones, ys, n);
  }

  lemma RisingNumerator(pts: seq<Point>)
    requires Ascending(pts) && |pts| >= 2 && Rising(pts)
    ensures Numerator(pts) > 0.0
  {
    var n, xs, ys, ones := |pts|, Xs(pts), Ys(pts), Ones(|pts|);
    forall i, j | 0 <= i < j < n
      ensures Minor(xs, ones, i, j) * Minor(ys, ones, i, j) > 0.0
    {
      SameSign(Minor(xs, ones, i, j), Minor(ys, ones, i, j));
    }
    CentredDot(xs, ys, n);
    PairsPositive(xs, ones, ys, ones, n);
  }

  lemma QuotientSign(n: real, d: real)
    requires d > 0.0
    ensures n > 0.0 ==> n / d > 0.0
    ensures n < 0.0 ==> n / d < 0.0
  {
  }

  /** Strictly falling extrema have a falling trend line, strictly rising ones a rising one. */
  lemma SlopeFollowsExtrema(pts: seq<Point>)
    requires Ascending(pts) && |pts| >= 2
    ensures Falling(pts) ==> Slope(pts) < 0.0
    ensures Rising(pts) ==> Slope(pts) > 0.0
  {
    DenominatorPositive(pts);
    hide Numerator, Denominator;
    if Falling(pts) {
      FallingNumerator(pts);
    }
    if Rising(pts) {
      RisingNumerator(pts);
    }
    QuotientSign(Numerator(pts), Denominator(pts));
  }

  // ----- The slope minimises the squared error

  function SquaredResidual(x: real, y: real, a: real, b: real): real {
    (y - (a + b * x)) * (y - (a + b * x))
  }

  /** Squared vertical distance of the first k points from the line a + b * x. */
  function SquaredError(pts: seq<Point>, a: real, b: real, k: nat): real
    requires k <= |pts|
  {
    if k == 0 then 0.0
    else SquaredError(pts, a, b, k - 1) + SquaredResidual(pts[k - 1].x as real, pts[k - 1].y, a, b)
  }

  function Quadratic(n: real, sx: real, sy: real, sxx: real, sxy: real, syy: real, a: real, b: real): real {
    syy - 2.0 * a * sy - 2.0 * b * sxy + n * (a * a) + 2.0 * (a * b) * sx + (b * b) * sxx
  }

  lemma QuadraticGrows(n: real, sx: real, sy: real, sxx: real, sxy: real, syy: real, a: real, b: real,
                       x: real, y: real,
                       n': real, sx': real, sy': real, sxx': real, sxy': real, syy': real)
    requires n' == n + 1.0 && sx' == sx + x && sy' == sy + y
    requires sxx' == sxx + x * x && sxy' == sxy + x * y && syy' == syy + y * y
    ensures Quadratic(n', sx', sy', sxx', sxy', syy', a, b)
         == Quadratic(n, sx, sy, sxx, sxy, syy, a, b) + SquaredResidual(x, y, a, b)
  {
    var l := a + b * x;
    assert l * l == a * a + 2.0 * (a * b) * x + (b * b) * (x * x);
    assert (y - l) * (y - l) == y * y - 2.0 * a * y - 2.0 * b * (x * y) + l * l;
    assert 2.0 * (a * b) * sx' == 2.0 * (a * b) * sx + 2.0 * (a * b) * x;
    assert (b * b) * sxx' == (b * b) * sxx + (b * b) * (x * x);
    assert 2.0 * b * sxy' == 2.0 * b * sxy + 2.0 * b * (x * y);
    assert 2.0 * a * sy' == 2.0 * a * sy + 2.0 * a * y;
    assert n' * (a * a) == n * (a * a) + a * a;
  }

  lemma MomentsGrow(xs: seq<real>, ys: seq<real>, k: nat)
    requires |xs| == |ys| && 0 < k <= |xs|
    ensures Total(xs, k) == Total(xs, k - 1) + xs[k - 1] && Total(ys, k) == Total(ys, k - 1) + ys[k - 1]
    ensures Dot(xs, xs, k) == Dot(xs, xs, k - 1) + xs[k - 1] * xs[k - 1]
    ensures Dot(xs, ys, k) == Dot(xs, ys, k - 1) + xs[k - 1] * ys[k - 1]
    ensures Dot(ys, ys, k) == Dot(ys, ys, k - 1) + ys[k - 1] * ys[k - 1]
  {
    TotalStep(xs, k - 1);
    TotalStep(ys, k - 1);
  }

  /** The squared error of the first k points as a quadratic in the line's coefficients. */
  function ErrorForm(xs: seq<real>, ys: seq<real>, k: nat, a: real, b: real): real
    requires k <= |xs| == |ys|
  {
    Quadratic(k as real, Total(xs, k), Total(ys, k), Dot(xs, xs, k), Dot(xs, ys, k), Dot(ys, ys, k), a, b)
  }

  lemma ErrorFormGrows(xs: seq<real>, ys: seq<real>, k: nat, a: real, b: real)
    requires 0 < k <= |xs| == |ys|
    ensures ErrorForm(xs, ys, k, a, b) == ErrorForm(xs, ys, k - 1, a, b) + SquaredResidual(xs[k - 1], ys[k - 1], a, b)
  {
    hide Quadratic, SquaredResidual, Total, Dot;
    var i := k - 1;
    MomentsGrow(xs, ys, k);
    QuadraticGrows(i as real, Total(xs, i), Total(ys, i), Dot(xs, xs, i), Dot(xs, ys, i), Dot(ys, ys, i), a, b,
      xs[i], ys[i], k as real, Total(xs, k), Total(ys, k), Dot(xs, xs, k), Dot(xs, ys, k), Dot(ys, ys, k));
  }

  lemma ErrorFormStarts(xs: seq<real>, ys: seq<real>, a: real, b: real)
    requires |xs| == |ys|
    ensures ErrorForm(xs, ys, 0, a, b) == 0.0
  {
  }

  lemma {:induction false} ErrorIsQuadratic(pts: seq<Point>, a: real, b: real, k: nat)
    requires k <= |pts|
    ensures SquaredError(pts, a, b, k) == ErrorForm(Xs(pts), Ys(pts), k, a, b)
  {
    hide ErrorForm, SquaredResidual;
    if k == 0 {
      ErrorFormStarts(Xs(pts), Ys(pts), a, b);
    } else {
      ErrorIsQuadratic(pts, a, b, k - 1);
      ErrorFormGrows(Xs(pts), Ys(pts), k, a, b);
    }
  }

  /** Moving away from a solution of the normal equations adds a form that is zero only at the solution itself. */
  lemma NormalEquationsMinimise(n: real, sx: real, sy: real, sxx: real, sxy: real, syy: real,
                                a0: real, b0: real, a: real, b: real)
    requires n > 0.0 && n * sxx - sx * sx > 0.0
    requires n * a0 + sx * b0 == sy && sx * a0 + sxx * b0 == sxy
    ensures Quadratic(n, sx, sy, sxx, sxy, syy, a0, b0) <= Quadratic(n, sx, sy, sxx, sxy, syy, a, b)
    ensures a != a0 || b != b0 ==>
      Quadratic(n, sx, sy, sxx, sxy, syy, a0, b0) < Quadratic(n, sx, sy, sxx, sxy, syy, a, b)
  {
    var da, db := a - a0, b - b0;
    var form := n * (da * da) + 2.0 * (da * db) * sx + (db * db) * sxx;
    QuadraticDifference(n, sx, sy, sxx, sxy, syy, a0, b0, da, db);
    hide WeightedSquare;
    var s, d := n * da + db * sx, n * sxx - sx * sx;
    CompleteSquare(n, sx, sxx, da, db, form, s, d);
    if da != 0.0 && db == 0.0 {
      NonZeroProduct(n, da);
    }
    FormPositive(n, form, s, db, d);
  }

  lemma NonZeroProduct(n: real, x: real)
    requires n > 0.0 && x != 0.0
    ensures n * x != 0.0
  {
    if x > 0.0 {
      SameSign(n, x);
    } else {
      SameSign(n, -x);
    }
  }

  lemma QuadraticDifference(n: real, sx: real, sy: real, sxx: real, sxy: real, syy: real,
                            a0: real, b0: real, da: real, db: real)
    requires n * a0 + sx * b0 == sy && sx * a0 + sxx * b0 == sxy
    ensures Quadratic(n, sx, sy, sxx, sxy, syy, a0 + da, b0 + db)
         == Quadratic(n, sx, sy, sxx, sxy, syy, a0, b0) + (n * (da * da) + 2.0 * (da * db) * sx + (db * db) * sxx)
  {
    assert 2.0 * da * (n * a0 + sx * b0) == 2.0 * da * sy;
    assert 2.0 * db * (sx * a0 + sxx * b0) == 2.0 * db * sxy;
  }

  function WeightedSquare(x: real, weight: real): real {
    (x * x) * weight
  }

  lemma CompleteSquare(n: real, sx: real, sxx: real, da: real, db: real, form: real, s: real, d: real)
    requires form == n * (da * da) + 2.0 * (da * db) * sx + (db * db) * sxx
    requires s == n * da + db * sx && d == n * sxx - sx * sx
    ensures n * form == WeightedSquare(s, 1.0) + WeightedSquare(db, d)
  {
  }

  lemma WeightedSquareNonNegative(x: real, weight: real)
    requires weight > 0.0
    ensures WeightedSquare(x, weight) >= 0.0
  {
  }

  lemma WeightedSquarePositive(x: real, weight: real)
    requires weight > 0.0 && x != 0.0
    ensures WeightedSquare(x, weight) > 0.0
  {
    SameSign(if x > 0.0 then x else -x, weight);
    if x > 0.0 {
      SameSign(x, x * weight);
      assert x * (x * weight) == (x * x) * weight;
    } else {
      SameSign(-x, -x * weight);
      assert -x * (-x * weight) == (x * x) * weight;
    }
  }

  lemma FormPositive(n: real, form: real, s: real, db: real, d: real)
    requires n > 0.0 && d > 0.0 && n * form == WeightedSquare(s, 1.0) + WeightedSquare(db, d)
    ensures form >= 0.0
    ensures s != 0.0 || db != 0.0 ==> form > 0.0
  {
    hide WeightedSquare;
    WeightedSquareNonNegative(s, 1.0);
    WeightedSquareNonNegative(db, d);
    if s != 0.0 {
      WeightedSquarePositive(s, 1.0);
    }
    if db != 0.0 {
      WeightedSquarePositive(db, d);
    }
    PositiveSum(n, form, WeightedSquare(s, 1.0), WeightedSquare(db, d));
  }

  lemma PositiveSum(n: real, x: real, square: real, rest: real)
    requires n > 0.0 && n * x == square + rest && square >= 0.0 && rest >= 0.0
    ensures x >= 0.0
    ensures square > 0.0 || rest > 0.0 ==> x > 0.0
  {
  }

  function Intercept(pts: seq<Point>): real
    requires |pts| > 0
  {
    (Total(Ys(pts), |pts|) - Slope(pts) * Total(Xs(pts), |pts|)) / |pts| as real
  }

  lemma SolveNormalEquations(n: real, sx: real, sy: real, sxx: real, sxy: real, a: real, b: real)
    requires n > 0.0 && n * sxx - sx * sx > 0.0
    requires b == (n * sxy - sx * sy) / (n * sxx - sx * sx) && a == (sy - b * sx) / n
    ensures n * a + sx * b == sy && sx * a + sxx * b == sxy
  {
    assert a * n == sy - b * sx;
    assert b * (n * sxx - sx * sx) == n * sxy - sx * sy;
    assert n * (sx * a + sxx * b) == sx * (a * n) + n * (sxx * b);
    assert n * (sx * a + sxx * b) == n * sxy;
  }

  lemma SlopeSolvesNormalEquations(pts: seq<Point>)
    requires Ascending(pts) && |pts| >= 2
    ensures var n, xs, ys := |pts|, Xs(pts), Ys(pts);
      && n as real * Dot(xs, xs, n) - Total(xs, n) * Total(xs, n) > 0.0
      && n as real * Intercept(pts) + Total(xs, n) * Slope(pts) == Total(ys, n)
      && Total(xs, n) * Intercept(pts) + Dot(xs, xs, n) * Slope(pts) == Dot(xs, ys, n)
  {
    hide Total, Dot;
    var n, xs, ys := |pts|, Xs(pts), Ys(pts);
    DenominatorPositive(pts);
    SolveNormalEquations(n as real, Total(xs, n), Total(ys, n), Dot(xs, xs, n), Dot(xs, ys, n),
      Intercept(pts), Slope(pts));
  }

  /** The regression line is the unique line of minimal squared error, so the slope is the unique such slope. */
  lemma SlopeMinimises(pts: seq<Point>, a: real, b: real)
    requires Ascending(pts) && |pts| >= 2
    ensures SquaredError(pts, Intercept(pts), Slope(pts), |pts|) <= SquaredError(pts, a, b, |pts|)
    ensures a != Intercept(pts) || b != Slope(pts) ==>
      SquaredError(pts, Intercept(pts), Slope(pts), |pts|) < SquaredError(pts, a, b, |pts|)
  {
    hide Total, Dot, Intercept, Slope, Quadratic, SquaredError;
    var n, xs, ys := |pts|, Xs(pts), Ys(pts);
    SlopeSolvesNormalEquations(pts);
    NormalEquationsMinimise(n as real, Total(xs, n), Total(ys, n), Dot(xs, xs, n), Dot(xs, ys, n), Dot(ys, ys, n),
      Intercept(pts), Slope(pts), a, b);
    ErrorIsQuadratic(pts, a, b, n);
    ErrorIsQuadratic(pts, Intercept(pts), Slope(pts), n);
  }

  method FindExtrema(window: seq<Bar>, high: bool, strength: nat) returns (pts: seq<Point>)
    ensures pts == AllExtrema(window, high, strength)
  {
    pts := [];
    var j := strength;
    while j < |window| - strength
      invariant strength <= j
      invariant j > strength ==> j + strength <= |window|
      invariant j + strength <= |window| ==> pts == Extrema(window, high, strength, j)
      invariant j + strength > |window| ==> pts == []
    {
      var v := ValueAt(window, high, j);
      var isExtreme := true;
      var k := j - strength;
      while k <= j + strength && isExtreme
        invariant j - strength <= k <= j + strength + 1
        invariant isExtreme <==> forall m | j - strength <= m < k && m != j ::
          if high then ValueAt(window, high, m) < v else ValueAt(window, high, m) > v
        decreases j + strength + 1 - k, isExtreme
      {
        if k != j {
          var nv := ValueAt(window, high, k);
          if (if high then nv >= v else nv <= v) {
            isExtreme := false;
          }
        }
        k := k + 1;
      }
      assert isExtreme <==> IsExtreme(window, high, strength, j);
      if isExtreme {
        pts := pts + [Point(j, v)];
      }
      j := j + 1;
    }
  }

  method RegressionSums(pts: seq<Point>) returns (sumX: real, sumY: real, sumXY: real, sumXX: real)
    ensures sumX == Total(Xs(pts), |pts|) && sumY == Total(Ys(pts), |pts|)
    ensures sumXY == Dot(Xs(pts), Ys(pts), |pts|) && sumXX == Dot(Xs(pts), Xs(pts), |pts|)
  {
    sumX, sumY, sumXY, sumXX := 0.0, 0.0, 0.0, 0.0;
    for i := 0 to |pts|
      invariant sumX == Total(Xs(pts), i) && sumY == Total(Ys(pts), i)
      invariant sumXY == Dot(Xs(pts), Ys(pts), i) && sumXX == Dot(Xs(pts), Xs(pts), i)
    {
      var x, y := pts[i].x as real, pts[i].y;
      TotalStep(Xs(pts), i);
      TotalStep(Ys(pts), i);
      sumX := sumX + x;
      sumY := sumY + y;
      sumXY := sumXY + x * y;
      sumXX := sumXX + x * x;
    }
  }

  method FitSlope(pts: seq<Point>, minPoints: int) returns (slope: real, ok: bool)
    ensures ok <==> |pts| >= minPoints && Denominator(pts) != 0.0
    ensures slope == if ok then Numerator(pts) / Denominator(pts) else 0.0
  {
    if |pts| < minPoints {
      return 0.0, false;
    }
    var nn := |pts| as real;
    var sumX, sumY, sumXY, sumXX := RegressionSums(pts);
    var denom := nn * sumXX - sumX * sumX;
    if denom == 0.0 {
      return 0.0, false;
    }
    slope := (nn * sumXY - sumX * sumY) / denom;
    ok := true;
  }

  /** A slope comes out exactly when there are at least `minPoints`, and at least two, extrema. */
  method LocalExtremaSlope(window: seq<Bar>, high: bool, strength: nat, minPoints: int)
    returns (slope: real, ok: bool)
    ensures var pts := AllExtrema(window, high, strength);
      && (ok <==> |pts| >= minPoints && |pts| >= 2)
      && slope == if ok then Slope(pts) else 0.0
  {
    hide Numerator, Denominator;
    var pts := FindExtrema(window, high, strength);
    if |window| >= strength {
      ExtremaAscend(window, high, strength, |window| - strength);
    }
    DenominatorPositive(pts);
    slope, ok := FitSlope(pts, minPoints);
  }
}
