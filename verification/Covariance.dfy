/** Sample covariance, beta and correlation of two return series. */
module Covariance {
  import opened Decimals
  import opened PairSums

  method Mean(xs: seq<real>) returns (m: real)
    ensures m == MeanOf(xs)
  {
    if |xs| == 0 {
      return 0.0;
    }
    var sum := 0.0;
    for i := 0 to |xs|
      invariant sum == Total(xs, i)
    {
      TotalStep(xs, i);
      sum := sum + xs[i];
    }
    assert xs[..|xs|] == xs;
    m := sum / |xs| as real;
  }

  /** Distance of every value from the mean of its series. */
  function Deviations(xs: seq<real>): (ds: seq<real>)
    ensures |ds| == |xs|
  {
    seq(|xs|, i requires 0 <= i < |xs| => xs[i] - MeanOf(xs))
  }

  function CovarianceOf(xs: seq<real>, ys: seq<real>): real {
    if |xs| < 2 || |xs| != |ys| then 0.0
    else Dot(Deviations(xs), Deviations(ys), |xs|) / (|xs| - 1) as real
  }

  function VarianceOf(xs: seq<real>): real {
    CovarianceOf(xs, xs)
  }

  method SampleVariance(xs: seq<real>) returns (v: real)
    ensures v == VarianceOf(xs)
  {
    var n := |xs|;
    if n < 2 {
      return 0.0;
    }
    var m := Mean(xs);
    var sum := 0.0;
    for i := 0 to n
      invariant sum == Dot(Deviations(xs), Deviations(xs), i)
    {
      var d := xs[i] - m;
      sum := sum + d * d;
    }
    v := sum / (n - 1) as real;
  }

  method SampleCovariance(xs: seq<real>, ys: seq<real>) returns (c: real)
    ensures c == CovarianceOf(xs, ys)
  {
    var n := |xs|;
    if n < 2 || n != |ys| {
      return 0.0;
    }
    var mx := Mean(xs);
    var my := Mean(ys);
    var sum := 0.0;
    for i := 0 to n
      invariant sum == Dot(Deviations(xs), Deviations(ys), i)
    {
      sum := sum + (xs[i] - mx) * (ys[i] - my);
    }
    c := sum / (n - 1) as real;
  }

  // ----- The divisor

  lemma {:induction false} DeviationsExpand(xs: seq<real>, ys: seq<real>, k: nat)
    requires k <= |xs| == |ys|
    ensures var mx, my := MeanOf(xs), MeanOf(ys);
      Dot(Deviations(xs), Deviations(ys), k)
      == Dot(xs, ys, k) - my * Total(xs, k) - mx * Total(ys, k) + k as real * mx * my
  {
    hide *;
    NoProducts(xs, ys);
    if k > 0 {
      DeviationsExpand(xs, ys, k - 1);
      TotalStep(xs, k - 1);
      TotalStep(ys, k - 1);
      OneMoreProduct(xs, ys, k - 1);
      DeviationStep(k as real, xs[k - 1], ys[k - 1], MeanOf(xs), MeanOf(ys),
        Dot(Deviations(xs), Deviations(ys), k - 1), Dot(xs, ys, k - 1), Total(xs, k - 1), Total(ys, k - 1));
    }
  }

  lemma {:induction false} NoProducts(xs: seq<real>, ys: seq<real>)
    ensures Dot(Deviations(xs), Deviations(ys), 0) == Dot(xs, ys, 0) == Total(xs, 0) == Total(ys, 0) == 0.0
  {
  }

  lemma {:induction false} OneMoreProduct(xs: seq<real>, ys: seq<real>, k: nat)
    requires k < |xs| == |ys|
    ensures Dot(Deviations(xs), Deviations(ys), k + 1)
         == Dot(Deviations(xs), Deviations(ys), k) + (xs[k] - MeanOf(xs)) * (ys[k] - MeanOf(ys))
    ensures Dot(xs, ys, k + 1) == Dot(xs, ys, k) + xs[k] * ys[k]
  {
    hide MeanOf;
  }

  lemma {:induction false} DeviationStep(k: real, x: real, y: real, mx: real, my: real, ds: real, dot: real, tx: real,
                                         ty: real)
    requires ds == dot - my * tx - mx * ty + (k - 1.0) * mx * my
    ensures ds + (x - mx) * (y - my) == (dot + x * y) - my * (tx + x) - mx * (ty + y) + k * mx * my
  {
    assert (x - mx) * (y - my) == x * y - my * x - mx * y + mx * my;
    assert k * mx * my == (k - 1.0) * mx * my + mx * my;
  }

  lemma {:induction false} DivisorCancels(n: real, dot: real, tx: real, ty: real, mx: real, my: real, ds: real, c: real)
    requires n >= 2.0 && mx * n == tx && my * n == ty && c * (n - 1.0) == ds
    requires ds == dot - my * tx - mx * ty + n * mx * my
    ensures c * (n * (n - 1.0)) == n * dot - tx * ty
  {
    assert n * mx * my == mx * ty;
    assert n * ds == n * dot - n * (my * tx);
    assert n * (my * tx) == ty * tx;
    assert c * (n * (n - 1.0)) == n * (c * (n - 1.0));
  }

  /** Without means: n (n - 1) times the covariance is the sum over all pairs i < j of the products of differences,
      (x[i] - x[j]) * (y[i] - y[j]). */
  lemma {:induction false} CovarianceOverPairs(xs: seq<real>, ys: seq<real>)
    requires |xs| == |ys| >= 2
    ensures var n := |xs|;
      CovarianceOf(xs, ys) * (n as real * (n as real - 1.0)) == MinorPairs(xs, Ones(n), ys, Ones(n), n)
    ensures forall i, j | 0 <= i < |xs| && 0 <= j < |xs| :: Minor(xs, Ones(|xs|), i, j) == xs[i] - xs[j]
  {
    hide Dot, Deviations;
    var n := |xs|;
    DeviationsExpand(xs, ys, n);
    CentredDot(xs, ys, n);
    assert xs[..n] == xs && ys[..n] == ys;
    var ds := Dot(Deviations(xs), Deviations(ys), n);
    hide MinorPairs;
    DivisorCancels(n as real, Dot(xs, ys, n), Total(xs, n), Total(ys, n), MeanOf(xs), MeanOf(ys), ds,
      CovarianceOf(xs, ys));
  }

  /** A square root: zero for negative input, otherwise the non-negative solution of s * s == x. */
  ghost predicate IsSqrt(sqrt: real -> real) {
    forall x: real :: if x <= 0.0 then sqrt(x) == 0.0 else sqrt(x) > 0.0 && sqrt(x) * sqrt(x) == x
  }

  function Beta(stock: seq<real>, benchmark: seq<real>): real {
    if |stock| < 2 || |stock| != |benchmark| then 0.0
    else if VarianceOf(benchmark) == 0.0 then 0.0
    else CovarianceOf(stock, benchmark) / VarianceOf(benchmark)
  }

  function Correlation(sqrt: real -> real, a: seq<real>, b: seq<real>): real {
    if |a| < 2 || |a| != |b| then 0.0
    else
      var sa, sb := sqrt(VarianceOf(a)), sqrt(VarianceOf(b));
      if sa == 0.0 || sb == 0.0 then 0.0 else CovarianceOf(a, b) / (sa * sb)
  }

  lemma Cancel(p: real, q: real, d: real)
    requires d > 0.0 && p * d <= q * d
    ensures p <= q
  {
  }

  lemma SquaresScale(x: real, y: real, z: real, d: real, ab: real, aa: real, bb: real)
    requires d > 0.0 && ab * ab <= aa * bb && ab == x * d && aa == y * d && bb == z * d
    ensures x * x <= y * z
  {
    var u, v := (x * x) * d, (y * z) * d;
    assert ab * ab == u * d;
    assert aa * bb == v * d;
    Cancel(u, v, d);
    Cancel(x * x, y * z, d);
  }

  lemma CovarianceBound(xs: seq<real>, ys: seq<real>)
    ensures CovarianceOf(xs, ys) * CovarianceOf(xs, ys) <= VarianceOf(xs) * VarianceOf(ys) || |xs| != |ys|
    ensures VarianceOf(xs) >= 0.0
  {
    hide Dot;
    var n := |xs|;
    if n >= 2 {
      DotSelfNonNegative(Deviations(xs), n);
      QuotientAtLeast(Dot(Deviations(xs), Deviations(xs), n), 0.0, (n - 1) as real);
      if n == |ys| {
        CauchySchwarz(Deviations(xs), Deviations(ys), n);
        SquaresScale(CovarianceOf(xs, ys), VarianceOf(xs), VarianceOf(ys), (n - 1) as real,
          Dot(Deviations(xs), Deviations(ys), n), Dot(Deviations(xs), Deviations(xs), n),
          Dot(Deviations(ys), Deviations(ys), n));
      }
    }
  }

  lemma RatioWithinOne(c: real, sa: real, sb: real, va: real, vb: real)
    requires sa > 0.0 && sb > 0.0 && sa * sa == va && sb * sb == vb && c * c <= va * vb
    ensures -1.0 <= c / (sa * sb) <= 1.0
  {
    var s := sa * sb;
    assert s > 0.0;
    assert s * s == va * vb;
    SquareRootOrder(c, s);
    QuotientAtMost(c, 1.0, s);
    QuotientAtLeast(c, -1.0, s);
  }

  lemma SquareRootOrder(c: real, s: real)
    requires s > 0.0 && c * c <= s * s
    ensures -s <= c <= s
  {
    if c > s {
      PositiveProduct(c - s, c + s);
    } else if c < -s {
      PositiveProduct(s - c, -c - s);
    }
  }

  lemma PositiveProduct(x: real, y: real)
    requires x > 0.0 && y > 0.0
    ensures x * y > 0.0
  {
  }

  /** A correlation never leaves [-1, 1]. */
  lemma CorrelationBound(sqrt: real -> real, a: seq<real>, b: seq<real>)
    requires IsSqrt(sqrt)
    ensures -1.0 <= Correlation(sqrt, a, b) <= 1.0
  {
    hide CovarianceOf;
    if Correlation(sqrt, a, b) != 0.0 {
      CovarianceBound(a, b);
      CovarianceBound(b, a);
      RatioWithinOne(CovarianceOf(a, b), sqrt(VarianceOf(a)), sqrt(VarianceOf(b)), VarianceOf(a), VarianceOf(b));
    }
  }

  /** A series that moves has beta one and correlation one to itself. */
  lemma SelfComparison(sqrt: real -> real, xs: seq<real>)
    requires IsSqrt(sqrt) && VarianceOf(xs) != 0.0
    ensures Beta(xs, xs) == 1.0
    ensures Correlation(sqrt, xs, xs) == 1.0
  {
    hide Dot;
    CovarianceBound(xs, xs);
    QuotientIs(VarianceOf(xs), VarianceOf(xs), 1.0);
  }

  /** The beta is the slope of the regression line of the stock's returns on the benchmark's:
      what is left of the stock after removing it does not co-vary with the benchmark. */
  lemma BetaRemovesCovariance(stock: seq<real>, benchmark: seq<real>)
    requires |stock| == |benchmark|
    ensures CovarianceOf(stock, benchmark) == Beta(stock, benchmark) * VarianceOf(benchmark)
  {
    hide Dot, Deviations;
    hide CovarianceOf;
    CovarianceBound(stock, benchmark);
    CovarianceBound(benchmark, stock);
    if |stock| < 2 {
      TooShort(stock, benchmark);
    } else if VarianceOf(benchmark) == 0.0 {
      SquareZero(CovarianceOf(stock, benchmark), VarianceOf(stock), VarianceOf(benchmark));
    }
  }

  lemma TooShort(xs: seq<real>, ys: seq<real>)
    requires |xs| < 2
    ensures CovarianceOf(xs, ys) == 0.0
  {
  }

  lemma SquareZero(c: real, v: real, w: real)
    requires w == 0.0 && c * c <= v * w
    ensures c == 0.0
  {
    assert v * w == 0.0;
    NoPositiveProduct(c, c, c * c);
  }

  lemma NoPositiveProduct(c: real, d: real, p: real)
    requires c == d && p == c * d && p <= 0.0
    ensures c == 0.0
  {
    if c > 0.0 {
      PositiveProduct(c, d);
    } else if c < 0.0 {
      NegativeProduct(c, d, p);
    }
  }

  lemma NegativeProduct(c: real, d: real, p: real)
    requires c < 0.0 && d < 0.0 && p == c * d
    ensures p > 0.0
  {
    var x, y := -c, -d;
    PositiveProduct(x, y);
    assert p == x * y;
  }
}
