/** The recursive averages in closed form: a seed and a weighted sum, the weights falling geometrically with age. */
module IndicatorWeights {
  import opened Decimals
  import opened Indicators
  import opened Oscillators

  function Power(r: real, n: nat): real {
    if n == 0 then 1.0 else r * Power(r, n - 1)
  }

  function Product(r: real, x: real): real {
    r * x
  }

  /** The values of a series, each discounted by one factor for every value that follows it. */
  function Discounted(xs: seq<real>, r: real): (ys: seq<real>)
    ensures |ys| == |xs|
  {
    seq(|xs|, i requires 0 <= i < |xs| => Product(Power(r, |xs| - 1 - i), xs[i]))
  }

  function Scaled(xs: seq<real>, r: real): (ys: seq<real>)
    ensures |ys| == |xs|
  {
    seq(|xs|, i requires 0 <= i < |xs| => Product(r, xs[i]))
  }

  lemma {:induction false} SumScaled(xs: seq<real>, r: real)
    ensures Sum(Scaled(xs, r)) == r * Sum(xs)
    decreases |xs|
  {
    if xs != [] {
      var n := |xs| - 1;
      ScaledSnoc(xs[..n], xs[n], r);
      assert xs == xs[..n] + [xs[n]];
      SumAppend(Scaled(xs[..n], r), Product(r, xs[n]));
      SumScaled(xs[..n], r);
      Spread(r, Sum(xs[..n]), xs[n]);
    }
  }

  lemma {:induction false} Spread(r: real, a: real, b: real)
    ensures r * (a + b) == r * a + Product(r, b)
  {
  }

  lemma {:induction false} ScaledSnoc(xs: seq<real>, x: real, r: real)
    ensures Scaled(xs + [x], r) == Scaled(xs, r) + [Product(r, x)]
  {
    hide Product;
  }

  lemma {:induction false} DiscountedSnoc(xs: seq<real>, x: real, r: real)
    ensures Sum(Discounted(xs + [x], r)) == r * Sum(Discounted(xs, r)) + x
  {
    var n := |xs|;
    DiscountedIs(xs, x, r);
    hide Discounted, Scaled;
    SumAppend(Scaled(Discounted(xs, r), r), Product(1.0, x));
    SumScaled(Discounted(xs, r), r);
  }

  lemma {:induction false} DiscountedIs(xs: seq<real>, x: real, r: real)
    ensures Discounted(xs + [x], r) == Scaled(Discounted(xs, r), r) + [Product(1.0, x)]
  {
    forall i | 0 <= i < |xs|
      ensures Product(Power(r, |xs| - i), xs[i]) == Product(r, Product(Power(r, |xs| - 1 - i), xs[i]))
    {
      OneMoreFactor(r, |xs| - 1 - i, xs[i]);
    }
    hide Product;
    assert Power(r, 0) == 1.0;
  }

  lemma {:induction false} OneMoreFactor(r: real, n: nat, x: real)
    ensures Product(Power(r, n + 1), x) == Product(r, Product(Power(r, n), x))
  {
  }

  /** A running value decayed by one factor and moved by the next value. */
  function Moved(previous: real, x: real, r: real, weight: real): real {
    r * previous + weight * x
  }

  /** A seed followed by values taken in one at a time, in closed form. */
  function Weighted(seed: real, xs: seq<real>, r: real, weight: real): real {
    Power(r, |xs|) * seed + weight * Sum(Discounted(xs, r))
  }

  lemma {:induction false} WeightedSnoc(seed: real, xs: seq<real>, x: real, r: real, weight: real)
    ensures Weighted(seed, xs + [x], r, weight) == Moved(Weighted(seed, xs, r, weight), x, r, weight)
  {
    DiscountedSnoc(xs, x, r);
    Distribute(r, Power(r, |xs|), seed, weight, Sum(Discounted(xs, r)), x);
  }

  lemma {:induction false} Distribute(r: real, p: real, seed: real, weight: real, sum: real, x: real)
    ensures (r * p) * seed + weight * (r * sum + x) == r * (p * seed + weight * sum) + weight * x
  {
    assert (r * p) * seed == r * (p * seed);
    assert weight * (r * sum) == r * (weight * sum);
  }

  lemma {:induction false} NothingWeighted(xs: seq<real>, seed: real, r: real, weight: real)
    ensures xs[..|xs|] == xs && Weighted(seed, xs[|xs|..], r, weight) == seed
  {
    assert xs[|xs|..] == [];
  }

  lemma {:induction false} SplitLast(xs: seq<real>, period: nat)
    requires period < |xs|
    ensures var n := |xs| - 1; xs[..n][..period] == xs[..period] && xs[period..] == xs[..n][period..] + [xs[n]]
  {
  }

  /** The exponential average: the mean of the first `period` prices, and every later price with weight k (1 - k)^age,
      where k is 2 / (period + 1). */
  lemma {:induction false} EmaWeights(h: seq<real>, period: nat)
    requires 1 <= period <= |h|
    ensures var k := 2.0 / (period + 1) as real;
      Ema(h, period) == Weighted(Sum(h[..period]) / period as real, h[period..], 1.0 - k, k)
    decreases |h|
  {
    hide *;
    var k := 2.0 / (period + 1) as real;
    var seed := Sum(h[..period]) / period as real;
    EmaStep(h, period);
    if |h| == period {
      NothingWeighted(h, seed, 1.0 - k, k);
    } else {
      var n := |h| - 1;
      EmaWeights(h[..n], period);
      SplitLast(h, period);
      WeightedSnoc(seed, h[..n][period..], h[n], 1.0 - k, k);
    }
  }

  lemma {:induction false} EmaStep(h: seq<real>, period: nat)
    requires 1 <= period <= |h|
    ensures |h| == period ==> Ema(h, period) == Sum(h) / period as real
    ensures |h| > period ==>
      var k := 2.0 / (period + 1) as real;
      Ema(h, period) == Moved(Ema(h[..|h| - 1], period), h[|h| - 1], 1.0 - k, k)
  {
    if |h| > period {
      var k := 2.0 / (period + 1) as real;
      BlendIs(Ema(h[..|h| - 1], period), h[|h| - 1], k);
    }
  }

  lemma {:induction false} BlendIs(previous: real, price: real, k: real)
    ensures Blend(previous, price, k) == Moved(previous, price, 1.0 - k, k)
  {
  }

  /** Wilder's average: the same with k equal to 1 / period. */
  lemma {:induction false} WilderWeights(xs: seq<real>, period: nat)
    requires 1 <= period <= |xs|
    ensures var k := 1.0 / period as real;
      Wilder(xs, period) == Weighted(Sum(xs[..period]) / period as real, xs[period..], 1.0 - k, k)
    decreases |xs|
  {
    hide *;
    var k := 1.0 / period as real;
    var seed := Sum(xs[..period]) / period as real;
    WilderStep(xs, period);
    if |xs| == period {
      NothingWeighted(xs, seed, 1.0 - k, k);
    } else {
      var n := |xs| - 1;
      WilderWeights(xs[..n], period);
      SplitLast(xs, period);
      WeightedSnoc(seed, xs[..n][period..], xs[n], 1.0 - k, k);
    }
  }

  lemma {:induction false} WilderStep(xs: seq<real>, period: nat)
    requires 1 <= period <= |xs|
    ensures |xs| == period ==> Wilder(xs, period) == Sum(xs) / period as real
    ensures |xs| > period ==>
      var k := 1.0 / period as real;
      Wilder(xs, period) == Moved(Wilder(xs[..|xs| - 1], period), xs[|xs| - 1], 1.0 - k, k)
  {
    hide Smooth;
    if |xs| > period {
      SmoothIs(Wilder(xs[..|xs| - 1], period), xs[|xs| - 1], period, 1.0 / period as real);
    }
  }

  lemma {:induction false} SmoothIs(previous: real, x: real, period: nat, k: real)
    requires period >= 1 && k == 1.0 / period as real
    ensures Smooth(previous, x, period) == Moved(previous, x, 1.0 - k, k)
  {
    var p := period as real;
    assert k * p == 1.0;
    var q := (1.0 - k) * previous + k * x;
    assert (k * x) * p == x && (k * previous) * p == previous;
    assert q * p == previous * p - previous + x;
    QuotientIs(previous * (p - 1.0) + x, p, q);
  }

  /** Wilder's accumulation, as the directional movements use it: the sum of the first `period` values, and every
      later value with weight (1 - 1 / period)^age. */
  lemma {:induction false} AccumulatedWeights(xs: seq<real>, period: nat)
    requires 1 <= period <= |xs|
    ensures Accumulated(xs, period) == Weighted(Sum(xs[..period]), xs[period..], 1.0 - 1.0 / period as real, 1.0)
    decreases |xs|
  {
    hide *;
    var k := 1.0 / period as real;
    AccumulatedStep(xs, period);
    if |xs| == period {
      NothingWeighted(xs, Sum(xs), 1.0 - k, 1.0);
    } else {
      var n := |xs| - 1;
      AccumulatedWeights(xs[..n], period);
      SplitLast(xs, period);
      WeightedSnoc(Sum(xs[..period]), xs[..n][period..], xs[n], 1.0 - k, 1.0);
    }
  }

  lemma {:induction false} AccumulatedStep(xs: seq<real>, period: nat)
    requires 1 <= period <= |xs|
    ensures |xs| == period ==> Accumulated(xs, period) == Sum(xs)
    ensures |xs| > period ==>
      Accumulated(xs, period)
      == Moved(Accumulated(xs[..|xs| - 1], period), xs[|xs| - 1], 1.0 - 1.0 / period as real, 1.0)
  {
    hide Decay;
    if |xs| > period {
      DecayIs(Accumulated(xs[..|xs| - 1], period), xs[|xs| - 1], period, 1.0 / period as real);
    }
  }

  lemma {:induction false} DecayIs(previous: real, x: real, period: nat, k: real)
    requires period >= 1 && k == 1.0 / period as real
    ensures Decay(previous, x, period) == Moved(previous, x, 1.0 - k, 1.0)
  {
    var p := period as real;
    assert k * p == 1.0;
    assert (k * previous) * p == previous;
    QuotientIs(previous, p, k * previous);
  }
}
