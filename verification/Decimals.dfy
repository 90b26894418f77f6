/** Decimal arithmetic as exact reals, with the rounding the program applies to reported figures. */
module Decimals {

  datatype Option<+T> = None | Some(value: T)

  function Abs(x: real): (r: real)
    ensures r >= 0.0 && (r == x || r == -x)
  {
    if x < 0.0 then -x else x
  }

  function Max(a: real, b: real): (r: real)
    ensures r >= a && r >= b && (r == a || r == b)
  {
    if a > b then a else b
  }

  function Min(a: real, b: real): (r: real)
    ensures r <= a && r <= b && (r == a || r == b)
  {
    if a < b then a else b
  }

  function Sum(xs: seq<real>): real {
    if xs == [] then 0.0 else Sum(xs[..|xs| - 1]) + xs[|xs| - 1]
  }

  lemma SumAppend(xs: seq<real>, x: real)
    ensures Sum(xs + [x]) == Sum(xs) + x
  {
    assert (xs + [x])[..|xs|] == xs;
  }

  lemma {:induction false} SumAtLeast(xs: seq<real>, lo: real)
    requires forall i | 0 <= i < |xs| :: xs[i] >= lo
    ensures Sum(xs) >= lo * |xs| as real
    decreases |xs|
  {
    if xs != [] {
      SumAtLeast(xs[..|xs| - 1], lo);
      assert lo * |xs| as real == lo * (|xs| - 1) as real + lo;
    }
  }

  lemma {:induction false} SumAtMost(xs: seq<real>, hi: real)
    requires forall i | 0 <= i < |xs| :: xs[i] <= hi
    ensures Sum(xs) <= hi * |xs| as real
    decreases |xs|
  {
    if xs != [] {
      SumAtMost(xs[..|xs| - 1], hi);
      assert hi * |xs| as real == hi * (|xs| - 1) as real + hi;
    }
  }

  /** Mean, zero for no values. */
  function MeanOf(xs: seq<real>): real {
    if |xs| == 0 then 0.0 else Sum(xs) / |xs| as real
  }

  function Pow10(places: nat): (r: real)
    ensures r >= 1.0
  {
    if places == 0 then 1.0 else 10.0 * Pow10(places - 1)
  }

  /** Nearest integer, halves away from zero. */
  function Nearest(x: real): int {
    if x >= 0.0 then (x + 0.5).Floor else -((0.5 - x).Floor)
  }

  /** Decimal rounding to `places` digits, halves away from zero. */
  function Round(x: real, places: nat): real {
    RoundAt(x, Pow10(places))
  }

  function RoundAt(x: real, scale: real): real
    requires scale > 0.0
  {
    Nearest(x * scale) as real / scale
  }

  lemma NearestMonotone(x: real, y: real)
    requires x <= y
    ensures Nearest(x) <= Nearest(y)
  {
    if x < 0.0 <= y {
      assert (0.5 - x).Floor >= 0;
    }
  }

  lemma NearestError(x: real)
    ensures -0.5 <= Nearest(x) as real - x <= 0.5
  {
  }

  lemma QuotientMonotone(a: real, b: real, d: real)
    requires d > 0.0 && a <= b
    ensures a / d <= b / d
  {
  }

  lemma ProductMonotone(a: real, b: real, c: real)
    requires a <= b && 0.0 <= c
    ensures a * c <= b * c
  {
  }

  lemma QuotientIs(n: real, d: real, q: real)
    requires d != 0.0 && q * d == n
    ensures n / d == q
  {
  }

  lemma QuotientAtMost(a: real, bound: real, d: real)
    requires d > 0.0 && a <= bound * d
    ensures a / d <= bound
  {
  }

  lemma QuotientAtLeast(a: real, bound: real, d: real)
    requires d > 0.0 && a >= bound * d
    ensures a / d >= bound
  {
  }

  lemma QuotientPositive(a: real, d: real)
    requires a > 0.0 && d > 0.0
    ensures a / d > 0.0
  {
  }

  /** Rounding never reverses an order. */
  lemma RoundMonotone(x: real, y: real, places: nat)
    requires x <= y
    ensures Round(x, places) <= Round(y, places)
  {
    RoundAtMonotone(x, y, Pow10(places));
  }

  lemma RoundAtMonotone(x: real, y: real, scale: real)
    requires x <= y && scale > 0.0
    ensures RoundAt(x, scale) <= RoundAt(y, scale)
  {
    ProductMonotone(x, y, scale);
    NearestMonotone(x * scale, y * scale);
    QuotientMonotone(Nearest(x * scale) as real, Nearest(y * scale) as real, scale);
  }

  /** Rounding moves a value by at most half a unit of the last kept digit. */
  lemma RoundError(x: real, places: nat)
    ensures -(0.5 / Pow10(places)) <= Round(x, places) - x <= 0.5 / Pow10(places)
  {
    RoundAtError(x, Pow10(places));
  }

  lemma RoundAtError(x: real, scale: real)
    requires scale > 0.0
    ensures -(0.5 / scale) <= RoundAt(x, scale) - x <= 0.5 / scale
  {
    var n := Nearest(x * scale) as real;
    NearestError(x * scale);
    var half := 0.5 / scale;
    assert half * scale == 0.5;
    QuotientAtMost(n, x + half, scale) by {
      assert (x + half) * scale == x * scale + 0.5;
    }
    QuotientAtLeast(n, x - half, scale) by {
      assert (x - half) * scale == x * scale - 0.5;
    }
  }

  /** Rounding treats both signs alike, and takes a half away from zero. */
  lemma NearestOfHalves(x: real, n: nat)
    ensures Nearest(-x) == -Nearest(x)
    ensures Nearest(n as real + 0.5) == n + 1 && Nearest(-(n as real + 0.5)) == -(n + 1)
  {
    assert (n as real + 1.0).Floor == n + 1;
  }

  /** An integer is already rounded. */
  lemma RoundOfInteger(n: int, places: nat)
    ensures Round(n as real, places) == n as real
  {
    var m := Pow10Integer(places);
    IntegerProduct(n, m);
    RoundAtExact(n as real, Pow10(places), n * m);
  }

  lemma IntegerProduct(n: int, m: int)
    ensures n as real * m as real == (n * m) as real
  {
  }

  lemma RoundAtExact(x: real, scale: real, m: int)
    requires scale > 0.0 && x * scale == m as real
    ensures RoundAt(x, scale) == x
  {
    NearestOfInteger(m);
    QuotientIs(m as real, scale, x);
  }

  lemma NearestOfInteger(n: int)
    ensures Nearest(n as real) == n
  {
    assert (n as real + 0.5).Floor == n;
    assert (0.5 - n as real).Floor == -n;
  }

  lemma {:induction false} Pow10Integer(places: nat) returns (m: int)
    ensures Pow10(places) == m as real
  {
    if places == 0 {
      m := 1;
    } else {
      var q := Pow10Integer(places - 1);
      m := 10 * q;
    }
  }
}
