/** Sums of products and the Binet-Cauchy identity, shared by the regression and the covariance proofs. */
module PairSums {
  import opened Decimals

  /** Sum of a[i] * b[i] over the first k indices. */
  function Dot(a: seq<real>, b: seq<real>, k: nat): real
    requires k <= |a| && k <= |b|
  {
    if k == 0 then 0.0 else Dot(a, b, k - 1) + a[k - 1] * b[k - 1]
  }

  /** Sum of the first k entries. */
  function Total(a: seq<real>, k: nat): real
    requires k <= |a|
  {
    Sum(a[..k])
  }

  lemma {:induction false} TotalStep(a: seq<real>, k: nat)
    requires k < |a|
    ensures Total(a, k + 1) == Total(a, k) + a[k] && Total(a, 0) == 0.0
  {
    assert a[..k + 1][..k] == a[..k];
  }

  function Ones(n: nat): seq<real> {
    seq(n, _ => 1.0)
  }

  /** The 2x2 minor of the columns i and j of the rows a and b. */
  function Minor(a: seq<real>, b: seq<real>, i: nat, j: nat): real
    requires i < |a| == |b| && j < |a|
  {
    a[i] * b[j] - a[j] * b[i]
  }

  /** Sum over i < k of the products of the two minors at (i, j). */
  function MinorRow(a: seq<real>, b: seq<real>, c: seq<real>, d: seq<real>, k: nat, j: nat): real
    requires |a| == |b| == |c| == |d| && k <= |a| && j < |a|
  {
    if k == 0 then 0.0 else MinorRow(a, b, c, d, k - 1, j) + Minor(a, b, k - 1, j) * Minor(c, d, k - 1, j)
  }

  /** Sum over all pairs i < j < k of the products of the two minors at (i, j). */
  function MinorPairs(a: seq<real>, b: seq<real>, c: seq<real>, d: seq<real>, k: nat): real
    requires |a| == |b| == |c| == |d| && k <= |a|
  {
    if k == 0 then 0.0 else MinorPairs(a, b, c, d, k - 1) + MinorRow(a, b, c, d, k - 1, k - 1)
  }

  lemma MinorProduct(ai: real, aj: real, bi: real, bj: real, ci: real, cj: real, di: real, dj: real)
    ensures (ai * bj - aj * bi) * (ci * dj - cj * di)
         == (bj * dj) * (ai * ci) - (bj * cj) * (ai * di) - (aj * dj) * (bi * ci) + (aj * cj) * (bi * di)
  {
  }

  /** The row sum in terms of the four sums of products. */
  function Expansion(aj: real, bj: real, cj: real, dj: real, ac: real, ad: real, bc: real, bd: real): real {
    (bj * dj) * ac - (bj * cj) * ad - (aj * dj) * bc + (aj * cj) * bd
  }

  lemma ExpansionAdds(aj: real, bj: real, cj: real, dj: real, p: real, q: real, r: real, s: real,
                      ai: real, bi: real, ci: real, di: real)
    ensures Expansion(aj, bj, cj, dj, p + ai * ci, q + ai * di, r + bi * ci, s + bi * di)
         == Expansion(aj, bj, cj, dj, p, q, r, s) + (ai * bj - aj * bi) * (ci * dj - cj * di)
  {
    MinorProduct(ai, aj, bi, bj, ci, cj, di, dj);
    var x, y, z, w := bj * dj, bj * cj, aj * dj, aj * cj;
    assert x * (p + ai * ci) == x * p + x * (ai * ci);
    assert y * (q + ai * di) == y * q + y * (ai * di);
    assert z * (r + bi * ci) == z * r + z * (bi * ci);
    assert w * (s + bi * di) == w * s + w * (bi * di);
  }

  lemma {:induction false} RowExpansion(a: seq<real>, b: seq<real>, c: seq<real>, d: seq<real>, k: nat, j: nat)
    requires |a| == |b| == |c| == |d| && k <= |a| && j < |a|
    ensures MinorRow(a, b, c, d, k, j)
         == Expansion(a[j], b[j], c[j], d[j], Dot(a, c, k), Dot(a, d, k), Dot(b, c, k), Dot(b, d, k))
  {
    if k > 0 {
      var i := k - 1;
      RowExpansion(a, b, c, d, i, j);
      ExpansionAdds(a[j], b[j], c[j], d[j], Dot(a, c, i), Dot(a, d, i), Dot(b, c, i), Dot(b, d, i),
        a[i], b[i], c[i], d[i]);
    }
  }

  lemma DeterminantGrows(p: real, q: real, r: real, s: real, a: real, b: real, c: real, d: real,
                         p': real, q': real, r': real, s': real)
    requires p' == p + a * c && q' == q + a * d && r' == r + b * c && s' == s + b * d
    ensures p' * s' - q' * r' == (p * s - q * r) + Expansion(a, b, c, d, p, q, r, s)
  {
    assert (a * c) * (b * d) == (a * d) * (b * c);
    assert p' * s' == p * s + p * (b * d) + (a * c) * s + (a * c) * (b * d);
    assert q' * r' == q * r + q * (b * c) + (a * d) * r + (a * d) * (b * c);
  }

  /** Binet-Cauchy: the determinant of sums of products is the sum of products of minors over all pairs. */
  lemma {:induction false} BinetCauchy(a: seq<real>, b: seq<real>, c: seq<real>, d: seq<real>, k: nat)
    requires |a| == |b| == |c| == |d| && k <= |a|
    ensures Dot(a, c, k) * Dot(b, d, k) - Dot(a, d, k) * Dot(b, c, k) == MinorPairs(a, b, c, d, k)
  {
    if k > 0 {
      var i := k - 1;
      BinetCauchy(a, b, c, d, i);
      RowExpansion(a, b, c, d, i, i);
      DeterminantGrows(Dot(a, c, i), Dot(a, d, i), Dot(b, c, i), Dot(b, d, i), a[i], b[i], c[i], d[i],
        Dot(a, c, k), Dot(a, d, k), Dot(b, c, k), Dot(b, d, k));
    }
  }

  lemma {:induction false} PairsNonNegative(a: seq<real>, b: seq<real>, c: seq<real>, d: seq<real>, k: nat)
    requires |a| == |b| == |c| == |d| && k <= |a|
    requires forall i, j | 0 <= i < j < k :: Minor(a, b, i, j) * Minor(c, d, i, j) >= 0.0
    ensures MinorPairs(a, b, c, d, k) >= 0.0
  {
    if k > 0 {
      PairsNonNegative(a, b, c, d, k - 1);
      RowNonNegative(a, b, c, d, k - 1, k - 1);
    }
  }

  lemma {:induction false} RowNonNegative(a: seq<real>, b: seq<real>, c: seq<real>, d: seq<real>, k: nat, j: nat)
    requires |a| == |b| == |c| == |d| && k <= j < |a|
    requires forall i | 0 <= i < k :: Minor(a, b, i, j) * Minor(c, d, i, j) >= 0.0
    ensures MinorRow(a, b, c, d, k, j) >= 0.0
  {
    if k > 0 {
      RowNonNegative(a, b, c, d, k - 1, j);
    }
  }

  lemma {:induction false} RowPositive(a: seq<real>, b: seq<real>, c: seq<real>, d: seq<real>, k: nat, j: nat)
    requires |a| == |b| == |c| == |d| && 0 < k <= j < |a|
    requires forall i | 0 <= i < k :: Minor(a, b, i, j) * Minor(c, d, i, j) > 0.0
    ensures MinorRow(a, b, c, d, k, j) > 0.0
  {
    RowNonNegative(a, b, c, d, k - 1, j);
  }

  /** Two or more columns whose minors always agree in sign give a strictly positive determinant. */
  lemma {:induction false} PairsPositive(a: seq<real>, b: seq<real>, c: seq<real>, d: seq<real>, k: nat)
    requires |a| == |b| == |c| == |d| && 2 <= k <= |a|
    requires forall i, j | 0 <= i < j < k :: Minor(a, b, i, j) * Minor(c, d, i, j) > 0.0
    ensures MinorPairs(a, b, c, d, k) > 0.0
  {
    PairsNonNegative(a, b, c, d, k - 1);
    RowPositive(a, b, c, d, k - 1, k - 1);
  }

  /** Cauchy-Schwarz. */
  lemma {:induction false} CauchySchwarz(a: seq<real>, b: seq<real>, k: nat)
    requires |a| == |b| && k <= |a|
    ensures Dot(a, b, k) * Dot(a, b, k) <= Dot(a, a, k) * Dot(b, b, k)
  {
    hide MinorPairs, Dot;
    forall i, j | 0 <= i < j < k ensures Minor(a, b, i, j) * Minor(a, b, i, j) >= 0.0 {
      SquareNonNegative(Minor(a, b, i, j));
    }
    PairsNonNegative(a, b, a, b, k);
    BinetCauchy(a, b, a, b, k);
    DotSymmetric(a, b, k);
    hide *;
    FromDeterminant(Dot(a, a, k), Dot(b, b, k), Dot(a, b, k), Dot(b, a, k), MinorPairs(a, b, a, b, k));
  }

  lemma {:induction false} SquareNonNegative(x: real)
    ensures x * x >= 0.0
  {
  }

  lemma {:induction false} FromDeterminant(aa: real, bb: real, ab: real, ba: real, pairs: real)
    requires aa * bb - ab * ba == pairs && pairs >= 0.0 && ab == ba
    ensures ab * ab <= aa * bb
  {
    assert ab * ba == ab * ab;
  }

  lemma {:induction false} DotSymmetric(a: seq<real>, b: seq<real>, k: nat)
    requires k <= |a| && k <= |b|
    ensures Dot(a, b, k) == Dot(b, a, k)
  {
    if k > 0 {
      DotSymmetric(a, b, k - 1);
    }
  }

  lemma {:induction false} DotSelfNonNegative(a: seq<real>, k: nat)
    requires k <= |a|
    ensures Dot(a, a, k) >= 0.0
  {
    if k > 0 {
      DotSelfNonNegative(a, k - 1);
    }
  }

  lemma {:induction false} DotOnes(a: seq<real>, k: nat)
    requires k <= |a|
    ensures Dot(a, Ones(|a|), k) == Total(a, k)
    ensures Dot(Ones(|a|), a, k) == Total(a, k)
    ensures Dot(Ones(|a|), Ones(|a|), k) == k as real
  {
    if k > 0 {
      DotOnes(a, k - 1);
      TotalStep(a, k - 1);
    }
  }

  lemma Recentre(n: real, ones: real, dot: real, s1: real, s2: real, t1: real, t2: real)
    requires ones == n && s1 == t1 && s2 == t2
    ensures dot * ones - s1 * s2 == n * dot - t1 * t2
    ensures s1 * s2 - dot * ones == t1 * t2 - n * dot
  {
  }

  /** Binet-Cauchy against the row of ones. */
  lemma CentredDot(a: seq<real>, c: seq<real>, n: nat)
    requires |a| == |c| == n
    ensures n as real * Dot(a, c, n) - Total(a, n) * Total(c, n) == MinorPairs(a, Ones(n), c, Ones(n), n)
  {
    hide MinorPairs, Dot, Total;
    var ones := Ones(n);
    DotOnes(a, n);
    DotOnes(c, n);
    BinetCauchy(a, ones, c, ones, n);
    Recentre(n as real, Dot(ones, ones, n), Dot(a, c, n), Dot(a, ones, n), Dot(ones, c, n), Total(a, n), Total(c, n));
  }
}
