/** Counts and sums over a list. */
module Folds {

  function HowMany<T>(xs: seq<T>, p: T -> bool): nat {
    if xs == [] then 0 else HowMany(xs[..|xs| - 1], p) + if p(xs[|xs| - 1]) then 1 else 0
  }

  function SumWhere<T>(xs: seq<T>, p: T -> bool, f: T -> real): real {
    if xs == [] then 0.0 else SumWhere(xs[..|xs| - 1], p, f) + if p(xs[|xs| - 1]) then f(xs[|xs| - 1]) else 0.0
  }

  function SumOf<T>(xs: seq<T>, f: T -> int): int {
    if xs == [] then 0 else SumOf(xs[..|xs| - 1], f) + f(xs[|xs| - 1])
  }

  lemma {:induction false} FoldsSnoc<T>(xs: seq<T>, x: T, p: T -> bool, f: T -> int)
    ensures HowMany(xs + [x], p) == HowMany(xs, p) + if p(x) then 1 else 0
    ensures SumOf(xs + [x], f) == SumOf(xs, f) + f(x)
  {
    assert (xs + [x])[..|xs|] == xs;
  }
}
