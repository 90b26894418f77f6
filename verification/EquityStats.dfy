/** Drawdown, run-up and losing streak of a series of daily results, computed in one pass. */
module EquityStats {

  /** The running total after the first k days; it starts at zero. */
  function Equity(daily: seq<int>, k: nat): int
    requires k <= |daily|
  {
    if k == 0 then 0 else Equity(daily, k - 1) + daily[k - 1]
  }

  /** `fall` is the largest drop from any point of the running total to the same or a later one. */
  ghost predicate IsLargestFall(daily: seq<int>, n: nat, fall: int)
    requires n <= |daily|
  {
    && (forall i, j | 0 <= i <= j <= n :: Equity(daily, i) - Equity(daily, j) <= fall)
    && exists i, j | 0 <= i <= j <= n :: Equity(daily, i) - Equity(daily, j) == fall
  }

  ghost predicate IsLargestRise(daily: seq<int>, n: nat, rise: int)
    requires n <= |daily|
  {
    && (forall i, j | 0 <= i <= j <= n :: Equity(daily, j) - Equity(daily, i) <= rise)
    && exists i, j | 0 <= i <= j <= n :: Equity(daily, j) - Equity(daily, i) == rise
  }

  ghost predicate AllLosses(daily: seq<int>, from: nat, to: nat)
    requires from <= to <= |daily|
  {
    forall d | from <= d < to :: daily[d] < 0
  }

  /** `streak` is the length of the longest run of consecutive losing days among the first n. */
  ghost predicate IsLongestLoss(daily: seq<int>, n: nat, streak: int)
    requires n <= |daily|
  {
    && (forall i, j | 0 <= i <= j <= n && AllLosses(daily, i, j) :: j - i <= streak)
    && exists i, j | 0 <= i <= j <= n && AllLosses(daily, i, j) :: j - i == streak
  }

  ghost predicate IsPeak(daily: seq<int>, n: nat, peak: int)
    requires n <= |daily|
  {
    (forall i | 0 <= i <= n :: Equity(daily, i) <= peak) && exists i | 0 <= i <= n :: Equity(daily, i) == peak
  }

  ghost predicate IsTrough(daily: seq<int>, n: nat, trough: int)
    requires n <= |daily|
  {
    (forall i | 0 <= i <= n :: trough <= Equity(daily, i)) && exists i | 0 <= i <= n :: Equity(daily, i) == trough
  }

  /** The losing days just before day n number `streak`, and the day before them is not a loss. */
  ghost predicate IsCurrentStreak(daily: seq<int>, n: nat, streak: int)
    requires n <= |daily|
  {
    0 <= streak <= n && AllLosses(daily, n - streak, n) && (streak < n ==> daily[n - streak - 1] >= 0)
  }

  method ComputeEquityStats(daily: seq<int>) returns (maxDrawdown: int, maxRunup: int, maxLossStreak: int)
    ensures IsLargestFall(daily, |daily|, maxDrawdown) && maxDrawdown >= 0
    ensures IsLargestRise(daily, |daily|, maxRunup) && maxRunup >= 0
    ensures IsLongestLoss(daily, |daily|, maxLossStreak)
  {
    var cumulative, peak, trough, streak := 0, 0, 0, 0;
    maxDrawdown, maxRunup, maxLossStreak := 0, 0, 0;
    StartOfSeries(daily);
    var k := 0;
    hide Equity, IsPeak, IsTrough, IsCurrentStreak, IsLargestFall, IsLargestRise, IsLongestLoss;
    while k < |daily|
      invariant 0 <= k <= |daily| && cumulative == Equity(daily, k)
      invariant IsPeak(daily, k, peak) && IsTrough(daily, k, trough) && IsCurrentStreak(daily, k, streak)
      invariant IsLargestFall(daily, k, maxDrawdown) && IsLargestRise(daily, k, maxRunup)
      invariant IsLongestLoss(daily, k, maxLossStreak) && maxDrawdown >= 0 && maxRunup >= 0
    {
      cumulative := cumulative + daily[k];
      EquityStep(daily, k);
      PeakStep(daily, k, peak);
      if cumulative > peak {
        peak := cumulative;
      }
      FallStep(daily, k, peak, maxDrawdown);
      if peak - cumulative > maxDrawdown {
        maxDrawdown := peak - cumulative;
      }
      TroughStep(daily, k, trough);
      if cumulative < trough {
        trough := cumulative;
      }
      RiseStep(daily, k, trough, maxRunup);
      if cumulative - trough > maxRunup {
        maxRunup := cumulative - trough;
      }
      StreakStep(daily, k, streak, maxLossStreak);
      if daily[k] < 0 {
        streak := streak + 1;
        if streak > maxLossStreak {
          maxLossStreak := streak;
        }
      } else {
        streak := 0;
      }
      k := k + 1;
    }
  }

  function Larger(a: int, b: int): int {
    if b > a then b else a
  }

  lemma {:induction false} StartOfSeries(daily: seq<int>)
    ensures Equity(daily, 0) == 0 && IsPeak(daily, 0, 0) && IsTrough(daily, 0, 0) && IsCurrentStreak(daily, 0, 0)
    ensures IsLargestFall(daily, 0, 0) && IsLargestRise(daily, 0, 0) && IsLongestLoss(daily, 0, 0)
  {
    assert Equity(daily, 0) - Equity(daily, 0) == 0 && AllLosses(daily, 0, 0);
    assert 0 - 0 == 0;
  }

  lemma {:induction false} EquityStep(daily: seq<int>, k: nat)
    requires k < |daily|
    ensures Equity(daily, k + 1) == Equity(daily, k) + daily[k]
  {
  }

  lemma {:induction false} PeakStep(daily: seq<int>, k: nat, peak: int)
    requires k < |daily| && IsPeak(daily, k, peak)
    ensures IsPeak(daily, k + 1, Larger(peak, Equity(daily, k + 1)))
  {
    hide Equity;
    var at :| 0 <= at <= k && Equity(daily, at) == peak;
    assert Equity(daily, if Equity(daily, k + 1) > peak then k + 1 else at) == Larger(peak, Equity(daily, k + 1));
  }

  lemma {:induction false} TroughStep(daily: seq<int>, k: nat, trough: int)
    requires k < |daily| && IsTrough(daily, k, trough)
    ensures IsTrough(daily, k + 1, -Larger(-trough, -Equity(daily, k + 1)))
  {
    hide Equity;
    var at :| 0 <= at <= k && Equity(daily, at) == trough;
    assert Equity(daily, if Equity(daily, k + 1) < trough then k + 1 else at)
        == -Larger(-trough, -Equity(daily, k + 1));
  }

  lemma {:induction false} FallStep(daily: seq<int>, k: nat, peak: int, fall: int)
    requires k < |daily| && IsLargestFall(daily, k, fall) && IsPeak(daily, k + 1, peak)
    ensures IsLargestFall(daily, k + 1, Larger(fall, peak - Equity(daily, k + 1)))
  {
    hide Equity;
    var top :| 0 <= top <= k + 1 && Equity(daily, top) == peak;
    var i, j :| 0 <= i <= j <= k && Equity(daily, i) - Equity(daily, j) == fall;
    assert Equity(daily, top) - Equity(daily, k + 1) == peak - Equity(daily, k + 1);
  }

  lemma {:induction false} RiseStep(daily: seq<int>, k: nat, trough: int, rise: int)
    requires k < |daily| && IsLargestRise(daily, k, rise) && IsTrough(daily, k + 1, trough)
    ensures IsLargestRise(daily, k + 1, Larger(rise, Equity(daily, k + 1) - trough))
  {
    hide Equity;
    var low :| 0 <= low <= k + 1 && Equity(daily, low) == trough;
    var i, j :| 0 <= i <= j <= k && Equity(daily, j) - Equity(daily, i) == rise;
    assert Equity(daily, k + 1) - Equity(daily, low) == Equity(daily, k + 1) - trough;
  }

  lemma {:induction false} LossesEndingHere(daily: seq<int>, n: nat, streak: int, i: nat)
    requires i <= n <= |daily| && IsCurrentStreak(daily, n, streak) && AllLosses(daily, i, n)
    ensures n - i <= streak
  {
  }

  lemma {:induction false} StreakStep(daily: seq<int>, k: nat, streak: int, longest: int)
    requires k < |daily| && IsCurrentStreak(daily, k, streak) && IsLongestLoss(daily, k, longest)
    ensures var next := if daily[k] < 0 then streak + 1 else 0;
            IsCurrentStreak(daily, k + 1, next) && IsLongestLoss(daily, k + 1, Larger(longest, next))
  {
    var next := if daily[k] < 0 then streak + 1 else 0;
    forall i, j | 0 <= i <= j <= k + 1 && AllLosses(daily, i, j) ensures j - i <= Larger(longest, next) {
      if j == k + 1 {
        LossesEndingHere(daily, k + 1, next, i);
      }
    }
    assert AllLosses(daily, k + 1 - next, k + 1);
    var i, j :| 0 <= i <= j <= k && AllLosses(daily, i, j) && j - i == longest;
    assert IsLongestLoss(daily, k + 1, Larger(longest, next)) by {
      if next > longest {
        assert (k + 1) - (k + 1 - next) == next;
      } else {
        assert j - i == longest;
      }
    }
  }

  lemma {:induction false} EquityBetween(daily: seq<int>, i: nat, j: nat, sign: int)
    requires i <= j <= |daily| && (sign == 1 || sign == -1) && forall d | i <= d < j :: sign * daily[d] >= 0
    ensures sign * Equity(daily, i) <= sign * Equity(daily, j)
    decreases j
  {
    if i < j {
      EquityBetween(daily, i, j - 1, sign);
    }
  }

  /** Days without a loss have no drawdown and rise by all they gain, and days without a gain the reverse. */
  lemma {:induction false} OneWayDays(daily: seq<int>, fall: int, rise: int)
    requires IsLargestFall(daily, |daily|, fall) && IsLargestRise(daily, |daily|, rise)
    ensures (forall d | 0 <= d < |daily| :: daily[d] >= 0) ==> fall == 0 && rise == Equity(daily, |daily|)
    ensures (forall d | 0 <= d < |daily| :: daily[d] <= 0) ==> rise == 0 && fall == -Equity(daily, |daily|)
  {
    hide Equity;
    StartIsZero(daily);
    var n := |daily|;
    var i, j :| 0 <= i <= j <= n && Equity(daily, i) - Equity(daily, j) == fall;
    var k, l :| 0 <= k <= l <= n && Equity(daily, l) - Equity(daily, k) == rise;
    assert Equity(daily, 0) - Equity(daily, 0) <= fall && Equity(daily, 0) - Equity(daily, n) <= fall;
    assert Equity(daily, 0) - Equity(daily, 0) <= rise && Equity(daily, n) - Equity(daily, 0) <= rise;
    if forall d | 0 <= d < n :: daily[d] >= 0 {
      EquityBetween(daily, i, j, 1);
      EquityBetween(daily, 0, k, 1);
      EquityBetween(daily, l, n, 1);
    }
    if forall d | 0 <= d < n :: daily[d] <= 0 {
      EquityBetween(daily, k, l, -1);
      EquityBetween(daily, 0, i, -1);
      EquityBetween(daily, j, n, -1);
    }
  }

  lemma {:induction false} StartIsZero(daily: seq<int>)
    ensures Equity(daily, 0) == 0
  {
  }
}
