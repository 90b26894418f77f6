/** Support and resistance levels: swing points, sorted by price in place, merged into clusters. */
module SupportResistance {
  import opened Decimals
  import opened MarketData

  datatype SwingPoint = SwingPoint(price: real, idx: nat)

  datatype SwingLevel = SwingLevel(price: real, touches: nat, lastIdx: nat)

  // ----- Swing points

  function AppendIf(points: seq<SwingPoint>, condition: bool, p: SwingPoint): seq<SwingPoint> {
    if condition then points + [p] else points
  }

  /** The swing points of the bars before n, oldest first: a bar is compared with `lookback` bars on either side. */
  ghost function Swings(prices: seq<Bar>, lookback: nat, n: nat): seq<SwingPoint>
    requires lookback <= n && n + lookback <= |prices|
    decreases n
  {
    if n == lookback then []
    else
      var i := n - 1;
      var before := Swings(prices, lookback, i);
      AppendIf(AppendIf(before, IsExtreme(prices, true, lookback, i), SwingPoint(prices[i].high, i)),
               IsExtreme(prices, false, lookback, i), SwingPoint(prices[i].low, i))
  }

  /** Over bars: the points are the highs above, and the lows below, those of all bars within the look-back. */
  lemma {:induction false} SwingsOverBars(prices: seq<Bar>, lookback: nat, n: nat, p: SwingPoint)
    requires lookback <= n && n + lookback <= |prices|
    ensures p in Swings(prices, lookback, n) <==>
      && lookback <= p.idx < n
      && (|| (p.price == prices[p.idx].high && TopsAll(prices, lookback, p.idx))
          || (p.price == prices[p.idx].low && BottomsAll(prices, lookback, p.idx)))
    decreases n
  {
    hide IsExtreme, TopsAll, BottomsAll;
    if n > lookback {
      SwingsOverBars(prices, lookback, n - 1, p);
      ExtremeOverBars(prices, lookback, n - 1);
    }
  }

  /** The high of a bar is above those of all bars within the look-back on either side. */
  ghost predicate TopsAll(prices: seq<Bar>, lookback: nat, i: nat)
    requires lookback <= i && i + lookback < |prices|
  {
    forall k | i - lookback <= k <= i + lookback && k != i :: prices[k].high < prices[i].high
  }

  ghost predicate BottomsAll(prices: seq<Bar>, lookback: nat, i: nat)
    requires lookback <= i && i + lookback < |prices|
  {
    forall k | i - lookback <= k <= i + lookback && k != i :: prices[i].low < prices[k].low
  }

  lemma {:induction false} ExtremeOverBars(prices: seq<Bar>, lookback: nat, i: nat)
    requires lookback <= i && i + lookback < |prices|
    ensures IsExtreme(prices, true, lookback, i) <==> TopsAll(prices, lookback, i)
    ensures IsExtreme(prices, false, lookback, i) <==> BottomsAll(prices, lookback, i)
  {
    if TopsAll(prices, lookback, i) {
      forall k | i - lookback <= k <= i + lookback && k != i
        ensures ValueAt(prices, true, k) < ValueAt(prices, true, i)
      {
        assert prices[k].high < prices[i].high;
      }
    }
    if IsExtreme(prices, true, lookback, i) {
      forall k | i - lookback <= k <= i + lookback && k != i ensures prices[k].high < prices[i].high {
        assert ValueAt(prices, true, k) < ValueAt(prices, true, i);
      }
    }
    if BottomsAll(prices, lookback, i) {
      forall k | i - lookback <= k <= i + lookback && k != i
        ensures ValueAt(prices, false, k) > ValueAt(prices, false, i)
      {
        assert prices[i].low < prices[k].low;
      }
    }
    if IsExtreme(prices, false, lookback, i) {
      forall k | i - lookback <= k <= i + lookback && k != i ensures prices[i].low < prices[k].low {
        assert ValueAt(prices, false, k) > ValueAt(prices, false, i);
      }
    }
  }

  ghost predicate Sorted(points: seq<SwingPoint>) {
    forall i, j | 0 <= i < j < |points| :: points[i].price <= points[j].price
  }

  /** Everything before n is in order except that the point at `hole` may belong further left. */
  ghost predicate SortedBut(points: seq<SwingPoint>, n: nat, hole: nat)
    requires hole < n <= |points|
  {
    forall i, j | 0 <= i < j < n && j != hole :: points[i].price <= points[j].price
  }

  function Exchanged(points: seq<SwingPoint>, j: nat): seq<SwingPoint>
    requires 0 < j < |points|
  {
    points[j := points[j - 1]][j - 1 := points[j]]
  }

  lemma {:induction false} ExchangePermutes(points: seq<SwingPoint>, j: nat)
    requires 0 < j < |points|
    ensures multiset(Exchanged(points, j)) == multiset(points)
  {
  }

  lemma {:induction false} ExchangeSinks(points: seq<SwingPoint>, n: nat, j: nat)
    requires 0 < j < n <= |points| && SortedBut(points, n, j) && points[j].price < points[j - 1].price
    ensures SortedBut(Exchanged(points, j), n, j - 1)
  {
  }

  lemma {:induction false} SortedNext(points: seq<SwingPoint>, i: nat)
    requires i < |points| && Sorted(points[..i])
    ensures SortedBut(points, i + 1, i)
  {
    forall a, b | 0 <= a < b < i ensures points[a].price <= points[b].price {
      assert points[..i][a] == points[a] && points[..i][b] == points[b];
    }
  }

  lemma {:induction false} SunkInPlace(points: seq<SwingPoint>, n: nat, j: nat)
    requires j < n <= |points| && SortedBut(points, n, j) && (j > 0 ==> points[j - 1].price <= points[j].price)
    ensures Sorted(points[..n])
  {
    if j > 0 {
      forall a | 0 <= a < j ensures points[a].price <= points[j].price {
        assert a < j - 1 ==> points[a].price <= points[j - 1].price;
      }
    }
  }

  method InsertionSort(points: array<SwingPoint>)
    modifies points
    ensures Sorted(points[..]) && multiset(points[..]) == multiset(old(points[..]))
  {
    var i := 1;
    hide Sorted, SortedBut, Exchanged;
    SortedShort(points[..]);
    while i < points.Length
      invariant 1 <= i && (i < points.Length ==> Sorted(points[..i])) && (i >= points.Length ==> Sorted(points[..]))
      invariant multiset(points[..]) == multiset(old(points[..]))
    {
      SortedNext(points[..], i);
      Sink(points, i);
      assert points[..points.Length] == points[..];
      i := i + 1;
    }
  }

  lemma {:induction false} SortedShort(points: seq<SwingPoint>)
    ensures |points| <= 1 ==> Sorted(points)
    ensures |points| >= 1 ==> Sorted(points[..1])
  {
  }

  /** Moves the point at i left past every dearer one. */
  method Sink(points: array<SwingPoint>, i: nat)
    requires i < points.Length && SortedBut(points[..], i + 1, i)
    modifies points
    ensures Sorted(points[..i + 1]) && multiset(points[..]) == multiset(old(points[..]))
  {
    var j := i;
    hide Sorted, SortedBut, Exchanged;
    while j > 0 && points[j].price < points[j - 1].price
      invariant 0 <= j <= i && SortedBut(points[..], i + 1, j)
      invariant multiset(points[..]) == multiset(old(points[..]))
    {
      ghost var before := points[..];
      points[j], points[j - 1] := points[j - 1], points[j];
      ExchangeIs(before, points[..], j);
      ExchangePermutes(before, j);
      ExchangeSinks(before, i + 1, j);
      j := j - 1;
    }
    SunkInPlace(points[..], i + 1, j);
  }

  lemma {:induction false} ExchangeIs(before: seq<SwingPoint>, after: seq<SwingPoint>, j: nat)
    requires 0 < j < |before| == |after| && after[j] == before[j - 1] && after[j - 1] == before[j]
    requires forall k | 0 <= k < |before| && k != j && k != j - 1 :: after[k] == before[k]
    ensures after == Exchanged(before, j)
  {
  }

  method IsSwing(prices: seq<Bar>, lookback: nat, i: nat) returns (isHigh: bool, isLow: bool)
    requires lookback <= i && i + lookback < |prices|
    ensures isHigh == IsExtreme(prices, true, lookback, i) && isLow == IsExtreme(prices, false, lookback, i)
  {
    var high, low := prices[i].high, prices[i].low;
    isHigh, isLow := true, true;
    var j := i - lookback;
    while j <= i + lookback
      invariant i - lookback <= j <= i + lookback + 1
      invariant isHigh == forall k | i - lookback <= k < j && k != i :: ValueAt(prices, true, k) < high
      invariant isLow == forall k | i - lookback <= k < j && k != i :: ValueAt(prices, false, k) > low
    {
      assert ValueAt(prices, true, j) == prices[j].high && ValueAt(prices, false, j) == prices[j].low;
      if j != i {
        if prices[j].high >= high {
          isHigh := false;
        }
        if prices[j].low <= low {
          isLow := false;
        }
      }
      j := j + 1;
    }
  }

  /** The swing points of a series; none when it is too short for a single comparison. */
  ghost function AllSwings(prices: seq<Bar>, lookback: nat): seq<SwingPoint> {
    if |prices| < 2 * lookback then [] else Swings(prices, lookback, |prices| - lookback)
  }

  method FindSwings(prices: seq<Bar>, lookback: nat) returns (points: seq<SwingPoint>)
    ensures points == AllSwings(prices, lookback)
  {
    points := [];
    if |prices| < 2 * lookback {
      return;
    }
    var i := lookback;
    hide IsExtreme;
    while i < |prices| - lookback
      invariant lookback <= i <= |prices| - lookback && points == Swings(prices, lookback, i)
    {
      var isHigh, isLow := IsSwing(prices, lookback, i);
      if isHigh {
        points := points + [SwingPoint(prices[i].high, i)];
      }
      if isLow {
        points := points + [SwingPoint(prices[i].low, i)];
      }
      i := i + 1;
    }
  }

  method DetectSwingPoints(prices: seq<Bar>, lookback: nat) returns (points: seq<SwingPoint>)
    ensures Sorted(points) && multiset(points) == multiset(AllSwings(prices, lookback))
  {
    var found := FindSwings(prices, lookback);
    var buffer := new SwingPoint[|found|](k requires 0 <= k < |found| => found[k]);
    assert buffer[..] == found;
    InsertionSort(buffer);
    points := buffer[..];
  }

  // ----- Clusters

  /** A point joins the cluster opened by `first` when it lies within the relative tolerance of it. */
  predicate Joins(first: SwingPoint, p: SwingPoint, tolerance: real) {
    first.price != 0.0 && Abs(p.price - first.price) / first.price <= tolerance
  }

  /** points[from..to] is a cluster: all within tolerance of its first point, and as long as it can be. */
  ghost predicate IsCluster(points: seq<SwingPoint>, from: nat, to: nat, tolerance: real) {
    && from < to <= |points|
    && (forall k | from < k < to :: Joins(points[from], points[k], tolerance))
    && (to < |points| ==> !Joins(points[from], points[to], tolerance))
  }

  function Prices(points: seq<SwingPoint>): (ps: seq<real>)
    ensures |ps| == |points| && forall i | 0 <= i < |points| :: ps[i] == points[i].price
  {
    seq(|points|, i requires 0 <= i < |points| => points[i].price)
  }

  ghost predicate IsLatest(points: seq<SwingPoint>, idx: nat) {
    (exists i | 0 <= i < |points| :: points[i].idx == idx) && forall i | 0 <= i < |points| :: points[i].idx <= idx
  }

  /** A level reports its cluster's mean price, size and latest bar. */
  ghost predicate Summarises(level: SwingLevel, cluster: seq<SwingPoint>) {
    |cluster| > 0 && level.touches == |cluster| && IsLatest(cluster, level.lastIdx)
    && level.price == Sum(Prices(cluster)) / |cluster| as real
  }

  /** The levels summarise consecutive clusters points[cuts[c]..cuts[c + 1]] that cover the points before n. */
  ghost predicate IsClustering(points: seq<SwingPoint>, cuts: seq<nat>, levels: seq<SwingLevel>, tolerance: real,
                               n: nat) {
    && |cuts| == |levels| + 1 && cuts[0] == 0 && cuts[|levels|] == n
    && (forall c | 0 <= c < |levels| :: IsCluster(points, cuts[c], cuts[c + 1], tolerance)
                                       && Summarises(levels[c], points[cuts[c]..cuts[c + 1]]))
  }

  lemma {:induction false} SumStep(cluster: seq<SwingPoint>, k: nat)
    requires k < |cluster|
    ensures Sum(Prices(cluster)[..k + 1]) == Sum(Prices(cluster)[..k]) + cluster[k].price
  {
    assert Prices(cluster)[..k + 1][..k] == Prices(cluster)[..k];
  }

  lemma {:induction false} LatestStep(cluster: seq<SwingPoint>, k: nat, idx: nat)
    requires k < |cluster| && IsLatest(if k == 0 then cluster[..1] else cluster[..k], idx)
    ensures IsLatest(cluster[..k + 1], if cluster[k].idx > idx then cluster[k].idx else idx)
  {
    var before, after := if k == 0 then cluster[..1] else cluster[..k], cluster[..k + 1];
    var i :| 0 <= i < |before| && before[i].idx == idx;
    assert after[i].idx == idx && after[k].idx == cluster[k].idx;
    forall j | 0 <= j < |after| ensures after[j].idx <= if cluster[k].idx > idx then cluster[k].idx else idx {
      if j < k {
        assert before[j] == after[j];
      }
    }
  }

  /** The levels summarise consecutive clusters that make up all the points. */
  ghost predicate LevelsOf(points: seq<SwingPoint>, levels: seq<SwingLevel>, tolerance: real) {
    exists cuts: seq<nat> :: IsClustering(points, cuts, levels, tolerance, |points|)
  }

  method Level(cluster: seq<SwingPoint>) returns (level: SwingLevel)
    requires |cluster| > 0
    ensures Summarises(level, cluster)
  {
    var sum, maxIdx, k := 0.0, cluster[0].idx, 0;
    while k < |cluster|
      invariant 0 <= k <= |cluster| && sum == Sum(Prices(cluster)[..k])
      invariant IsLatest(if k == 0 then cluster[..1] else cluster[..k], maxIdx)
    {
      SumStep(cluster, k);
      LatestStep(cluster, k, maxIdx);
      sum := sum + cluster[k].price;
      if cluster[k].idx > maxIdx {
        maxIdx := cluster[k].idx;
      }
      k := k + 1;
    }
    assert Prices(cluster)[..k] == Prices(cluster) && cluster[..k] == cluster;
    level := SwingLevel(sum / |cluster| as real, |cluster|, maxIdx);
  }

  lemma {:induction false} ClusteringStep(points: seq<SwingPoint>, cuts: seq<nat>, levels: seq<SwingLevel>,
                                          tolerance: real, i: nat, j: nat, level: SwingLevel)
    requires IsClustering(points, cuts, levels, tolerance, i) && IsCluster(points, i, j, tolerance)
    requires Summarises(level, points[i..j])
    ensures IsClustering(points, cuts + [j], levels + [level], tolerance, j)
  {
    hide IsCluster, Summarises;
    var n := |levels|;
    assert (cuts + [j])[n] == i && (cuts + [j])[n + 1] == j;
  }

  method ClusterSwingPoints(points: seq<SwingPoint>, tolerance: real) returns (levels: seq<SwingLevel>)
    ensures LevelsOf(points, levels, tolerance)
  {
    levels := [];
    ghost var cuts: seq<nat> := [0];
    var i := 0;
    while i < |points|
      invariant 0 <= i <= |points| && IsClustering(points, cuts, levels, tolerance, i)
    {
      var j := i + 1;
      while j < |points| && Joins(points[i], points[j], tolerance)
        invariant i < j <= |points|
        invariant forall k | i < k < j :: Joins(points[i], points[k], tolerance)
      {
        j := j + 1;
      }
      var level := Level(points[i..j]);
      ClusteringStep(points, cuts, levels, tolerance, i, j, level);
      levels, cuts, i := levels + [level], cuts + [j], j;
    }
  }

  lemma {:induction false} TouchesCountPoints(points: seq<SwingPoint>, cuts: seq<nat>, levels: seq<SwingLevel>,
                                              tolerance: real, n: nat)
    requires IsClustering(points, cuts, levels, tolerance, n)
    ensures Touches(levels) == n
    decreases |levels|
  {
    if levels != [] {
      var c := |levels| - 1;
      assert IsCluster(points, cuts[c], cuts[c + 1], tolerance);
      TouchesCountPoints(points, cuts[..c + 1], levels[..c], tolerance, cuts[c]);
    }
  }

  function Touches(levels: seq<SwingLevel>): nat {
    if levels == [] then 0 else Touches(levels[..|levels| - 1]) + levels[|levels| - 1].touches
  }

  /** A mean lies strictly below a bound that no value exceeds and the first stays under. */
  lemma {:induction false} SumBelow(ps: seq<real>, bound: real)
    requires |ps| > 0 && ps[0] < bound && forall i | 0 <= i < |ps| :: ps[i] <= bound
    ensures Sum(ps) < bound * |ps| as real
    decreases |ps|
  {
    if |ps| > 1 {
      SumBelow(ps[..|ps| - 1], bound);
    } else {
      assert ps[..0] == [];
    }
  }

  lemma {:induction false} FarAbove(first: SwingPoint, p: SwingPoint, tolerance: real)
    requires tolerance >= 0.0 && 0.0 < first.price <= p.price && !Joins(first, p, tolerance)
    ensures first.price < p.price
  {
  }

  /** A level lies between the first price of its cluster and, strictly, the first price of the next. */
  lemma {:induction false} LevelBetween(points: seq<SwingPoint>, from: nat, to: nat, tolerance: real, level: SwingLevel)
    requires Sorted(points) && (forall i | 0 <= i < |points| :: points[i].price > 0.0) && tolerance >= 0.0
    requires IsCluster(points, from, to, tolerance) && Summarises(level, points[from..to])
    ensures points[from].price <= level.price
    ensures to < |points| ==> level.price < points[to].price
  {
    var ps := Prices(points[from..to]);
    hide Sum;
    forall i | 0 <= i < |ps| ensures ps[i] >= points[from].price && (to < |points| ==> ps[i] <= points[to].price) {
      assert points[from..to][i] == points[from + i];
    }
    if to < |points| {
      FarAbove(points[from], points[to], tolerance);
    }
    MeanAtLeast(ps, points[from].price);
    if to < |points| {
      MeanBelow(ps, points[to].price);
    }
  }

  /** Over prices: a cluster reaches at most the tolerance above its first price, its level lies in that stretch, and
      the next point lies beyond it. */
  lemma {:induction false} ClusterReach(points: seq<SwingPoint>, from: nat, to: nat, tolerance: real, level: SwingLevel)
    requires Sorted(points) && (forall i | 0 <= i < |points| :: points[i].price > 0.0) && tolerance >= 0.0
    requires IsCluster(points, from, to, tolerance) && Summarises(level, points[from..to])
    ensures var first := points[from].price;
      && (forall i | from <= i < to :: first <= points[i].price <= first * (1.0 + tolerance))
      && first <= level.price <= first * (1.0 + tolerance)
      && (to < |points| ==> points[to].price > first * (1.0 + tolerance))
  {
    hide *;
    ClusterMembers(points, from, to, tolerance);
    var reach := points[from].price * (1.0 + tolerance);
    var cluster := points[from..to];
    assert forall i | 0 <= i < |cluster| :: points[from].price <= cluster[i].price <= reach;
    LevelWithin(cluster, points[from].price, reach, level);
  }

  lemma {:induction false} ClusterMembers(points: seq<SwingPoint>, from: nat, to: nat, tolerance: real)
    requires Sorted(points) && (forall i | 0 <= i < |points| :: points[i].price > 0.0) && tolerance >= 0.0
    requires IsCluster(points, from, to, tolerance)
    ensures from < to <= |points|
    ensures var first := points[from].price;
      && (forall i | from <= i < to :: first <= points[i].price <= first * (1.0 + tolerance))
      && (to < |points| ==> points[to].price > first * (1.0 + tolerance))
  {
    hide Joins;
    var first := points[from].price;
    ProductMonotone(1.0, 1.0 + tolerance, first);
    forall i | from < i <= to && i < |points|
      ensures first <= points[i].price
      ensures Joins(points[from], points[i], tolerance) <==> points[i].price <= first * (1.0 + tolerance)
    {
      JoinsOverPrices(points[from], points[i], tolerance);
    }
  }

  lemma {:induction false} LevelWithin(cluster: seq<SwingPoint>, lo: real, hi: real, level: SwingLevel)
    requires Summarises(level, cluster) && forall i | 0 <= i < |cluster| :: lo <= cluster[i].price <= hi
    ensures lo <= level.price <= hi
  {
    hide Sum;
    var ps := Prices(cluster);
    MeanAtLeast(ps, lo);
    SumAtMost(ps, hi);
    QuotientAtMost(Sum(ps), hi, |ps| as real);
  }

  lemma {:induction false} JoinsOverPrices(first: SwingPoint, p: SwingPoint, tolerance: real)
    requires 0.0 < first.price <= p.price
    ensures Joins(first, p, tolerance) <==> p.price <= first.price * (1.0 + tolerance)
  {
    var q := (p.price - first.price) / first.price;
    assert q * first.price == p.price - first.price;
    if q <= tolerance {
      ProductMonotone(q, tolerance, first.price);
    } else {
      assert (q - tolerance) * first.price > 0.0;
    }
  }

  lemma {:induction false} MeanAtLeast(ps: seq<real>, bound: real)
    requires |ps| > 0 && forall i | 0 <= i < |ps| :: ps[i] >= bound
    ensures Sum(ps) / |ps| as real >= bound
  {
    SumAtLeast(ps, bound);
    hide *;
    QuotientAtLeast(Sum(ps), bound, |ps| as real);
  }

  lemma {:induction false} MeanBelow(ps: seq<real>, bound: real)
    requires |ps| > 0 && ps[0] < bound && forall i | 0 <= i < |ps| :: ps[i] <= bound
    ensures Sum(ps) / |ps| as real < bound
  {
    SumBelow(ps, bound);
    hide *;
    QuotientBelow(Sum(ps), bound, |ps| as real);
  }

  lemma {:induction false} QuotientBelow(a: real, bound: real, d: real)
    requires d > 0.0 && a < bound * d
    ensures a / d < bound
  {
  }

  lemma {:induction false} LevelsIncrease(points: seq<SwingPoint>, cuts: seq<nat>, levels: seq<SwingLevel>,
                                          tolerance: real, a: nat, b: nat)
    requires Sorted(points) && (forall i | 0 <= i < |points| :: points[i].price > 0.0) && tolerance >= 0.0
    requires IsClustering(points, cuts, levels, tolerance, |points|) && a < b < |levels|
    ensures levels[a].price < levels[b].price
    decreases b
  {
    hide Summarises, Sorted, Joins;
    LevelBetween(points, cuts[b - 1], cuts[b], tolerance, levels[b - 1]);
    LevelBetween(points, cuts[b], cuts[b + 1], tolerance, levels[b]);
    assert cuts[b] < |points| by {
      assert IsCluster(points, cuts[b], cuts[b + 1], tolerance);
    }
    if a < b - 1 {
      LevelsIncrease(points, cuts, levels, tolerance, a, b - 1);
    }
  }

  /** The clusters, and with them the levels, are determined by the points and the tolerance. */
  lemma {:induction false} ClusteringUnique(points: seq<SwingPoint>, tolerance: real, c: nat,
                                            cuts: seq<nat>, levels: seq<SwingLevel>, n: nat,
                                            cuts': seq<nat>, levels': seq<SwingLevel>, n': nat)
    requires IsClustering(points, cuts, levels, tolerance, n) && IsClustering(points, cuts', levels', tolerance, n')
    requires c < |cuts| && c < |cuts'|
    ensures cuts[c] == cuts'[c] && (c > 0 ==> levels[c - 1] == levels'[c - 1])
  {
    if c > 0 {
      ClusteringUnique(points, tolerance, c - 1, cuts, levels, n, cuts', levels', n');
      SameCluster(points, cuts[c - 1], cuts[c], cuts'[c], tolerance);
      SameLevel(points[cuts[c - 1]..cuts[c]], levels[c - 1], levels'[c - 1]);
    }
  }

  lemma {:induction false} SameCluster(points: seq<SwingPoint>, from: nat, to: nat, to': nat, tolerance: real)
    requires IsCluster(points, from, to, tolerance) && IsCluster(points, from, to', tolerance)
    ensures to == to'
  {
    hide Joins;
  }

  lemma {:induction false} SameLevel(cluster: seq<SwingPoint>, a: SwingLevel, b: SwingLevel)
    requires Summarises(a, cluster) && Summarises(b, cluster)
    ensures a == b
  {
    assert a.lastIdx == b.lastIdx;
  }

  /** For sorted points with positive prices the levels strictly increase. */
  lemma {:induction false} LevelsStrictlyIncrease(points: seq<SwingPoint>, levels: seq<SwingLevel>, tolerance: real,
                                                  a: nat, b: nat)
    requires Sorted(points) && (forall i | 0 <= i < |points| :: points[i].price > 0.0) && tolerance >= 0.0
    requires LevelsOf(points, levels, tolerance) && a < b < |levels|
    ensures levels[a].price < levels[b].price
  {
    hide Sorted, IsClustering;
    var cuts: seq<nat> :| IsClustering(points, cuts, levels, tolerance, |points|);
    LevelsIncrease(points, cuts, levels, tolerance, a, b);
  }

  /** The touches of the levels add up to the number of points. */
  lemma {:induction false} TouchesTotal(points: seq<SwingPoint>, levels: seq<SwingLevel>, tolerance: real)
    requires LevelsOf(points, levels, tolerance)
    ensures Touches(levels) == |points|
  {
    hide IsClustering;
    var cuts: seq<nat> :| IsClustering(points, cuts, levels, tolerance, |points|);
    TouchesCountPoints(points, cuts, levels, tolerance, |points|);
  }

  /** There is only one clustering of given points. */
  lemma {:induction false} LevelsUnique(points: seq<SwingPoint>, levels: seq<SwingLevel>, others: seq<SwingLevel>,
                                        tolerance: real)
    requires LevelsOf(points, levels, tolerance) && LevelsOf(points, others, tolerance)
    ensures levels == others
  {
    hide IsClustering;
    var cuts: seq<nat> :| IsClustering(points, cuts, levels, tolerance, |points|);
    var cuts': seq<nat> :| IsClustering(points, cuts', others, tolerance, |points|);
    SameLevels(points, tolerance, cuts, levels, cuts', others);
  }

  lemma {:induction false} SameLevels(points: seq<SwingPoint>, tolerance: real, cuts: seq<nat>, levels: seq<SwingLevel>,
                                      cuts': seq<nat>, levels': seq<SwingLevel>)
    requires IsClustering(points, cuts, levels, tolerance, |points|)
    requires IsClustering(points, cuts', levels', tolerance, |points|)
    ensures levels == levels'
  {
    hide IsCluster, Summarises;
    var n := if |levels| < |levels'| then |levels| else |levels'|;
    ClusteringUnique(points, tolerance, n, cuts, levels, |points|, cuts', levels', |points|);
    forall c | 0 <= c < n ensures levels[c] == levels'[c] {
      ClusteringUnique(points, tolerance, c + 1, cuts, levels, |points|, cuts', levels', |points|);
    }
    if n < |levels| {
      FullCut(points, cuts, levels, tolerance, n);
    }
    if n < |levels'| {
      FullCut(points, cuts', levels', tolerance, n);
    }
  }

  lemma {:induction false} FullCut(points: seq<SwingPoint>, cuts: seq<nat>, levels: seq<SwingLevel>, tolerance: real,
                                   c: nat)
    requires IsClustering(points, cuts, levels, tolerance, |points|) && c < |levels|
    ensures cuts[c] < |points|
  {
    assert IsCluster(points, cuts[c], cuts[c + 1], tolerance);
  }

  /** None when there are too few bars for one swing; otherwise the levels of the sorted swing points. */
  method CalculateSupportResistance(prices: seq<Bar>, lookback: int, tolerance: real)
    returns (levels: Option<seq<SwingLevel>>, ghost points: seq<SwingPoint>)
    ensures levels.None? <==> lookback <= 0 || |prices| < 2 * lookback + 1
    ensures levels.Some? ==> Sorted(points) && multiset(points) == multiset(AllSwings(prices, lookback))
    ensures levels.Some? ==> LevelsOf(points, levels.value, tolerance)
  {
    points := [];
    if lookback <= 0 || |prices| < 2 * lookback + 1 {
      return None, points;
    }
    var found := DetectSwingPoints(prices, lookback);
    points := found;
    if |found| == 0 {
      assert IsClustering(found, [0], [], tolerance, 0);
      return Some([]), points;
    }
    var clustered := ClusterSwingPoints(found, tolerance);
    levels := Some(clustered);
  }
}
