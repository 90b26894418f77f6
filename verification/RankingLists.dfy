/** The stored stock list of a strategy: the merged list, sorted by total return, ties left in merge order. */
module RankingLists {
  import opened StrategyRanking
  import opened PoolSchedules
  import opened WorkerPool
  import opened Strategies

  /** Places a stock behind every one with at least its return. */
  function Place(stocks: seq<StockResult>, x: StockResult): seq<StockResult> {
    if stocks == [] then [x]
    else
      var n := |stocks| - 1;
      if stocks[n].totalReturn >= x.totalReturn then stocks + [x] else Place(stocks[..n], x) + [stocks[n]]
  }

  /** The stable sort by falling total return. */
  function ByReturn(stocks: seq<StockResult>): seq<StockResult> {
    if stocks == [] then [] else Place(ByReturn(stocks[..|stocks| - 1]), stocks[|stocks| - 1])
  }

  ghost predicate Falling(stocks: seq<StockResult>) {
    forall i, j | 0 <= i < j < |stocks| :: stocks[i].totalReturn >= stocks[j].totalReturn
  }

  /** The stocks with one particular return, in list order. */
  function Tied(stocks: seq<StockResult>, v: real): seq<StockResult> {
    if stocks == [] then []
    else
      var n := |stocks| - 1;
      Tied(stocks[..n], v) + if stocks[n].totalReturn == v then [stocks[n]] else []
  }

  lemma {:induction false} TiedAppend(stocks: seq<StockResult>, x: StockResult, v: real)
    ensures Tied(stocks + [x], v) == Tied(stocks, v) + if x.totalReturn == v then [x] else []
  {
    assert (stocks + [x])[..|stocks|] == stocks;
  }

  lemma {:induction false} TiedAre(stocks: seq<StockResult>, v: real)
    ensures forall x | x in Tied(stocks, v) :: x in stocks && x.totalReturn == v
    ensures (forall x | x in stocks :: x.totalReturn != v) ==> Tied(stocks, v) == []
    decreases |stocks|
  {
    if stocks != [] {
      TiedAre(stocks[..|stocks| - 1], v);
    }
  }

  lemma {:induction false} PlaceFalls(stocks: seq<StockResult>, x: StockResult)
    requires Falling(stocks)
    ensures Falling(Place(stocks, x)) && multiset(Place(stocks, x)) == multiset(stocks) + multiset{x}
    decreases |stocks|
  {
    if stocks != [] {
      var n := |stocks| - 1;
      assert stocks == stocks[..n] + [stocks[n]];
      if stocks[n].totalReturn < x.totalReturn {
        PlaceFalls(stocks[..n], x);
        PlacedAbove(stocks[..n], x, stocks[n]);
      }
    }
  }

  lemma {:induction false} PlaceIsStable(stocks: seq<StockResult>, x: StockResult, v: real)
    ensures Tied(Place(stocks, x), v) == Tied(stocks, v) + if x.totalReturn == v then [x] else []
    decreases |stocks|
  {
    hide *;
    if stocks == [] {
      NothingPlaced(x);
      TiedAppend([], x, v);
    } else {
      var init, last := stocks[..|stocks| - 1], stocks[|stocks| - 1];
      assert stocks == init + [last];
      PlaceSnoc(init, last, x);
      if last.totalReturn >= x.totalReturn {
        TiedAppend(stocks, x, v);
      } else {
        PlaceIsStable(init, x, v);
        TiedAppend(Place(init, x), last, v);
        TiedAppend(init, last, v);
        assert x.totalReturn != v || last.totalReturn != v;
      }
    }
  }

  lemma {:induction false} NothingPlaced(x: StockResult)
    ensures Place([], x) == [] + [x]
  {
  }

  lemma {:induction false} PlaceSnoc(init: seq<StockResult>, last: StockResult, x: StockResult)
    ensures Place(init + [last], x)
         == if last.totalReturn >= x.totalReturn then init + [last] + [x] else Place(init, x) + [last]
  {
    assert (init + [last])[..|init|] == init;
  }

  lemma {:induction false} PlacedAbove(stocks: seq<StockResult>, x: StockResult, last: StockResult)
    requires Falling(stocks + [last]) && x.totalReturn >= last.totalReturn
    requires Falling(Place(stocks, x)) && multiset(Place(stocks, x)) == multiset(stocks) + multiset{x}
    ensures Falling(Place(stocks, x) + [last])
  {
    var placed := Place(stocks, x);
    forall i | 0 <= i < |placed| ensures placed[i].totalReturn >= last.totalReturn {
      assert placed[i] in multiset(placed);
      if placed[i] != x {
        assert placed[i] in stocks;
        var k :| 0 <= k < |stocks| && stocks[k] == placed[i];
        assert (stocks + [last])[k].totalReturn >= (stocks + [last])[|stocks|].totalReturn;
      }
    }
  }

  /** Sorting keeps, for each return, the stocks that have it in the order they came. */
  lemma {:induction false} SortIsStable(stocks: seq<StockResult>, v: real)
    ensures Falling(ByReturn(stocks)) && multiset(ByReturn(stocks)) == multiset(stocks)
    ensures Tied(ByReturn(stocks), v) == Tied(stocks, v)
    decreases |stocks|
  {
    hide Place;
    if stocks != [] {
      var init, last := stocks[..|stocks| - 1], stocks[|stocks| - 1];
      assert stocks == init + [last];
      SortIsStable(init, v);
      PlaceFalls(ByReturn(init), last);
      PlaceIsStable(ByReturn(init), last, v);
      TiedAppend(init, last, v);
    }
  }

  /** The lists hold the same stocks at every return, in the same order. */
  ghost predicate SameTies(p: seq<StockResult>, q: seq<StockResult>) {
    forall v :: Tied(p, v) == Tied(q, v)
  }

  /** Two falling lists with the same stocks at every return are the same list. */
  lemma {:induction false} TiesDetermine(p: seq<StockResult>, q: seq<StockResult>)
    requires Falling(p) && Falling(q) && SameTies(p, q)
    ensures p == q
    decreases |p|
  {
    if p == [] {
      NoneLeft(p, q);
    } else if q == [] {
      NoneLeft(q, p);
    } else {
      SameLast(p, q);
      var n, m := |p| - 1, |q| - 1;
      forall v ensures Tied(p[..n], v) == Tied(q[..m], v) {
        assert Tied(p, v) == Tied(q, v);
        Cancel(Tied(p[..n], v), Tied(q[..m], v), if p[n].totalReturn == v then [p[n]] else []);
      }
      TiesDetermine(p[..n], q[..m]);
      assert p == p[..n] + [p[n]] && q == q[..m] + [q[m]];
    }
  }

  lemma {:induction false} NoneLeft(p: seq<StockResult>, q: seq<StockResult>)
    requires p == [] && SameTies(p, q)
    ensures q == []
  {
    if q != [] {
      LastTied(q);
    }
  }

  lemma {:induction false} Cancel(a: seq<StockResult>, b: seq<StockResult>, c: seq<StockResult>)
    requires a + c == b + c
    ensures a == b
  {
    assert |a + c| == |b + c|;
    assert a == (a + c)[..|a|] && b == (b + c)[..|b|];
  }

  lemma {:induction false} SameLast(p: seq<StockResult>, q: seq<StockResult>)
    requires Falling(p) && Falling(q) && p != [] && q != [] && SameTies(p, q)
    ensures p[|p| - 1] == q[|q| - 1]
  {
    hide Tied;
    var x, y := p[|p| - 1], q[|q| - 1];
    LastTied(p);
    LastTied(q);
    assert Tied(p, x.totalReturn) == Tied(q, x.totalReturn) && Tied(p, y.totalReturn) == Tied(q, y.totalReturn);
    TiedAre(q, x.totalReturn);
    TiedAre(p, y.totalReturn);
    LowestLast(p, y);
    LowestLast(q, x);
  }

  lemma {:induction false} LastTied(p: seq<StockResult>)
    requires p != []
    ensures var x := p[|p| - 1]; var tied := Tied(p, x.totalReturn); tied != [] && tied[|tied| - 1] == x && x in tied
  {
  }

  lemma {:induction false} LowestLast(p: seq<StockResult>, y: StockResult)
    requires Falling(p) && y in p
    ensures y.totalReturn >= p[|p| - 1].totalReturn
  {
    var k :| 0 <= k < |p| && p[k] == y;
  }

  /** Two merges of the same stocks are stored as the same list exactly when they agree on the order of the stocks that
      share a return. The totals agree in any case; the list of the sequential run is reproduced only then. */
  lemma {:induction false} SameListIff(p: seq<StockResult>, q: seq<StockResult>)
    ensures ByReturn(p) == ByReturn(q) <==> SameTies(p, q)
  {
    hide *;
    if ByReturn(p) == ByReturn(q) {
      SameListSameTies(p, q);
    } else if SameTies(p, q) {
      SameTiesSameList(p, q);
    }
  }

  lemma {:induction false} SameListSameTies(p: seq<StockResult>, q: seq<StockResult>)
    requires ByReturn(p) == ByReturn(q)
    ensures SameTies(p, q)
  {
    hide ByReturn, Tied;
    forall v ensures Tied(p, v) == Tied(q, v) {
      SortIsStable(p, v);
      SortIsStable(q, v);
    }
  }

  lemma {:induction false} SameTiesSameList(p: seq<StockResult>, q: seq<StockResult>)
    requires SameTies(p, q)
    ensures ByReturn(p) == ByReturn(q)
  {
    hide ByReturn, Tied, Falling;
    SortIsStable(p, 0.0);
    SortIsStable(q, 0.0);
    forall v ensures Tied(ByReturn(p), v) == Tied(ByReturn(q), v) {
      SortIsStable(p, v);
      SortIsStable(q, v);
    }
    TiesDetermine(ByReturn(p), ByReturn(q));
  }

  ghost predicate NoTies(stocks: seq<StockResult>) {
    forall i, j | 0 <= i < j < |stocks| :: stocks[i].totalReturn != stocks[j].totalReturn
  }

  /** When no two stocks share a return the stored list does not depend on the schedule. */
  lemma {:induction false} NoTiesSameList(p: seq<StockResult>, q: seq<StockResult>)
    requires NoTies(p) && multiset(p) == multiset(q)
    ensures ByReturn(p) == ByReturn(q)
  {
    forall v ensures Tied(p, v) == Tied(q, v) {
      TiedCount(p, v);
      TiedCount(q, v);
      AtMostOne(p, v);
      assert multiset(Tied(p, v)) == multiset(Tied(q, v));
      SameSmall(Tied(p, v), Tied(q, v));
    }
    SameListIff(p, q);
  }

  lemma {:induction false} SameSmall(a: seq<StockResult>, b: seq<StockResult>)
    requires multiset(a) == multiset(b) && |a| <= 1
    ensures a == b
  {
    assert |multiset(a)| == |a| && |multiset(b)| == |b|;
    if |a| == 1 {
      assert a[0] in multiset(b);
    }
  }

  lemma {:induction false} TiedCount(stocks: seq<StockResult>, v: real)
    ensures forall x :: multiset(Tied(stocks, v))[x] == if x.totalReturn == v then multiset(stocks)[x] else 0
    decreases |stocks|
  {
    if stocks != [] {
      var n := |stocks| - 1;
      assert stocks == stocks[..n] + [stocks[n]];
      TiedCount(stocks[..n], v);
    }
  }

  lemma {:induction false} AtMostOne(stocks: seq<StockResult>, v: real)
    requires NoTies(stocks)
    ensures |Tied(stocks, v)| <= 1
    decreases |stocks|
  {
    if stocks != [] {
      var n := |stocks| - 1;
      AtMostOne(stocks[..n], v);
      if stocks[n].totalReturn == v {
        TiedAre(stocks[..n], v);
      }
    }
  }

  // ----- The list stored by a run of the pool

  predicate Counts(job: Job) {
    job.days >= MIN_DAYS
  }

  function ResultOf(jobs: nat -> Job, j: nat, s: Strategy): StockResult
    requires s in STRATEGIES
  {
    StockResultOf(jobs(j).brand, jobs(j).results[s])
  }

  /** The stocks a log lists: those with enough days. */
  function Stocks(jobs: nat -> Job, log: seq<nat>, s: Strategy): seq<StockResult>
    requires s in STRATEGIES
  {
    if log == [] then []
    else
      var j := log[|log| - 1];
      Stocks(jobs, log[..|log| - 1], s) + if Counts(jobs(j)) then [ResultOf(jobs, j, s)] else []
  }

  lemma {:induction false} StocksSnoc(jobs: nat -> Job, log: seq<nat>, j: nat, s: Strategy)
    requires s in STRATEGIES
    ensures Stocks(jobs, log + [j], s)
         == Stocks(jobs, log, s) + if Counts(jobs(j)) then [ResultOf(jobs, j, s)] else []
  {
    assert (log + [j])[..|log|] == log;
  }

  lemma {:induction false} TallyStocks(jobs: nat -> Job, log: seq<nat>, s: Strategy)
    requires s in STRATEGIES
    ensures Tally(jobs, log)[s].stocks == Stocks(jobs, log, s)
    decreases |log|
  {
    hide BestOf;
    if log != [] {
      var init, j := log[..|log| - 1], log[|log| - 1];
      TallyStocks(jobs, init, s);
      hide Tally;
      LastShare(jobs, log, s);
    }
  }

  /** What is stored for a strategy after a run of the pool, and after the sequential run. */
  ghost function StoredList(jobs: nat -> Job, last: Pool, s: Strategy): seq<StockResult>
    requires s in STRATEGIES
  {
    ByReturn(Merged(Tallies(jobs, Logs(last.workers)))[s].stocks)
  }

  ghost function SequentialList(jobs: nat -> Job, n: nat, s: Strategy): seq<StockResult>
    requires s in STRATEGIES
  {
    ByReturn(Tally(jobs, Range(n))[s].stocks)
  }

  lemma {:induction false} StoredIs(jobs: nat -> Job, last: Pool, n: nat, s: Strategy)
    requires s in STRATEGIES
    ensures StoredList(jobs, last, s) == ByReturn(Stocks(jobs, Concat(Logs(last.workers)), s))
    ensures SequentialList(jobs, n, s) == ByReturn(Stocks(jobs, Range(n), s))
  {
    hide Merged, Tallies, Logs, Tally, Stocks, ByReturn;
    MergeIsConcat(jobs, Logs(last.workers));
    TallyStocks(jobs, Concat(Logs(last.workers)), s);
    TallyStocks(jobs, Range(n), s);
  }

  // ----- Ties among the jobs

  /** Two of the first n stocks with enough days have the same return under the strategy. */
  ghost predicate TiedJobs(jobs: nat -> Job, n: nat, s: Strategy)
    requires s in STRATEGIES
  {
    exists i, j | 0 <= i < j < n :: Tie(jobs, i, j, s)
  }

  predicate Tie(jobs: nat -> Job, i: nat, j: nat, s: Strategy)
    requires s in STRATEGIES
  {
    Counts(jobs(i)) && Counts(jobs(j)) && jobs(i).results[s].totalReturn == jobs(j).results[s].totalReturn
  }

  ghost predicate DistinctSymbols(jobs: nat -> Job, n: nat) {
    forall i, j | 0 <= i < j < n :: jobs(i).brand.ticker != jobs(j).brand.ticker
  }

  /** Every stock of the sequential list is that of a job. */
  lemma {:induction false} StockOfJob(jobs: nat -> Job, n: nat, s: Strategy, x: StockResult) returns (j: nat)
    requires s in STRATEGIES && x in Stocks(jobs, Range(n), s)
    ensures j < n && Counts(jobs(j)) && x == ResultOf(jobs, j, s)
  {
    hide Range, Stocks;
    if n == 0 {
      NoJobs(jobs, s);
    } else {
      RangeSnoc(n - 1);
      StocksSnoc(jobs, Range(n - 1), n - 1, s);
      if x in Stocks(jobs, Range(n - 1), s) {
        j := StockOfJob(jobs, n - 1, s, x);
      } else {
        j := n - 1;
      }
    }
  }

  lemma {:induction false} NoJobs(jobs: nat -> Job, s: Strategy)
    requires s in STRATEGIES
    ensures Stocks(jobs, Range(0), s) == []
  {
  }

  lemma {:induction false} NoTiedStocks(jobs: nat -> Job, n: nat, s: Strategy)
    requires s in STRATEGIES && !TiedJobs(jobs, n, s)
    ensures NoTies(Stocks(jobs, Range(n), s))
  {
    hide Range, Stocks;
    if n == 0 {
      NoJobs(jobs, s);
    } else {
      RangeSnoc(n - 1);
      StocksSnoc(jobs, Range(n - 1), n - 1, s);
      NoTiedStocks(jobs, n - 1, s);
      var before := Stocks(jobs, Range(n - 1), s);
      if Counts(jobs(n - 1)) {
        forall k | 0 <= k < |before| ensures before[k].totalReturn != ResultOf(jobs, n - 1, s).totalReturn {
          var j := StockOfJob(jobs, n - 1, s, before[k]);
          assert !Tie(jobs, j, n - 1, s);
        }
      }
    }
  }

  /** The last stock that the sequential list has at a tied return is not the first of the tie. */
  lemma {:induction false} LastOfTie(jobs: nat -> Job, n: nat, s: Strategy, i: nat, j: nat) returns (k: nat)
    requires s in STRATEGIES && i < j < n && Tie(jobs, i, j, s)
    ensures i < k < n
    ensures var tied := Tied(Stocks(jobs, Range(n), s), ResultOf(jobs, i, s).totalReturn);
      tied != [] && tied[|tied| - 1] == ResultOf(jobs, k, s)
  {
    hide Range, Stocks, Tied;
    var v := ResultOf(jobs, i, s).totalReturn;
    RangeSnoc(n - 1);
    var before, x := Stocks(jobs, Range(n - 1), s), ResultOf(jobs, n - 1, s);
    StocksSnoc(jobs, Range(n - 1), n - 1, s);
    TiedAppend(before, x, v);
    if Counts(jobs(n - 1)) && x.totalReturn == v {
      k := n - 1;
    } else {
      k := LastOfTie(jobs, n - 1, s, i, j);
      assert before + [] == before;
    }
  }

  // ----- The condition

  /** Every run of the pool that ends without an error stores the list of the sequential run. */
  ghost predicate AlwaysSequential(jobs: nat -> Job, n: nat, concurrency: nat, s: Strategy)
    requires s in STRATEGIES
  {
    forall states, steps | CompleteRun(states, steps, n, concurrency) ::
      StoredList(jobs, states[|steps|], s) == SequentialList(jobs, n, s)
  }

  lemma {:induction false} LoneWorkerSequential(jobs: nat -> Job, n: nat, states: seq<Pool>, steps: seq<Step>,
                                                s: Strategy)
    requires s in STRATEGIES && CompleteRun(states, steps, n, 1)
    ensures StoredList(jobs, states[|steps|], s) == SequentialList(jobs, n, s)
  {
    hide StoredList, SequentialList, ByReturn, Stocks, Enabled, Apply, Done;
    LoneWorkerInOrder(states, steps, n);
    StoredIs(jobs, states[|steps|], n, s);
  }

  lemma {:induction false} UntiedSequential(jobs: nat -> Job, n: nat, concurrency: nat, states: seq<Pool>,
                                            steps: seq<Step>, s: Strategy)
    requires s in STRATEGIES && CompleteRun(states, steps, n, concurrency) && !TiedJobs(jobs, n, s)
    ensures StoredList(jobs, states[|steps|], s) == SequentialList(jobs, n, s)
  {
    hide ByReturn, Stocks, TiedJobs, NoTies, Enabled, Apply, Done, Merged, Tallies, Tally;
    PoolEqualsSequential(jobs, n, states, steps, concurrency, s);
    TallyStocks(jobs, Range(n), s);
    NoTiedStocks(jobs, n, s);
    NoTiesSameList(Tally(jobs, Range(n))[s].stocks, Merged(Tallies(jobs, Logs(states[|steps|].workers)))[s].stocks);
  }

  /** Two stocks that tie have a run of the pool, with any number of workers above one, that stores another list. */
  lemma {:induction false} TieBreaksOrder(jobs: nat -> Job, n: nat, concurrency: nat, s: Strategy, i: nat, j: nat)
    returns (states: seq<Pool>, steps: seq<Step>)
    requires s in STRATEGIES && concurrency >= 2 && DistinctSymbols(jobs, n) && i < j < n && Tie(jobs, i, j, s)
    ensures CompleteRun(states, steps, n, concurrency)
    ensures StoredList(jobs, states[|steps|], s) != SequentialList(jobs, n, s)
  {
    hide StoredList, SequentialList, ByReturn, Stocks, Tied, SameTies, Range, AllBut, Concat, Enabled, Apply, Done;
    states, steps := OneApart(n, concurrency, i);
    StoredIs(jobs, states[|steps|], n, s);
    var v := ResultOf(jobs, i, s).totalReturn;
    var mine, theirs := Stocks(jobs, AllBut(i, n) + [i], s), Stocks(jobs, Range(n), s);
    StocksSnoc(jobs, AllBut(i, n), i, s);
    TiedAppend(Stocks(jobs, AllBut(i, n), s), ResultOf(jobs, i, s), v);
    var k := LastOfTie(jobs, n, s, i, j);
    assert Tied(mine, v) != Tied(theirs, v);
    DifferentTies(mine, theirs, v);
    SameListIff(mine, theirs);
  }

  lemma {:induction false} DifferentTies(p: seq<StockResult>, q: seq<StockResult>, v: real)
    requires Tied(p, v) != Tied(q, v)
    ensures !SameTies(p, q)
  {
    hide Tied;
  }

  /** The pool reproduces the stored list of the sequential run, whatever the interleaving, exactly when it has one
      worker or no two stocks that count share a return under the strategy. */
  lemma {:induction false} StoredListIff(jobs: nat -> Job, n: nat, concurrency: nat, s: Strategy)
    requires s in STRATEGIES && concurrency >= 1 && DistinctSymbols(jobs, n)
    ensures AlwaysSequential(jobs, n, concurrency, s) <==> concurrency == 1 || !TiedJobs(jobs, n, s)
  {
    hide StoredList, SequentialList, Tie, DistinctSymbols, Enabled, Apply, Done;
    if concurrency == 1 {
      forall states, steps | CompleteRun(states, steps, n, concurrency)
        ensures StoredList(jobs, states[|steps|], s) == SequentialList(jobs, n, s)
      {
        LoneWorkerSequential(jobs, n, states, steps, s);
      }
    } else if TiedJobs(jobs, n, s) {
      var i, j :| 0 <= i < j < n && Tie(jobs, i, j, s);
      var states, steps := TieBreaksOrder(jobs, n, concurrency, s, i, j);
    } else {
      forall states, steps | CompleteRun(states, steps, n, concurrency)
        ensures StoredList(jobs, states[|steps|], s) == SequentialList(jobs, n, s)
      {
        UntiedSequential(jobs, n, concurrency, states, steps, s);
      }
    }
  }
}
