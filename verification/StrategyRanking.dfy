/** Ranking the strategies over all stocks: worker-local accumulation, merged at the end, against the sequential
    fold. */
module StrategyRanking {
  import opened BacktestFigures
  import opened Strategies
  import opened WorkerPool
  import Decimals
  import PickSelection

  const STRATEGY_ORDER := [MACDBullish, BollingerBreakout, TriangleFormation, MovingAverageCross, MultipleSignals]

  const STRATEGIES: set<Strategy> :=
    {MACDBullish, BollingerBreakout, TriangleFormation, MovingAverageCross, MultipleSignals}

  const MIN_DAYS := 80

  datatype Brand = Brand(ticker: string, name: string)

  datatype StockResult = StockResult(ticker: string, name: string, totalReturn: real, trades: int, winRate: real,
                                     profitFactor: real, maxDrawdown: real, payoffRatio: real, avgHoldDays: real)

  /** The running totals of one strategy. */
  datatype Acc = Acc(stockCount: int, tradedStocks: int, positiveCount: int, sumTotalReturn: real, sumWinRate: real,
                     sumPF: real, totalTrades: int, bestCount: int, stocks: seq<StockResult>) {
    function Plus(a: Acc): Acc {
      Acc(stockCount + a.stockCount, tradedStocks + a.tradedStocks, positiveCount + a.positiveCount,
        sumTotalReturn + a.sumTotalReturn, sumWinRate + a.sumWinRate, sumPF + a.sumPF,
        totalTrades + a.totalTrades, bestCount + a.bestCount, stocks + a.stocks)
    }

    /** The same totals, and the same list up to its order. */
    predicate SameUpToOrder(a: Acc) {
      this.(stocks := []) == a.(stocks := []) && multiset(stocks) == multiset(a.stocks)
    }
  }

  const ZERO := Acc(0, 0, 0, 0.0, 0.0, 0.0, 0, 0, [])

  /** A map with an entry for every strategy and for nothing else. */
  predicate PerStrategy<T(!new)>(m: map<Strategy, T>) {
    m.Keys == STRATEGIES
  }

  type Accs = m: map<Strategy, Acc> | PerStrategy(m)
    witness map[MACDBullish := ZERO, BollingerBreakout := ZERO, TriangleFormation := ZERO, MovingAverageCross := ZERO,
                MultipleSignals := ZERO]

  type Results = m: map<Strategy, BacktestResult> | PerStrategy(m)
    witness map[MACDBullish := EMPTY_RESULT, BollingerBreakout := EMPTY_RESULT, TriangleFormation := EMPTY_RESULT,
                MovingAverageCross := EMPTY_RESULT, MultipleSignals := EMPTY_RESULT]

  function NoAccs(): Accs {
    map s | s in STRATEGIES :: ZERO
  }

  // ----- The best strategy of a stock

  /** The strategy to count as a stock's best among the first k: none has traded, or s has the highest return. */
  ghost predicate IsBest(results: Results, k: nat, best: Decimals.Option<Strategy>)
    requires k <= 5
  {
    match best
    case None => forall i | 0 <= i < k ::
      var r := results[STRATEGY_ORDER[i]]; r.trades <= 0 || r.totalReturn <= -999.0
    case Some(s) =>
      && s in results && results[s].trades > 0 && results[s].totalReturn > -999.0
      && exists b | 0 <= b < k :: STRATEGY_ORDER[b] == s && forall i | 0 <= i < k ::
        var r := results[STRATEGY_ORDER[i]];
        r.trades > 0 ==> r.totalReturn <= results[s].totalReturn && (i < b ==> r.totalReturn < results[s].totalReturn)
  }

  lemma {:induction false} OrderIsStrategies(i: nat)
    requires i < 5
    ensures |STRATEGY_ORDER| == 5 && STRATEGY_ORDER[i] in STRATEGIES
    ensures forall j | 0 <= j < 5 && j != i :: STRATEGY_ORDER[j] != STRATEGY_ORDER[i]
  {
  }

  function BetterOf(results: Results, k: nat, before: Decimals.Option<Strategy>): (best: Decimals.Option<Strategy>)
    requires k < 5 && IsBest(results, k, before)
    ensures IsBest(results, k + 1, best)
  {
    var s := STRATEGY_ORDER[k];
    var bar := if before.Some? then results[before.value].totalReturn else -999.0;
    if results[s].trades > 0 && results[s].totalReturn > bar then
      assert STRATEGY_ORDER[k] == s;
      Decimals.Some(s)
    else before
  }

  /** Scans the strategies in order, keeping a later one only if it beats the best so far. */
  function BestOf(results: Results, k: nat): (best: Decimals.Option<Strategy>)
    requires k <= 5
    ensures IsBest(results, k, best)
  {
    if k == 0 then Decimals.None
    else
      BetterOf(results, k - 1, BestOf(results, k - 1))
  }

  // ----- Accumulating

  function StockResultOf(brand: Brand, r: BacktestResult): StockResult {
    StockResult(brand.ticker, brand.name, r.totalReturn, r.trades, r.winRate, r.profitFactor, r.maxDrawdown,
      r.payoffRatio, r.avgHoldDays)
  }

  /** What one stock adds to a strategy's totals. */
  function Share(brand: Brand, r: BacktestResult, best: bool): Acc {
    var traded := r.trades > 0;
    Acc(1, if traded then 1 else 0, if r.totalReturn > 0.0 then 1 else 0, r.totalReturn,
      if traded then r.winRate else 0.0, if traded then r.profitFactor else 0.0, r.trades, if best then 1 else 0,
      [StockResultOf(brand, r)])
  }

  function Contribution(brand: Brand, results: Results): Accs {
    map s | s in STRATEGIES :: Share(brand, results[s], BestOf(results, 5) == Decimals.Some(s))
  }

  function PlusAll(a: Accs, b: Accs): Accs {
    map s | s in STRATEGIES :: a[s].Plus(b[s])
  }

  class WorkerAccs {
    var accs: Accs

    constructor ()
      ensures accs == NoAccs()
    {
      accs := NoAccs();
    }

    method Merge(src: Accs)
      modifies this
      ensures accs == PlusAll(old(accs), src)
    {
      var k := 0;
      ghost var before := accs;
      while k < |STRATEGY_ORDER|
        invariant 0 <= k <= 5
        invariant forall i | 0 <= i < 5 ::
          var s := STRATEGY_ORDER[i]; accs[s] == if i < k then before[s].Plus(src[s]) else before[s]
      {
        OrderIsStrategies(k);
        var s := STRATEGY_ORDER[k];
        accs := accs[s := accs[s].Plus(src[s])];
        k := k + 1;
      }
      SameAccs(accs, PlusAll(before, src));
    }

    /** Adds the stock's figures to every strategy, but not yet which one was best. */
    method AddShares(brand: Brand, results: Results)
      modifies this
      ensures forall i | 0 <= i < 5 :: var s := STRATEGY_ORDER[i];
        accs[s] == old(accs)[s].Plus(Share(brand, results[s], false))
    {
      var k := 0;
      ghost var before := accs;
      hide Share;
      while k < |STRATEGY_ORDER|
        invariant 0 <= k <= 5
        invariant forall i | 0 <= i < 5 :: var s := STRATEGY_ORDER[i];
          accs[s] == if i < k then before[s].Plus(Share(brand, results[s], false)) else before[s]
      {
        OrderIsStrategies(k);
        var s := STRATEGY_ORDER[k];
        var a := AddResult(accs[s], brand, results[s]);
        accs := accs[s := a];
        k := k + 1;
      }
    }

    method AccumulateResults(brand: Brand, results: Results)
      modifies this
      ensures accs == PlusAll(old(accs), Contribution(brand, results))
    {
      hide BestOf, Share, IsBest;
      AddShares(brand, results);
      BestCounted(brand, results, old(accs), accs);
      var best := FindBest(results);
      hide PlusAll, Contribution;
      if best.Some? {
        var b := accs[best.value];
        accs := accs[best.value := b.(bestCount := b.bestCount + 1)];
      }
      SameAccs(accs, PlusAll(old(accs), Contribution(brand, results)));
    }

    method TakeJob(job: Job) returns (processed: nat)
      modifies this
      ensures accs == PlusAll(old(accs), Evaluated(job))
      ensures processed == if job.days >= MIN_DAYS then 1 else 0
    {
      PlusNothing(accs);
      hide PlusAll, Contribution;
      processed := 0;
      if job.days >= MIN_DAYS {
        AccumulateResults(job.brand, job.results);
        processed := 1;
      }
    }
  }

  /** Counting the best strategy last gives the same totals as counting it with its share. */
  lemma {:induction false} BestCounted(brand: Brand, results: Results, before: Accs, added: Accs)
    requires forall i | 0 <= i < 5 :: var s := STRATEGY_ORDER[i];
      added[s] == before[s].Plus(Share(brand, results[s], false))
    ensures forall i | 0 <= i < 5 :: var s := STRATEGY_ORDER[i];
      PlusAll(before, Contribution(brand, results))[s]
      == if BestOf(results, 5) == Decimals.Some(s) then added[s].(bestCount := added[s].bestCount + 1) else added[s]
  {
    hide BestOf;
  }

  method AddResult(acc: Acc, brand: Brand, res: BacktestResult) returns (a: Acc)
    ensures a == acc.Plus(Share(brand, res, false))
  {
    a := acc.(stockCount := acc.stockCount + 1, sumTotalReturn := acc.sumTotalReturn + res.totalReturn);
    if res.totalReturn > 0.0 {
      a := a.(positiveCount := a.positiveCount + 1);
    }
    a := a.(totalTrades := a.totalTrades + res.trades);
    if res.trades > 0 {
      a := a.(tradedStocks := a.tradedStocks + 1, sumWinRate := a.sumWinRate + res.winRate,
              sumPF := a.sumPF + res.profitFactor);
    }
    a := a.(stocks := a.stocks + [StockResultOf(brand, res)]);
  }

  method FindBest(results: Results) returns (best: Decimals.Option<Strategy>)
    ensures best == BestOf(results, 5) && (best.Some? ==> best.value in STRATEGIES)
  {
    var bestReturn := -999.0;
    best := Decimals.None;
    var k := 0;
    while k < |STRATEGY_ORDER|
      invariant 0 <= k <= 5 && best == BestOf(results, k)
      invariant bestReturn == if best.Some? then results[best.value].totalReturn else -999.0
    {
      OrderIsStrategies(k);
      var s := STRATEGY_ORDER[k];
      if results[s].trades > 0 && results[s].totalReturn > bestReturn {
        bestReturn, best := results[s].totalReturn, Decimals.Some(s);
      }
      k := k + 1;
    }
  }

  lemma {:induction false} SameAccs(a: Accs, b: Accs)
    requires forall i | 0 <= i < 5 :: a[STRATEGY_ORDER[i]] == b[STRATEGY_ORDER[i]]
    ensures a == b
  {
    forall s | s in STRATEGIES ensures a[s] == b[s] {
      assert s in STRATEGY_ORDER;
    }
  }

  // ----- The pool's jobs

  /** What evaluating a stock comes to: nothing when it has fewer than MIN_DAYS bars. */
  datatype Job = Job(brand: Brand, days: nat, results: Results)

  function Evaluated(job: Job): Accs {
    if job.days < MIN_DAYS then NoAccs() else Contribution(job.brand, job.results)
  }

  /** The totals of a worker that works off the jobs of a log in order. */
  function Tally(jobs: nat -> Job, log: seq<nat>): Accs {
    if log == [] then NoAccs() else PlusAll(Tally(jobs, log[..|log| - 1]), Evaluated(jobs(log[|log| - 1])))
  }

  lemma {:induction false} NoTally(jobs: nat -> Job)
    ensures Tally(jobs, []) == NoAccs() && Processed(jobs, []) == 0
  {
  }

  /** A worker's loop over the jobs it is handed, into its own totals. */
  method WorkOff(local: WorkerAccs, jobs: nat -> Job, log: seq<nat>) returns (processed: nat)
    requires local.accs == NoAccs()
    modifies local
    ensures local.accs == Tally(jobs, log) && processed == Processed(jobs, log)
  {
    hide *;
    NoTally(jobs);
    processed := 0;
    ghost var done: seq<nat> := [];
    for k := 0 to |log|
      invariant done == log[..k]
      invariant local.accs == Tally(jobs, done) && processed == Processed(jobs, done)
    {
      var j := log[k];
      TallySnoc(jobs, done, j);
      var counted := local.TakeJob(jobs(j));
      processed := processed + counted;
      done := done + [j];
    }
    assert done == log;
  }

  function Processed(jobs: nat -> Job, log: seq<nat>): nat {
    if log == [] then 0
    else Processed(jobs, log[..|log| - 1]) + if jobs(log[|log| - 1]).days >= MIN_DAYS then 1 else 0
  }

  lemma {:induction false} PlusNothing(a: Accs)
    ensures PlusAll(a, NoAccs()) == a && PlusAll(NoAccs(), a) == a
  {
    forall s | s in STRATEGIES ensures a[s].Plus(ZERO) == a[s] && ZERO.Plus(a[s]) == a[s] {
      assert a[s].stocks + [] == a[s].stocks && [] + a[s].stocks == a[s].stocks;
    }
  }

  lemma {:induction false} PlusAssociates(a: Accs, b: Accs, c: Accs)
    ensures PlusAll(PlusAll(a, b), c) == PlusAll(a, PlusAll(b, c))
  {
    forall s | s in STRATEGIES ensures a[s].Plus(b[s]).Plus(c[s]) == a[s].Plus(b[s].Plus(c[s])) {
      AccAssociates(a[s], b[s], c[s]);
    }
  }

  lemma {:induction false} AccAssociates(a: Acc, b: Acc, c: Acc)
    ensures a.Plus(b).Plus(c) == a.Plus(b.Plus(c))
  {
    assert (a.stocks + b.stocks) + c.stocks == a.stocks + (b.stocks + c.stocks);
  }

  /** The merge of the workers' totals, first worker first. */
  function Merged(locals: seq<Accs>): Accs {
    if locals == [] then NoAccs() else PlusAll(Merged(locals[..|locals| - 1]), locals[|locals| - 1])
  }

  method MergeWorkers(total: WorkerAccs, locals: seq<Accs>)
    requires total.accs == NoAccs()
    modifies total
    ensures total.accs == Merged(locals)
  {
    hide *;
    NoneMerged();
    ghost var done: seq<Accs> := [];
    for k := 0 to |locals|
      invariant done == locals[..k] && total.accs == Merged(done)
    {
      MergedSnoc(done, locals[k]);
      total.Merge(locals[k]);
      done := done + [locals[k]];
    }
    assert done == locals;
  }

  lemma {:induction false} NoneMerged()
    ensures Merged([]) == NoAccs()
  {
  }

  lemma {:induction false} MergedSnoc(locals: seq<Accs>, last: Accs)
    ensures Merged(locals + [last]) == PlusAll(Merged(locals), last)
  {
    hide PlusAll;
    assert (locals + [last])[..|locals|] == locals;
  }

  function Tallies(jobs: nat -> Job, logs: seq<seq<nat>>): (locals: seq<Accs>)
    ensures |locals| == |logs|
  {
    seq(|logs|, w requires 0 <= w < |logs| => Tally(jobs, logs[w]))
  }

  lemma {:induction false} TallyConcat(jobs: nat -> Job, a: seq<nat>, b: seq<nat>)
    ensures Tally(jobs, a + b) == PlusAll(Tally(jobs, a), Tally(jobs, b))
    decreases |b|
  {
    hide *;
    if b == [] {
      assert a + b == a;
      NoTally(jobs);
      PlusNothing(Tally(jobs, a));
    } else {
      var init, last := b[..|b| - 1], b[|b| - 1];
      assert b == init + [last];
      TallyConcat(jobs, a, init);
      TallySnoc(jobs, a + init, last);
      TallySnoc(jobs, init, last);
      assert a + b == (a + init) + [last];
      PlusAssociates(Tally(jobs, a), Tally(jobs, init), Evaluated(jobs(last)));
    }
  }

  lemma {:induction false} TallySnoc(jobs: nat -> Job, log: seq<nat>, j: nat)
    ensures Tally(jobs, log + [j]) == PlusAll(Tally(jobs, log), Evaluated(jobs(j)))
    ensures Processed(jobs, log + [j]) == Processed(jobs, log) + if jobs(j).days >= MIN_DAYS then 1 else 0
  {
    hide PlusAll, Evaluated;
    assert (log + [j])[..|log|] == log;
  }

  /** Merging the workers is working off their logs one after the other. */
  lemma {:induction false} MergeIsConcat(jobs: nat -> Job, logs: seq<seq<nat>>)
    ensures Merged(Tallies(jobs, logs)) == Tally(jobs, Concat(logs))
    decreases |logs|
  {
    if logs != [] {
      hide *;
      var init, last := logs[..|logs| - 1], logs[|logs| - 1];
      assert logs == init + [last];
      MergeIsConcat(jobs, init);
      TalliesSnoc(jobs, init, last);
      MergedSnoc(Tallies(jobs, init), Tally(jobs, last));
      ConcatSnoc(init, last);
      TallyConcat(jobs, Concat(init), last);
    }
  }

  lemma {:induction false} TalliesSnoc(jobs: nat -> Job, logs: seq<seq<nat>>, last: seq<nat>)
    ensures Tallies(jobs, logs + [last]) == Tallies(jobs, logs) + [Tally(jobs, last)]
  {
    hide Tally;
  }

  lemma {:induction false} ConcatSnoc(logs: seq<seq<nat>>, last: seq<nat>)
    ensures Concat(logs + [last]) == Concat(logs) + last
  {
    assert (logs + [last])[..|logs|] == logs;
  }

  lemma {:induction false} SwapShares(a: Acc, b: Acc, c: Acc)
    ensures a.Plus(b).Plus(c).SameUpToOrder(a.Plus(c).Plus(b))
  {
  }

  lemma {:induction false} SameThenPlus(a: Acc, b: Acc, c: Acc)
    requires a.SameUpToOrder(b)
    ensures a.Plus(c).SameUpToOrder(b.Plus(c))
  {
    var x, y := a.(stocks := []), b.(stocks := []);
    assert x.stockCount == y.stockCount && x.sumTotalReturn == y.sumTotalReturn;
  }

  /** A job can be moved to the end of a log. */
  lemma {:induction false} MoveToEnd(jobs: nat -> Job, log: seq<nat>, i: nat, s: Strategy)
    requires i < |log| && s in STRATEGIES
    ensures Tally(jobs, log)[s].SameUpToOrder(Tally(jobs, log[..i] + log[i + 1..])[s].Plus(Evaluated(jobs(log[i]))[s]))
    decreases |log|
  {
    hide Evaluated, Tally, PlusAll, Acc.Plus, Acc.SameUpToOrder;
    var n := |log| - 1;
    var rest := log[..i] + log[i + 1..];
    LastShare(jobs, log, s);
    if i < n {
      assert rest[..n - 1] == log[..n][..i] + log[..n][i + 1..] && rest[n - 1] == log[n];
      MoveToEnd(jobs, log[..n], i, s);
      LastShare(jobs, rest, s);
      MovePast(Tally(jobs, log[..n])[s], Tally(jobs, rest[..n - 1])[s], Evaluated(jobs(log[i]))[s],
        Evaluated(jobs(log[n]))[s]);
    } else {
      assert rest == log[..n];
      Same(Tally(jobs, log)[s]);
    }
  }

  lemma {:induction false} Same(a: Acc)
    ensures a.SameUpToOrder(a)
  {
  }

  lemma {:induction false} MovePast(whole: Acc, before: Acc, moved: Acc, last: Acc)
    requires whole.SameUpToOrder(before.Plus(moved))
    ensures whole.Plus(last).SameUpToOrder(before.Plus(last).Plus(moved))
  {
    SameThenPlus(whole, before.Plus(moved), last);
    SwapShares(before, moved, last);
  }

  lemma {:induction false} SameJoins(a: Acc, b: Acc, c: Acc)
    requires a.SameUpToOrder(b) && c.SameUpToOrder(b)
    ensures a.SameUpToOrder(c)
  {
  }

  /** The order in which jobs are worked off does not matter, except for the order of the stock lists. */
  lemma {:induction false} TallyIgnoresOrder(jobs: nat -> Job, a: seq<nat>, b: seq<nat>, s: Strategy)
    requires s in STRATEGIES
    requires multiset(a) == multiset(b)
    ensures Tally(jobs, a)[s].SameUpToOrder(Tally(jobs, b)[s])
    decreases |a|
  {
    hide Evaluated, PlusAll, Tally, Acc.Plus, Acc.SameUpToOrder;
    assert |multiset(a)| == |a| && |multiset(b)| == |b|;
    if a != [] {
      var n := |a| - 1;
      assert a[n] in multiset(b);
      var i :| 0 <= i < |b| && b[i] == a[n];
      var rest := b[..i] + b[i + 1..];
      Without(a, b, i);
      TallyIgnoresOrder(jobs, a[..n], rest, s);
      MoveToEnd(jobs, b, i, s);
      LastShare(jobs, a, s);
      var share := Evaluated(jobs(a[n]))[s];
      SameThenPlus(Tally(jobs, a[..n])[s], Tally(jobs, rest)[s], share);
      SameJoins(Tally(jobs, a)[s], Tally(jobs, rest)[s].Plus(share), Tally(jobs, b)[s]);
    } else {
      Same(Tally(jobs, a)[s]);
    }
  }

  lemma {:induction false} LastShare(jobs: nat -> Job, a: seq<nat>, s: Strategy)
    requires a != [] && s in STRATEGIES
    ensures Tally(jobs, a)[s] == Tally(jobs, a[..|a| - 1])[s].Plus(Evaluated(jobs(a[|a| - 1]))[s])
  {
    hide Evaluated;
  }

  lemma {:induction false} Without(a: seq<nat>, b: seq<nat>, i: nat)
    requires multiset(a) == multiset(b) && a != [] && i < |b| && b[i] == a[|a| - 1]
    ensures multiset(a[..|a| - 1]) == multiset(b[..i] + b[i + 1..])
  {
    var last := a[|a| - 1];
    assert a == a[..|a| - 1] + [last];
    assert b == (b[..i] + [last]) + b[i + 1..];
    assert multiset(a) - multiset{last} == multiset(a[..|a| - 1]);
    assert multiset(b) - multiset{last} == multiset(b[..i] + b[i + 1..]);
  }

  /** The number of stocks all workers together have counted as processed. */
  function AllProcessed(jobs: nat -> Job, logs: seq<seq<nat>>): nat {
    if logs == [] then 0 else AllProcessed(jobs, logs[..|logs| - 1]) + Processed(jobs, logs[|logs| - 1])
  }

  lemma {:induction false} ProcessedConcat(jobs: nat -> Job, a: seq<nat>, b: seq<nat>)
    ensures Processed(jobs, a + b) == Processed(jobs, a) + Processed(jobs, b)
    decreases |b|
  {
    if b == [] {
      assert a + b == a;
    } else {
      assert (a + b)[..|a| + |b| - 1] == a + b[..|b| - 1];
      ProcessedConcat(jobs, a, b[..|b| - 1]);
    }
  }

  lemma {:induction false} AllProcessedIs(jobs: nat -> Job, logs: seq<seq<nat>>)
    ensures AllProcessed(jobs, logs) == Processed(jobs, Concat(logs))
    decreases |logs|
  {
    hide Processed;
    if logs == [] {
      NoTally(jobs);
    } else {
      AllProcessedIs(jobs, logs[..|logs| - 1]);
      ProcessedConcat(jobs, Concat(logs[..|logs| - 1]), logs[|logs| - 1]);
    }
  }

  lemma {:induction false} ProcessedIgnoresOrder(jobs: nat -> Job, a: seq<nat>, b: seq<nat>)
    requires multiset(a) == multiset(b)
    ensures Processed(jobs, a) == Processed(jobs, b)
    decreases |a|
  {
    hide Processed;
    assert |multiset(a)| == |a| && |multiset(b)| == |b|;
    if a != [] {
      var init, j := a[..|a| - 1], a[|a| - 1];
      assert a == init + [j] && j in multiset(b);
      var i :| 0 <= i < |b| && b[i] == j;
      Without(a, b, i);
      ProcessedIgnoresOrder(jobs, init, b[..i] + b[i + 1..]);
      assert b == (b[..i] + [j]) + b[i + 1..];
      ProcessedConcat(jobs, init, [j]);
      ProcessedConcat(jobs, b[..i], b[i + 1..]);
      ProcessedConcat(jobs, b[..i] + [j], b[i + 1..]);
      ProcessedConcat(jobs, b[..i], [j]);
    } else {
      assert b == a;
    }
  }

  /** Every interleaving of the pool that ends without an error yields the totals of the sequential run over the stocks
      in order, each stock list up to its order, and the same number of processed stocks. */
  lemma {:induction false} PoolEqualsSequential(jobs: nat -> Job, n: nat, states: seq<Pool>, steps: seq<Step>,
                                                concurrency: nat, s: Strategy)
    requires Schedule(states, steps, n, concurrency) && Done(states[|steps|]) && !states[|steps|].err
    requires s in STRATEGIES
    ensures var logs := Logs(states[|steps|].workers);
      && Merged(Tallies(jobs, logs))[s].SameUpToOrder(Tally(jobs, Range(n))[s])
      && AllProcessed(jobs, logs) == Processed(jobs, Range(n))
  {
    var logs := Logs(states[|steps|].workers);
    EachJobOnce(states, steps, n, concurrency);
    hide Schedule, Done, Tally, Merged, Processed, AllProcessed;
    MergeIsConcat(jobs, logs);
    TallyIgnoresOrder(jobs, Concat(logs), Range(n), s);
    AllProcessedIs(jobs, logs);
    ProcessedIgnoresOrder(jobs, Concat(logs), Range(n));
  }

  // ----- Screening for picks

  /** The candidates a screening worker collects: those of its jobs that evaluate to one. */
  function Found(jobs: nat -> Decimals.Option<PickSelection.Candidate>, log: seq<nat>): seq<PickSelection.Candidate> {
    if log == [] then []
    else
      var job := jobs(log[|log| - 1]);
      Found(jobs, log[..|log| - 1]) + if job.Some? then [job.value] else []
  }

  lemma {:induction false} FoundConcat(jobs: nat -> Decimals.Option<PickSelection.Candidate>, a: seq<nat>, b: seq<nat>)
    ensures Found(jobs, a + b) == Found(jobs, a) + Found(jobs, b)
    decreases |b|
  {
    if b == [] {
      assert a + b == a;
    } else {
      assert (a + b)[..|a| + |b| - 1] == a + b[..|b| - 1];
      FoundConcat(jobs, a, b[..|b| - 1]);
    }
  }

  lemma {:induction false} FoundIgnoresOrder(jobs: nat -> Decimals.Option<PickSelection.Candidate>, a: seq<nat>,
                                             b: seq<nat>)
    requires multiset(a) == multiset(b)
    ensures multiset(Found(jobs, a)) == multiset(Found(jobs, b))
    decreases |a|
  {
    hide Found;
    assert |multiset(a)| == |a| && |multiset(b)| == |b|;
    if a != [] {
      var n := |a| - 1;
      assert a[n] in multiset(b);
      var i :| 0 <= i < |b| && b[i] == a[n];
      Without(a, b, i);
      FoundIgnoresOrder(jobs, a[..n], b[..i] + b[i + 1..]);
      assert b == (b[..i] + [b[i]]) + b[i + 1..] && a == a[..n] + [a[n]];
      FoundConcat(jobs, b[..i], b[i + 1..]);
      FoundConcat(jobs, b[..i] + [b[i]], b[i + 1..]);
      FoundConcat(jobs, b[..i], [b[i]]);
      FoundConcat(jobs, a[..n], [a[n]]);
      Regroup(Found(jobs, b[..i]), Found(jobs, [a[n]]), Found(jobs, b[i + 1..]));
    } else {
      assert b == a;
    }
  }

  lemma {:induction false} Regroup(a: seq<PickSelection.Candidate>, b: seq<PickSelection.Candidate>,
                                   c: seq<PickSelection.Candidate>)
    ensures multiset((a + b) + c) == multiset(a + c) + multiset(b)
  {
    assert multiset((a + b) + c) == multiset(a) + multiset(b) + multiset(c);
  }

  /** The candidate list the pool returns: the workers' lists, first worker first. */
  function Candidates(jobs: nat -> Decimals.Option<PickSelection.Candidate>, logs: seq<seq<nat>>)
    : seq<PickSelection.Candidate>
  {
    if logs == [] then [] else Candidates(jobs, logs[..|logs| - 1]) + Found(jobs, logs[|logs| - 1])
  }

  lemma {:induction false} CandidatesAreFound(jobs: nat -> Decimals.Option<PickSelection.Candidate>,
                                              logs: seq<seq<nat>>)
    ensures Candidates(jobs, logs) == Found(jobs, Concat(logs))
    decreases |logs|
  {
    if logs != [] {
      CandidatesAreFound(jobs, logs[..|logs| - 1]);
      FoundConcat(jobs, Concat(logs[..|logs| - 1]), logs[|logs| - 1]);
    }
  }

  /** The day's picks do not depend on the number of workers or on how their steps interleave. */
  lemma {:induction false} PicksIgnoreSchedule(jobs: nat -> Decimals.Option<PickSelection.Candidate>, n: nat,
                                               states: seq<Pool>, steps: seq<Step>, concurrency: nat, topN: nat,
                                               maxPerSector: int)
    requires Schedule(states, steps, n, concurrency) && Done(states[|steps|]) && !states[|steps|].err
    requires PickSelection.DistinctTickers(Found(jobs, Range(n)))
    ensures PickSelection.Picks(Candidates(jobs, Logs(states[|steps|].workers)), topN, maxPerSector)
         == PickSelection.Picks(Found(jobs, Range(n)), topN, maxPerSector)
  {
    var logs := Logs(states[|steps|].workers);
    EachJobOnce(states, steps, n, concurrency);
    hide Schedule, Done, Found, PickSelection.Picks;
    CandidatesAreFound(jobs, logs);
    FoundIgnoresOrder(jobs, Range(n), Concat(logs));
    PickSelection.PicksIgnoreOrder(Found(jobs, Range(n)), Candidates(jobs, logs), topN, maxPerSector);
  }
}
