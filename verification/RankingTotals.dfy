/** The totals of a strategy, recomputed from its own list of stocks, and the list from the stocks worked off. */
module RankingTotals {
  import opened BacktestFigures
  import opened Strategies
  import opened StrategyRanking
  import opened Folds
  import Decimals

  /** The stocks of a log that count, in the order they were worked off. */
  function Counted(jobs: nat -> Job, log: seq<nat>): seq<Job> {
    if log == [] then []
    else
      var job := jobs(log[|log| - 1]);
      Counted(jobs, log[..|log| - 1]) + if job.days >= MIN_DAYS then [job] else []
  }

  predicate Traded(x: StockResult) {
    x.trades > 0
  }

  predicate Gained(x: StockResult) {
    x.totalReturn > 0.0
  }

  predicate Every(x: StockResult) {
    true
  }

  /** The entry of a stock in the list of a strategy carries the stock's own figures. */
  predicate EntryOf(x: StockResult, job: Job, s: Strategy)
    requires s in STRATEGIES
  {
    var r := job.results[s];
    && x.ticker == job.brand.ticker && x.name == job.brand.name
    && x.totalReturn == r.totalReturn && x.trades == r.trades && x.winRate == r.winRate
    && x.profitFactor == r.profitFactor && x.maxDrawdown == r.maxDrawdown && x.payoffRatio == r.payoffRatio
    && x.avgHoldDays == r.avgHoldDays
  }

  ghost predicate ListOf(stocks: seq<StockResult>, counted: seq<Job>, s: Strategy)
    requires s in STRATEGIES
  {
    |stocks| == |counted| && forall i | 0 <= i < |stocks| :: EntryOf(stocks[i], counted[i], s)
  }

  /** Counters and sums are those of the list. */
  ghost predicate TotalsOf(a: Acc, stocks: seq<StockResult>) {
    && a.stockCount == |stocks| && a.tradedStocks == HowMany(stocks, Traded)
    && a.positiveCount == HowMany(stocks, Gained)
    && a.totalTrades == SumOf(stocks, (x: StockResult) => x.trades)
    && a.sumTotalReturn == SumWhere(stocks, Every, (x: StockResult) => x.totalReturn)
    && a.sumWinRate == SumWhere(stocks, Traded, (x: StockResult) => x.winRate)
    && a.sumPF == SumWhere(stocks, Traded, (x: StockResult) => x.profitFactor)
  }

  lemma {:induction false} CountedSnoc(jobs: nat -> Job, log: seq<nat>, j: nat)
    ensures Counted(jobs, log + [j]) == Counted(jobs, log) + if jobs(j).days >= MIN_DAYS then [jobs(j)] else []
  {
    assert (log + [j])[..|log|] == log;
  }

  lemma {:induction false} ListGrows(stocks: seq<StockResult>, counted: seq<Job>, s: Strategy, x: StockResult, job: Job)
    requires s in STRATEGIES && ListOf(stocks, counted, s) && EntryOf(x, job, s)
    ensures ListOf(stocks + [x], counted + [job], s)
  {
    hide EntryOf;
  }

  /** What one stock adds, in terms of its entry. */
  predicate ShareFits(share: Acc, x: StockResult) {
    && share.stocks == [x] && share.stockCount == 1 && share.tradedStocks == (if x.trades > 0 then 1 else 0)
    && share.totalTrades == x.trades && share.positiveCount == (if x.totalReturn > 0.0 then 1 else 0)
    && share.sumTotalReturn == x.totalReturn && share.sumWinRate == (if x.trades > 0 then x.winRate else 0.0)
    && share.sumPF == if x.trades > 0 then x.profitFactor else 0.0
  }

  function TallyOf(jobs: nat -> Job, log: seq<nat>, s: Strategy): Acc
    requires s in STRATEGIES
  {
    Tally(jobs, log)[s]
  }

  function ShareOf(job: Job, s: Strategy): Acc
    requires s in STRATEGIES
  {
    Contribution(job.brand, job.results)[s]
  }

  lemma {:induction false} OneShare(job: Job, s: Strategy) returns (x: StockResult)
    requires s in STRATEGIES
    ensures EntryOf(x, job, s) && ShareFits(ShareOf(job, s), x)
  {
    hide BestOf;
    x := StockResultOf(job.brand, job.results[s]);
  }

  lemma {:induction false} TotalsGrow(a: Acc, share: Acc, x: StockResult)
    requires TotalsOf(a, a.stocks) && ShareFits(share, x)
    ensures TotalsOf(a.Plus(share), a.stocks + [x]) && a.Plus(share).stocks == a.stocks + [x]
  {
    assert (a.stocks + [x])[..|a.stocks|] == a.stocks;
  }

  lemma {:induction false} NoTotals(jobs: nat -> Job, s: Strategy)
    requires s in STRATEGIES
    ensures ListOf([], Counted(jobs, []), s) && TotalsOf(ZERO, []) && TallyOf(jobs, [], s) == ZERO
    ensures Counted(jobs, []) == [] && ZERO.stocks == []
  {
  }

  lemma {:induction false} TallyStep(jobs: nat -> Job, log: seq<nat>, j: nat, s: Strategy)
    requires s in STRATEGIES
    ensures TallyOf(jobs, log + [j], s)
         == if jobs(j).days < MIN_DAYS then TallyOf(jobs, log, s) else TallyOf(jobs, log, s).Plus(ShareOf(jobs(j), s))
  {
    hide Contribution, Tally, Acc.Plus;
    TallySnoc(jobs, log, j);
    PlusNothing(Tally(jobs, log));
  }

  /** What a worker, or the sequential run, has after a log: the list has one entry for every stock that counts, with
      that stock's figures, and every counter and sum is the one recomputed from the list. */
  lemma {:induction false} TallyTotals(jobs: nat -> Job, log: seq<nat>, s: Strategy)
    requires s in STRATEGIES
    ensures var a := Tally(jobs, log)[s]; ListOf(a.stocks, Counted(jobs, log), s) && TotalsOf(a, a.stocks)
  {
    hide Tally, Counted, ListOf, TotalsOf;
    TotalsAfter(jobs, log, s);
  }

  lemma {:induction false} TotalsAfter(jobs: nat -> Job, log: seq<nat>, s: Strategy)
    requires s in STRATEGIES
    ensures var a := TallyOf(jobs, log, s); ListOf(a.stocks, Counted(jobs, log), s) && TotalsOf(a, a.stocks)
    decreases |log|
  {
    hide *;
    if log == [] {
      NoTotals(jobs, s);
    } else {
      var init, j := log[..|log| - 1], log[|log| - 1];
      assert log == init + [j];
      TotalsAfter(jobs, init, s);
      TallyStep(jobs, init, j, s);
      CountedSnoc(jobs, init, j);
      var a, share := TallyOf(jobs, init, s), ShareOf(jobs(j), s);
      var x := OneShare(jobs(j), s);
      if jobs(j).days >= MIN_DAYS {
        TotalsGrow(a, share, x);
        ListGrows(a.stocks, Counted(jobs, init), s, x, jobs(j));
      } else {
        assert Counted(jobs, init) + [] == Counted(jobs, init);
      }
    }
  }

  /** The number of stocks reported as processed is the length of the lists. */
  lemma {:induction false} ProcessedCounted(jobs: nat -> Job, log: seq<nat>)
    ensures Processed(jobs, log) == |Counted(jobs, log)|
    decreases |log|
  {
    if log != [] {
      ProcessedCounted(jobs, log[..|log| - 1]);
    }
  }

  // ----- Best strategies

  /** The strategy traded with a return above -999, none that traded did better, and none before it did as well. */
  ghost predicate Wins(job: Job, s: Strategy) {
    exists b | 0 <= b < 5 ::
      && STRATEGY_ORDER[b] == s
      && var won := job.results[STRATEGY_ORDER[b]];
         && won.trades > 0 && won.totalReturn > -999.0
         && forall i | 0 <= i < 5 :: var r := job.results[STRATEGY_ORDER[i]];
              r.trades > 0 ==> r.totalReturn <= won.totalReturn && (i < b ==> r.totalReturn < won.totalReturn)
  }

  lemma {:induction false} BestWins(job: Job, s: Strategy)
    ensures BestOf(job.results, 5) == Decimals.Some(s) <==> Wins(job, s)
  {
    var best := BestOf(job.results, 5);
    assert IsBest(job.results, 5, best);
    hide BestOf;
    if Wins(job, s) {
      var b :| 0 <= b < 5 && STRATEGY_ORDER[b] == s;
      OrderIsStrategies(b);
    }
  }

  ghost function WonBy(s: Strategy): Job -> bool {
    (job: Job) => Wins(job, s)
  }

  /** A strategy's best count is the number of stocks it wins. */
  lemma {:induction false} BestCounts(jobs: nat -> Job, log: seq<nat>, s: Strategy)
    requires s in STRATEGIES
    ensures Tally(jobs, log)[s].bestCount == HowMany(Counted(jobs, log), WonBy(s))
  {
    hide Tally, Counted, HowMany;
    BestCountsAfter(jobs, log, s);
  }

  lemma {:induction false} BestCountsAfter(jobs: nat -> Job, log: seq<nat>, s: Strategy)
    requires s in STRATEGIES
    ensures TallyOf(jobs, log, s).bestCount == HowMany(Counted(jobs, log), WonBy(s))
    decreases |log|
  {
    hide *;
    if log == [] {
      NoTotals(jobs, s);
      NoneWon(s);
    } else {
      var init, j := log[..|log| - 1], log[|log| - 1];
      assert log == init + [j];
      BestCountsAfter(jobs, init, s);
      TallyStep(jobs, init, j, s);
      CountedSnoc(jobs, init, j);
      if jobs(j).days >= MIN_DAYS {
        OneMoreBest(TallyOf(jobs, init, s), Counted(jobs, init), jobs(j), s);
      } else {
        assert Counted(jobs, init) + [] == Counted(jobs, init);
      }
    }
  }

  lemma {:induction false} NoneWon(s: Strategy)
    ensures HowMany([], WonBy(s)) == 0 && ZERO.bestCount == 0
  {
  }

  lemma {:induction false} OneMoreBest(a: Acc, counted: seq<Job>, job: Job, s: Strategy)
    requires s in STRATEGIES && a.bestCount == HowMany(counted, WonBy(s))
    ensures a.Plus(ShareOf(job, s)).bestCount == HowMany(counted + [job], WonBy(s))
  {
    hide Wins, BestOf;
    BestWins(job, s);
    assert (counted + [job])[..|counted|] == counted;
  }

  /** Some strategy traded the stock with a return above -999. */
  ghost predicate Winnable(job: Job) {
    exists s | s in STRATEGIES :: job.results[s].trades > 0 && job.results[s].totalReturn > -999.0
  }

  lemma {:induction false} WinnableWon(job: Job)
    ensures Winnable(job) <==> BestOf(job.results, 5).Some?
    ensures BestOf(job.results, 5).Some? ==> BestOf(job.results, 5).value in STRATEGIES
  {
    var best := BestOf(job.results, 5);
    assert IsBest(job.results, 5, best);
    hide BestOf;
    if s :| s in STRATEGIES && job.results[s].trades > 0 && job.results[s].totalReturn > -999.0 {
      assert s in STRATEGY_ORDER;
    }
  }

  function BestCountsOf(accs: Accs): int {
    accs[MACDBullish].bestCount + accs[BollingerBreakout].bestCount + accs[TriangleFormation].bestCount
    + accs[MovingAverageCross].bestCount + accs[MultipleSignals].bestCount
  }

  /** The best counts of all strategies add up to the number of stocks that some strategy traded above -999. */
  lemma {:induction false} BestCountsAddUp(jobs: nat -> Job, log: seq<nat>)
    ensures BestCountsOf(Tally(jobs, log)) == HowMany(Counted(jobs, log), Winnable)
    decreases |log|
  {
    hide *;
    if log == [] {
      NoBestCounts(jobs);
    } else {
      var init, j := log[..|log| - 1], log[|log| - 1];
      assert log == init + [j];
      BestCountsAddUp(jobs, init);
      TallySnoc(jobs, init, j);
      CountedSnoc(jobs, init, j);
      OneMoreStock(Tally(jobs, init), Counted(jobs, init), jobs(j));
      assert Counted(jobs, init) + [] == Counted(jobs, init);
    }
  }

  lemma {:induction false} NoBestCounts(jobs: nat -> Job)
    ensures BestCountsOf(Tally(jobs, [])) == 0 && HowMany(Counted(jobs, []), Winnable) == 0
  {
  }

  lemma {:induction false} OneMoreStock(accs: Accs, counted: seq<Job>, job: Job)
    requires BestCountsOf(accs) == HowMany(counted, Winnable)
    ensures BestCountsOf(PlusAll(accs, Evaluated(job)))
         == if job.days >= MIN_DAYS then HowMany(counted + [job], Winnable) else HowMany(counted, Winnable)
  {
    hide Winnable, BestOf;
    WinnableWon(job);
    assert (counted + [job])[..|counted|] == counted;
  }
}
