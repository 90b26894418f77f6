/** The results a stock contributes to the ranking: a backtest of each strategy, by the common exit rules, without
    series. */
module StrategyResults {
  import opened MarketData
  import opened Backtest
  import opened BacktestFigures
  import opened Strategies
  import opened StrategyRanking
  import opened StrategySignals
  import opened NoLookAhead

  ghost predicate Reported(sqrt: real -> real, s: Strategy, prices: seq<Bar>, params: ExitParams, r: BacktestResult)
    requires Tradable(prices) && ValidCosts(params)
  {
    var entries := Entries(sqrt, s, prices);
    if prices == [] then r == EMPTY_RESULT
    else
      Reports(r, prices, params, Ledger(prices, entries, [], params),
        EquityCurve(prices, entries, [], params, |prices|), false)
  }

  /** Each strategy's entry is the report on the trades it makes on these prices. */
  ghost predicate AllReported(sqrt: real -> real, prices: seq<Bar>, params: ExitParams, results: Results)
    requires Tradable(prices) && ValidCosts(params)
  {
    forall s | s in STRATEGIES :: Reported(sqrt, s, prices, params, results[s])
  }

  method BacktestAll(sqrt: real -> real, prices: seq<Bar>, params: ExitParams) returns (results: Results)
    requires Tradable(prices) && ValidCosts(params)
    ensures AllReported(sqrt, prices, params, results)
  {
    hide EntrySignal, Reported;
    results := map s | s in STRATEGIES :: EMPTY_RESULT;
    var k := 0;
    while k < |STRATEGY_ORDER|
      invariant 0 <= k <= 5
      invariant forall i | 0 <= i < k :: Reported(sqrt, STRATEGY_ORDER[i], prices, params, results[STRATEGY_ORDER[i]])
    {
      OrderIsStrategies(k);
      var s := STRATEGY_ORDER[k];
      var result := BacktestOne(sqrt, s, prices, params);
      results := results[s := result];
      k := k + 1;
    }
    forall s | s in STRATEGIES ensures Reported(sqrt, s, prices, params, results[s]) {
      assert s in STRATEGY_ORDER;
    }
  }

  method BacktestOne(sqrt: real -> real, s: Strategy, prices: seq<Bar>, params: ExitParams)
    returns (result: BacktestResult)
    requires Tradable(prices) && ValidCosts(params)
    ensures Reported(sqrt, s, prices, params, result)
  {
    hide EntrySignal, Reports, Ledger, EquityCurve;
    var signals := EntrySignalsByStrategy(sqrt, s, prices);
    assert signals == Entries(sqrt, s, prices);
    result := RunBacktest(prices, signals, [], params, false);
  }

  lemma {:induction false} RatiosUnique(a: BacktestResult, b: BacktestResult, rets: seq<real>)
    requires RatiosOf(a, rets) && RatiosOf(b, rets)
    ensures a.winRate == b.winRate && a.profitFactor == b.profitFactor && a.avgWin == b.avgWin
    ensures a.avgLoss == b.avgLoss && a.payoffRatio == b.payoffRatio
  {
  }

  lemma {:induction false} ReportsUnique(prices: seq<Bar>, params: ExitParams, trades: seq<Trade>, curve: seq<real>,
                                         collectSeries: bool, a: BacktestResult, b: BacktestResult)
    requires Tradable(prices) && ValidCosts(params) && InRange(prices, trades) && |curve| <= |prices|
    requires Reports(a, prices, params, trades, curve, collectSeries)
    requires Reports(b, prices, params, trades, curve, collectSeries)
    ensures a == b
  {
    hide RatiosOf, ReportedEquity, ReportedTrades, Compounded, ReturnsOf, HoldsOf;
    RatiosUnique(a, b, ReturnsOf(prices, params, trades));
  }

  lemma {:induction false} ReportedUnique(sqrt: real -> real, s: Strategy, prices: seq<Bar>, params: ExitParams,
                                          a: BacktestResult, b: BacktestResult)
    requires Tradable(prices) && ValidCosts(params)
    requires Reported(sqrt, s, prices, params, a) && Reported(sqrt, s, prices, params, b)
    ensures a == b
  {
    hide Reports, Ledger, EquityCurve, EntrySignal;
    if prices != [] {
      var entries := Entries(sqrt, s, prices);
      ReportsUnique(prices, params, Ledger(prices, entries, [], params),
        EquityCurve(prices, entries, [], params, |prices|), false, a, b);
    }
  }

  /** The prices and the exit rules leave no choice of results, so it does not matter which worker computes them. */
  lemma {:induction false} ResultsUnique(sqrt: real -> real, prices: seq<Bar>, params: ExitParams, a: Results,
                                         b: Results)
    requires Tradable(prices) && ValidCosts(params)
    requires AllReported(sqrt, prices, params, a) && AllReported(sqrt, prices, params, b)
    ensures a == b
  {
    hide Reported;
    forall s | s in STRATEGIES ensures a[s] == b[s] {
      ReportedUnique(sqrt, s, prices, params, a[s], b[s]);
    }
  }

  /** Adds a stock's backtests to a worker's totals. */
  method AccumulateStock(local: WorkerAccs, sqrt: real -> real, brand: Brand, prices: seq<Bar>, params: ExitParams)
    requires Tradable(prices) && ValidCosts(params)
    modifies local
    ensures forall results: Results | AllReported(sqrt, prices, params, results) ::
      local.accs == PlusAll(old(local.accs), Contribution(brand, results))
    ensures exists results: Results :: AllReported(sqrt, prices, params, results)
  {
    hide PlusAll, Contribution, AllReported;
    var results := BacktestAll(sqrt, prices, params);
    local.AccumulateResults(brand, results);
    forall other: Results | AllReported(sqrt, prices, params, other) ensures other == results {
      ResultsUnique(sqrt, prices, params, results, other);
    }
  }
}
