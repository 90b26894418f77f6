/** The whole chain from prices to trades never looks ahead. */
module NoLookAhead {
  import opened Decimals
  import opened MarketData
  import opened Backtest
  import opened BacktestFigures
  import opened BacktestRuns
  import opened Strategies
  import opened StrategySignals

  /** The entry signals of a strategy on a series. */
  ghost function Entries(sqrt: real -> real, strategy: Strategy, prices: seq<Bar>): (signals: seq<bool>)
    ensures |signals| == |prices|
  {
    seq(|prices|, i requires 0 <= i < |prices| => EntrySignal(sqrt, strategy, prices[..i + 1]))
  }

  /** Its exit signals, or none at all in the common exit mode. */
  ghost function Exits(sqrt: real -> real, strategy: Strategy, bySignal: bool, prices: seq<Bar>): (signals: seq<bool>)
    ensures |signals| == if bySignal then |prices| else 0
  {
    if bySignal then seq(|prices|, i requires 0 <= i < |prices| => ExitSignal(sqrt, strategy, prices[..i + 1])) else []
  }

  /** Fewer days than this are not backtested at all. */
  const MIN_BACKTEST_DAYS := 80

  /** The backtest of one strategy on one series; a series too short to warm the indicators up reports nothing. */
  method BacktestStrategy(sqrt: real -> real, strategy: Strategy, bySignal: bool, prices: seq<Bar>, params: ExitParams)
    returns (result: BacktestResult)
    requires Tradable(prices) && ValidCosts(params)
    ensures |prices| < MIN_BACKTEST_DAYS ==> result == EMPTY_RESULT
    ensures |prices| >= MIN_BACKTEST_DAYS ==>
      var entries, exits := Entries(sqrt, strategy, prices), Exits(sqrt, strategy, bySignal, prices);
      Reports(result, prices, params, Ledger(prices, entries, exits, params),
        EquityCurve(prices, entries, exits, params, |prices|), true)
  {
    hide EntrySignal, ExitSignal, Reports, Ledger, EquityCurve;
    if |prices| < MIN_BACKTEST_DAYS {
      return EMPTY_RESULT;
    }
    var entrySignals := EntrySignalsByStrategy(sqrt, strategy, prices);
    var exitSignals := [];
    if bySignal {
      exitSignals := ExitSignalsByStrategy(sqrt, strategy, prices);
    }
    assert entrySignals == Entries(sqrt, strategy, prices);
    assert exitSignals == Exits(sqrt, strategy, bySignal, prices);
    result := RunBacktest(prices, entrySignals, exitSignals, params, true);
  }

  lemma {:induction false} SignalsOfPrefix(sqrt: real -> real, strategy: Strategy, bySignal: bool, prices: seq<Bar>,
                                           k: nat)
    requires k <= |prices|
    ensures Entries(sqrt, strategy, prices[..k]) == Entries(sqrt, strategy, prices)[..k]
    ensures Exits(sqrt, strategy, bySignal, prices[..k]) == Cut(Exits(sqrt, strategy, bySignal, prices), k)
  {
    hide EntrySignal, ExitSignal;
    forall i | 0 <= i < k
      ensures Entries(sqrt, strategy, prices[..k])[i] == Entries(sqrt, strategy, prices)[i]
      ensures bySignal ==> Exits(sqrt, strategy, bySignal, prices[..k])[i] == Exits(sqrt, strategy, bySignal, prices)[i]
    {
      assert prices[..k][..i + 1] == prices[..i + 1];
    }
  }

  /** Stopping the price history at day k changes no signal, no equity point and no trade closed before it, for any
      strategy: the run on the shorter history has all those trades and only adds, at most, the one it is forced to
      end. What `BacktestStrategy` reports on the two histories are these figures, or nothing at all where a history is
      shorter than MIN_BACKTEST_DAYS. */
  lemma {:induction false} NoLookAhead(sqrt: real -> real, strategy: Strategy, bySignal: bool, prices: seq<Bar>,
                                       params: ExitParams, k: nat)
    requires Tradable(prices) && ValidCosts(params) && k <= |prices|
    ensures Tradable(prices[..k])
    ensures var seen := prices[..k];
      var entries, exits := Entries(sqrt, strategy, prices), Exits(sqrt, strategy, bySignal, prices);
      var entriesK, exitsK := Entries(sqrt, strategy, seen), Exits(sqrt, strategy, bySignal, seen);
      && entriesK == entries[..k] && exitsK == Cut(exits, k)
      && EquityCurve(seen, entriesK, exitsK, params, k) == EquityCurve(prices, entries, exits, params, |prices|)[..k]
      && SameTradesBefore(Ledger(seen, entriesK, exitsK, params), Ledger(prices, entries, exits, params), k)
  {
    hide Ledger, EquityCurve, Cut, Entries, Exits, SameTradesBefore;
    SignalsOfPrefix(sqrt, strategy, bySignal, prices, k);
    PrefixBacktest(prices, Entries(sqrt, strategy, prices), Exits(sqrt, strategy, bySignal, prices), params, k);
  }
}
