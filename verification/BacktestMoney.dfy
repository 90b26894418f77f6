/** The money of a backtest over closes: what its figures are, without the account that tracks them. */
module BacktestMoney {
  import opened Decimals
  import opened MarketData
  import opened Backtest
  import opened BacktestFigures
  import opened Folds

  // ----- Compounding

  function ProductOf(xs: seq<real>): real {
    if xs == [] then 1.0 else ProductOf(xs[..|xs| - 1]) * xs[|xs| - 1]
  }

  lemma {:induction false} ProductSnoc(xs: seq<real>, x: real)
    ensures ProductOf(xs + [x]) == ProductOf(xs) * x
  {
    assert (xs + [x])[..|xs|] == xs;
  }

  /** What a share bought, and one sold, comes to after costs. */
  function PaidAt(close: real, params: ExitParams): real {
    close * (1.0 + params.slippageRate) * (1.0 + params.commissionRate)
  }

  function GotAt(close: real, params: ExitParams): real {
    close * (1.0 - params.slippageRate) * (1.0 - params.commissionRate)
  }

  function Paid(prices: seq<Bar>, params: ExitParams, trades: seq<Trade>): (xs: seq<real>)
    requires InRange(prices, trades)
    ensures |xs| == |trades|
  {
    seq(|trades|, k requires 0 <= k < |trades| => assert trades[k] in trades;
      PaidAt(prices[trades[k].entry].close, params))
  }

  function Got(prices: seq<Bar>, params: ExitParams, trades: seq<Trade>): (xs: seq<real>)
    requires InRange(prices, trades)
    ensures |xs| == |trades|
  {
    seq(|trades|, k requires 0 <= k < |trades| => assert trades[k] in trades;
      GotAt(prices[trades[k].exit].close, params))
  }

  lemma {:induction false} PaidAndGotSnoc(prices: seq<Bar>, params: ExitParams, trades: seq<Trade>, t: Trade)
    requires InRange(prices, trades + [t])
    ensures InRange(prices, trades) && t.entry < |prices| && t.exit < |prices|
    ensures Paid(prices, params, trades + [t]) == Paid(prices, params, trades) + [PaidAt(prices[t.entry].close, params)]
    ensures Got(prices, params, trades + [t]) == Got(prices, params, trades) + [GotAt(prices[t.exit].close, params)]
  {
    hide PaidAt, GotAt;
    forall u | u in trades ensures u in trades + [t] {}
    assert t in trades + [t];
  }

  /** The realized equity: all that was got over all that was paid. */
  lemma {:induction false} CompoundedIsQuotient(prices: seq<Bar>, params: ExitParams, trades: seq<Trade>)
    requires Tradable(prices) && ValidCosts(params) && InRange(prices, trades)
    ensures Compounded(prices, params, trades) * ProductOf(Paid(prices, params, trades))
         == ProductOf(Got(prices, params, trades))
    decreases |trades|
  {
    hide *;
    if trades == [] {
      NothingTraded(prices, params);
    } else {
      var init, t := trades[..|trades| - 1], trades[|trades| - 1];
      assert trades == init + [t];
      PaidAndGotSnoc(prices, params, init, t);
      AppendTrade(prices, params, init, t);
      CompoundedIsQuotient(prices, params, init);
      GrowthOverCloses(prices, params, t);
      var paid, got := PaidAt(prices[t.entry].close, params), GotAt(prices[t.exit].close, params);
      ProductSnoc(Paid(prices, params, init), paid);
      ProductSnoc(Got(prices, params, init), got);
      Interchange(Compounded(prices, params, init), Growth(prices, params, t), ProductOf(Paid(prices, params, init)),
        paid, got);
    }
  }

  lemma {:induction false} NothingTraded(prices: seq<Bar>, params: ExitParams)
    requires Tradable(prices) && ValidCosts(params)
    ensures InRange(prices, []) && Compounded(prices, params, []) == 1.0
    ensures ProductOf(Paid(prices, params, [])) == 1.0 && ProductOf(Got(prices, params, [])) == 1.0
  {
  }

  lemma {:induction false} GrowthOverCloses(prices: seq<Bar>, params: ExitParams, t: Trade)
    requires Tradable(prices) && ValidCosts(params) && t.entry < |prices| && t.exit < |prices|
    ensures Growth(prices, params, t) * PaidAt(prices[t.entry].close, params)
         == GotAt(prices[t.exit].close, params)
  {
    hide EffectiveEntryPrice, EffectiveExitPrice;
    EffectiveFormulas(prices[t.entry].close, params.commissionRate, params.slippageRate);
    EffectiveFormulas(prices[t.exit].close, params.commissionRate, params.slippageRate);
  }

  lemma {:induction false} Interchange(a: real, b: real, c: real, d: real, bd: real)
    requires b * d == bd
    ensures (a * b) * (c * d) == (a * c) * bd
  {
  }

  // ----- The last equity point

  /** The last equity point, less the costs of the exit where the end of the data closes a position, is one plus the
      unrounded total return. */
  lemma {:induction false} LastEquity(prices: seq<Bar>, entries: seq<bool>, exits: seq<bool>, params: ExitParams)
    requires Tradable(prices) && ValidCosts(params) && |entries| == |prices| > 0
    ensures var n, trades := |prices|, Ledger(prices, entries, exits, params);
      var ended := trades != [] && trades[|trades| - 1].reason == EndOfData;
      Compounded(prices, params, trades)
      == EquityOn(prices, entries, exits, params, n - 1)
         * if ended then (1.0 - params.slippageRate) * (1.0 - params.commissionRate) else 1.0
  {
    hide *;
    var n := |prices|;
    var book := Run(prices, entries, exits, params, n);
    LedgerSplits(prices, entries, exits, params);
    EquityIs(prices, entries, exits, params);
    if book.open.Some? {
      var t := Trade(book.open.value, n - 1, EndOfData);
      AppendTrade(prices, params, book.closed, t);
      MarkedToSold(prices, params, t, Compounded(prices, params, book.closed));
    }
  }

  lemma {:induction false} LedgerSplits(prices: seq<Bar>, entries: seq<bool>, exits: seq<bool>, params: ExitParams)
    requires Tradable(prices) && |entries| == |prices| > 0
    ensures var book, trades := Run(prices, entries, exits, params, |prices|), Ledger(prices, entries, exits, params);
      && InRange(prices, trades) && (book.open.Some? ==> book.open.value < |prices|)
      && trades == (if book.open.Some? then book.closed + [Trade(book.open.value, |prices| - 1, EndOfData)]
                    else book.closed)
      && (trades != [] && trades[|trades| - 1].reason == EndOfData <==> book.open.Some?)
  {
    hide Run;
    ClosedByRules(prices, entries, exits, params, |prices|);
    var closed := Run(prices, entries, exits, params, |prices|).closed;
    assert closed != [] ==> closed[|closed| - 1] in closed;
  }

  lemma {:induction false} EquityIs(prices: seq<Bar>, entries: seq<bool>, exits: seq<bool>, params: ExitParams)
    requires Tradable(prices) && ValidCosts(params) && |entries| == |prices| > 0
    ensures var n, book := |prices|, Run(prices, entries, exits, params, |prices|);
      EquityOn(prices, entries, exits, params, n - 1)
      == Compounded(prices, params, book.closed)
         * if book.open.Some? then prices[n - 1].close / EntryCost(prices, params, book.open.value) else 1.0
  {
    hide Run, Compounded, EntryCost;
  }

  lemma {:induction false} MarkedToSold(prices: seq<Bar>, params: ExitParams, t: Trade, realized: real)
    requires Tradable(prices) && ValidCosts(params) && t.entry < |prices| && t.exit < |prices|
    ensures realized * Growth(prices, params, t)
         == (realized * (prices[t.exit].close / EntryCost(prices, params, t.entry)))
            * ((1.0 - params.slippageRate) * (1.0 - params.commissionRate))
  {
    hide EffectiveExitPrice, EntryCost;
    var close, cost := prices[t.exit].close, EntryCost(prices, params, t.entry);
    var kept := (1.0 - params.slippageRate) * (1.0 - params.commissionRate);
    EffectiveFormulas(close, params.commissionRate, params.slippageRate);
    var q := close / cost;
    assert q * cost == close;
    var proceeds := ExitProceeds(prices, params, t.exit);
    assert proceeds == close * kept;
    assert (q * kept) * cost == proceeds;
    QuotientIs(proceeds, cost, q * kept);
  }

  lemma {:induction false} ClosedByRules(prices: seq<Bar>, entries: seq<bool>, exits: seq<bool>, params: ExitParams,
                                         days: nat)
    requires Tradable(prices) && |entries| == |prices| && days <= |prices|
    ensures forall t | t in Run(prices, entries, exits, params, days).closed :: t.reason != EndOfData
  {
    if days > 0 {
      ClosedByRules(prices, entries, exits, params, days - 1);
    }
  }

  // ----- Ratios

  /** The gains of some returns, and their losses, zero elsewhere. */
  function Ups(rets: seq<real>): (ups: seq<real>)
    ensures |ups| == |rets|
  {
    seq(|rets|, i requires 0 <= i < |rets| => Max(rets[i], 0.0))
  }

  function Downs(rets: seq<real>): (downs: seq<real>)
    ensures |downs| == |rets|
  {
    seq(|rets|, i requires 0 <= i < |rets| => Min(rets[i], 0.0))
  }

  ghost function Won(rets: seq<real>): set<nat> {
    set i: nat | i < |rets| && rets[i] > 0.0
  }

  ghost function Lost(rets: seq<real>): set<nat> {
    set i: nat | i < |rets| && rets[i] < 0.0
  }

  lemma {:induction false} OneMoreMove(rets: seq<real>, ret: real)
    ensures Ups(rets + [ret]) == Ups(rets) + [Max(ret, 0.0)] && Downs(rets + [ret]) == Downs(rets) + [Min(ret, 0.0)]
  {
    hide Max, Min;
  }

  lemma {:induction false} OneMoreWin(rets: seq<real>, ret: real)
    ensures |Won(rets + [ret])| == |Won(rets)| + if ret > 0.0 then 1 else 0
  {
    assert Won(rets + [ret]) == if ret > 0.0 then Won(rets) + {|rets|} else Won(rets);
  }

  lemma {:induction false} OneMoreLoss(rets: seq<real>, ret: real)
    ensures |Lost(rets + [ret])| == |Lost(rets)| + if ret < 0.0 then 1 else 0
  {
    assert Lost(rets + [ret]) == if ret < 0.0 then Lost(rets) + {|rets|} else Lost(rets);
  }

  lemma {:induction false} SplitReturns(rets: seq<real>)
    ensures |Positives(rets)| == |Won(rets)| && |Negatives(rets)| == |Lost(rets)|
    ensures Sum(Positives(rets)) == Sum(Ups(rets)) && Sum(Negatives(rets)) == Sum(Downs(rets))
    decreases |rets|
  {
    hide Won, Lost, Ups, Downs;
    if rets != [] {
      var init, ret := rets[..|rets| - 1], rets[|rets| - 1];
      assert rets == init + [ret];
      SplitReturns(init);
      OneMoreMove(init, ret);
      OneMoreWin(init, ret);
      OneMoreLoss(init, ret);
      AppendReturn(init, ret);
      hide Positives, Negatives;
      AppendSums(init, ret);
      SumAppend(Ups(init), Max(ret, 0.0));
      SumAppend(Downs(init), Min(ret, 0.0));
    } else {
      NoReturns();
    }
  }

  lemma {:induction false} NoReturns()
    ensures Won([]) == {} && Lost([]) == {} && Ups([]) == [] && Downs([]) == []
  {
  }

  lemma {:induction false} NoGainInDowns(rets: seq<real>)
    ensures Sum(Downs(rets)) <= 0.0
  {
    SumAtMost(Downs(rets), 0.0);
  }

  predicate Near(x: real, y: real, error: real) {
    -error <= x - y <= error
  }

  lemma {:induction false} RoundedNear(x: real)
    ensures Near(Round(x, 4), x, 0.00005) && Near(Round(x, 6), x, 0.0000005)
  {
    RoundError(x, 4);
    RoundError(x, 6);
    assert Pow10(4) == 10000.0 && Pow10(2) == 100.0;
    assert Pow10(6) == 1000000.0;
  }

  /** The ratios over the trade returns: the share of winners, the mean gain of the winners and loss of the losers, and
      all gains over all losses. */
  lemma {:induction false} RatiosOverReturns(result: BacktestResult, rets: seq<real>)
    requires RatiosOf(result, rets) && rets != []
    ensures var won, lost, gain, loss := |Won(rets)|, |Lost(rets)|, Sum(Ups(rets)), Sum(Downs(rets));
      && Near(result.winRate, won as real / |rets| as real, 0.00005)
      && (won > 0 ==> Near(result.avgWin, gain / won as real, 0.0000005))
      && (lost > 0 ==> Near(result.avgLoss, loss / lost as real, 0.0000005))
      && (loss != 0.0 ==> Near(result.profitFactor, gain / -loss, 0.0000005))
      && (won == 0 ==> result.avgWin == 0.0) && (lost == 0 ==> result.avgLoss == 0.0)
      && (loss == 0.0 ==> result.profitFactor == 0.0)
      && result.avgLoss <= 0.0
      && (result.avgLoss < 0.0 ==> Near(result.payoffRatio, result.avgWin / -result.avgLoss, 0.0000005))
  {
    hide Round, Positives, Negatives, Won, Lost, Ups, Downs;
    SplitReturns(rets);
    var won, lost, gain, loss := |Won(rets)|, |Lost(rets)|, Sum(Ups(rets)), Sum(Downs(rets));
    RoundedNear(won as real / |rets| as real);
    if won > 0 {
      RoundedNear(gain / won as real);
    }
    NoGainInDowns(rets);
    if lost > 0 {
      RoundedNear(loss / lost as real);
      QuotientAtMost(loss, 0.0, lost as real);
      RoundMonotone(loss / lost as real, 0.0, 6);
      RoundOfInteger(0, 6);
    }
    if result.avgLoss < 0.0 {
      RoundedNear(result.avgWin / -result.avgLoss);
    }
    if loss != 0.0 {
      RoundedNear(gain / -loss);
    }
  }

  // ----- The reported trades

  /** A reported trade over closes, where no costs are charged: prices and return to half a millionth. */
  lemma {:induction false} ReportedOverCloses(prices: seq<Bar>, params: ExitParams, t: Trade)
    requires Tradable(prices) && ValidCosts(params) && t.entry < |prices| && t.exit < |prices|
    requires params.commissionRate == 0.0 && params.slippageRate == 0.0
    ensures var r, base, last := Reported(prices, params, t), prices[t.entry].close, prices[t.exit].close;
      && r.entryDate == prices[t.entry].date && r.exitDate == prices[t.exit].date
      && r.holdDays == t.exit - t.entry && r.reason == t.reason
      && Near(r.entryPrice, base, 0.0000005) && Near(r.exitPrice, last, 0.0000005)
      && Near(r.ret, last / base - 1.0, 0.0000005)
  {
    hide Round;
    var base, last := prices[t.entry].close, prices[t.exit].close;
    RoundedNear(base);
    RoundedNear(last);
    RoundedNear(last / base - 1.0);
  }

  /** The equity reported for a day is the day's, to half a millionth. */
  lemma {:induction false} ReportedEquityOverDays(prices: seq<Bar>, curve: seq<real>, i: nat)
    requires i < |curve| <= |prices|
    ensures var point := ReportedEquity(prices, curve)[i];
      point.date == prices[i].date && Near(point.equity, curve[i], 0.0000005)
  {
    hide Round;
    RoundedNear(curve[i]);
  }

  /** All holds together are the exit days less the entry days. */
  lemma {:induction false} HoldsAddUp(trades: seq<Trade>)
    ensures SumInts(HoldsOf(trades)) == SumOf(trades, (t: Trade) => t.exit) - SumOf(trades, (t: Trade) => t.entry)
    decreases |trades|
  {
    if trades != [] {
      var n := |trades| - 1;
      HoldsAddUp(trades[..n]);
      assert HoldsOf(trades) == HoldsOf(trades[..n]) + [trades[n].exit - trades[n].entry];
      AppendHold(HoldsOf(trades[..n]), trades[n].exit - trades[n].entry);
    }
  }
}
