/** The one-position backtest: exit test, entry test and mark-to-market once per day, forced close at the end.

    The decisions are specified by `Run`, which knows only days and reasons; the money is a function of the
    resulting trades. `RunBacktest` is the loop of the program, proved against both. */
module Backtest {
  import opened Decimals
  import opened BacktestFigures
  import opened MarketData
  import ReturnAnalytics

  datatype ExitParams = ExitParams(
    takeProfit: real, stopLoss: real, maxHoldDays: int, commissionRate: real, slippageRate: real)

  ghost predicate ValidCosts(params: ExitParams) {
    0.0 <= params.commissionRate < 1.0 && 0.0 <= params.slippageRate < 1.0
  }

  // ----- Exit decisions, on raw closes

  function ExitReason(ret: real, holdDays: int, params: ExitParams): Option<Reason> {
    if ret >= params.takeProfit then Some(TakeProfit)
    else if ret <= -params.stopLoss then Some(StopLoss)
    else if holdDays >= params.maxHoldDays then Some(MaxHold)
    else None
  }

  /** A missing exit series is the empty one. */
  function DecideExitReason(rawRet: real, holdDays: int, exits: seq<bool>, idx: nat, params: ExitParams)
    : Option<Reason>
  {
    var reason := ExitReason(rawRet, holdDays, params);
    if reason.Some? then reason
    else if idx < |exits| && exits[idx] then Some(SignalExit)
    else None
  }

  function Decision(prices: seq<Bar>, exits: seq<bool>, params: ExitParams, entry: nat, day: nat): Option<Reason>
    requires Tradable(prices) && entry < |prices| && day < |prices|
  {
    DecideExitReason(prices[day].close / prices[entry].close - 1.0, day - entry, exits, day, params)
  }

  // ----- The day-by-day position

  datatype Trade = Trade(entry: nat, exit: nat, reason: Reason)

  datatype Book = Book(open: Option<nat>, closed: seq<Trade>)

  ghost predicate InRange(prices: seq<Bar>, trades: seq<Trade>) {
    forall t | t in trades :: t.entry < |prices| && t.exit < |prices|
  }

  function AfterExitTest(prices: seq<Bar>, exits: seq<bool>, params: ExitParams, book: Book, day: nat): Book
    requires Tradable(prices) && day < |prices| && (book.open.Some? ==> book.open.value < |prices|)
  {
    if book.open.Some? && Decision(prices, exits, params, book.open.value, day).Some? then
      Book(None,
        book.closed + [Trade(book.open.value, day, Decision(prices, exits, params, book.open.value, day).value)])
    else book
  }

  function AfterEntryTest(entries: seq<bool>, book: Book, day: nat): Book
    requires day < |entries|
  {
    if book.open.None? && entries[day] then Book(Some(day), book.closed) else book
  }

  /** The book after the first `days` days. */
  function Run(prices: seq<Bar>, entries: seq<bool>, exits: seq<bool>, params: ExitParams, days: nat): (book: Book)
    requires Tradable(prices) && |entries| == |prices| && days <= |prices|
    ensures book.open.Some? ==> book.open.value < days
    ensures InRange(prices, book.closed)
  {
    if days == 0 then Book(None, [])
    else
      var day := days - 1;
      var before := Run(prices, entries, exits, params, day);
      AfterEntryTest(entries, AfterExitTest(prices, exits, params, before, day), day)
  }

  /** All trades of a run, the position left over at the end closed on the last day. */
  function Ledger(prices: seq<Bar>, entries: seq<bool>, exits: seq<bool>, params: ExitParams): (trades: seq<Trade>)
    requires Tradable(prices)
    ensures InRange(prices, trades)
  {
    if |prices| == 0 || |entries| != |prices| then []
    else
      var book := Run(prices, entries, exits, params, |prices|);
      if book.open.Some? then book.closed + [Trade(book.open.value, |prices| - 1, EndOfData)] else book.closed
  }

  // ----- Money

  function EffectiveEntryPrice(close: real, commissionRate: real, slippageRate: real): real {
    var slipped := if slippageRate != 0.0 then close * (1.0 + slippageRate) else close;
    if commissionRate != 0.0 then slipped * (1.0 + commissionRate) else slipped
  }

  function EffectiveExitPrice(close: real, commissionRate: real, slippageRate: real): real {
    var slipped := if slippageRate != 0.0 then close * (1.0 - slippageRate) else close;
    if commissionRate != 0.0 then slipped * (1.0 - commissionRate) else slipped
  }

  function EffectiveExitReturn(exitClose: real, effectiveEntry: real, commissionRate: real, slippageRate: real): real
    requires effectiveEntry != 0.0
  {
    EffectiveExitPrice(exitClose, commissionRate, slippageRate) / effectiveEntry - 1.0
  }

  lemma {:induction false} EffectivePricesPositive(close: real, params: ExitParams)
    requires close > 0.0 && ValidCosts(params)
    ensures EffectiveEntryPrice(close, params.commissionRate, params.slippageRate) >= close
    ensures 0.0 < EffectiveExitPrice(close, params.commissionRate, params.slippageRate) <= close
  {
    EffectiveFormulas(close, params.commissionRate, params.slippageRate);
    var c, s := params.commissionRate, params.slippageRate;
    hide EffectiveEntryPrice, EffectiveExitPrice;
    ProductMonotone(1.0, 1.0 + s, close);
    ProductMonotone(1.0, 1.0 + c, close * (1.0 + s));
    Shrinks(close, 1.0 - s);
    Shrinks(close * (1.0 - s), 1.0 - c);
  }

  /** Skipping a zero rate is the same as multiplying by one. */
  lemma {:induction false} EffectiveFormulas(close: real, commissionRate: real, slippageRate: real)
    ensures EffectiveEntryPrice(close, commissionRate, slippageRate)
         == close * (1.0 + slippageRate) * (1.0 + commissionRate)
    ensures EffectiveExitPrice(close, commissionRate, slippageRate)
         == close * (1.0 - slippageRate) * (1.0 - commissionRate)
  {
  }

  lemma {:induction false} Shrinks(price: real, factor: real)
    requires price > 0.0 && 0.0 < factor <= 1.0
    ensures 0.0 < price * factor <= price
  {
  }

  function EntryCost(prices: seq<Bar>, params: ExitParams, day: nat): (cost: real)
    requires Tradable(prices) && ValidCosts(params) && day < |prices|
    ensures cost > 0.0
  {
    EffectivePricesPositive(prices[day].close, params);
    EffectiveEntryPrice(prices[day].close, params.commissionRate, params.slippageRate)
  }

  function ExitProceeds(prices: seq<Bar>, params: ExitParams, day: nat): (proceeds: real)
    requires Tradable(prices) && ValidCosts(params) && day < |prices|
    ensures proceeds > 0.0
  {
    EffectivePricesPositive(prices[day].close, params);
    EffectiveExitPrice(prices[day].close, params.commissionRate, params.slippageRate)
  }

  /** What one unit of capital becomes through a trade. */
  function Growth(prices: seq<Bar>, params: ExitParams, t: Trade): (g: real)
    requires Tradable(prices) && ValidCosts(params) && t.entry < |prices| && t.exit < |prices|
    ensures g > 0.0
  {
    QuotientPositive(ExitProceeds(prices, params, t.exit), EntryCost(prices, params, t.entry));
    ExitProceeds(prices, params, t.exit) / EntryCost(prices, params, t.entry)
  }

  /** The product of the growth of all trades. */
  function Compounded(prices: seq<Bar>, params: ExitParams, trades: seq<Trade>): (equity: real)
    requires Tradable(prices) && ValidCosts(params) && InRange(prices, trades)
    ensures equity > 0.0
  {
    if trades == [] then 1.0
    else
      var last := |trades| - 1;
      assert trades[last] in trades;
      Compounded(prices, params, trades[..last]) * Growth(prices, params, trades[last])
  }

  /** Mark-to-market equity at the end of a day. */
  function EquityOn(prices: seq<Bar>, entries: seq<bool>, exits: seq<bool>, params: ExitParams, day: nat): (eq: real)
    requires Tradable(prices) && ValidCosts(params) && |entries| == |prices| && day < |prices|
    ensures eq > 0.0
  {
    var book := Run(prices, entries, exits, params, day + 1);
    var realized := Compounded(prices, params, book.closed);
    if book.open.Some? then
      QuotientPositive(prices[day].close, EntryCost(prices, params, book.open.value));
      realized * (prices[day].close / EntryCost(prices, params, book.open.value))
    else realized
  }

  function EquityCurve(prices: seq<Bar>, entries: seq<bool>, exits: seq<bool>, params: ExitParams, days: nat)
    : (curve: seq<real>)
    requires Tradable(prices) && ValidCosts(params) && |entries| == |prices| && days <= |prices|
    ensures |curve| == days && ReturnAnalytics.AllPositive(curve)
  {
    seq(days, day requires 0 <= day < days => EquityOn(prices, entries, exits, params, day))
  }

  // ----- Streaming statistics

  function Positives(xs: seq<real>): seq<real> {
    if xs == [] then []
    else Positives(xs[..|xs| - 1]) + if xs[|xs| - 1] > 0.0 then [xs[|xs| - 1]] else []
  }

  function Negatives(xs: seq<real>): seq<real> {
    if xs == [] then []
    else Negatives(xs[..|xs| - 1]) + if xs[|xs| - 1] < 0.0 then [xs[|xs| - 1]] else []
  }

  function SumInts(xs: seq<int>): int {
    if xs == [] then 0 else SumInts(xs[..|xs| - 1]) + xs[|xs| - 1]
  }

  lemma {:induction false} AppendReturn(rets: seq<real>, ret: real)
    ensures Positives(rets + [ret]) == Positives(rets) + if ret > 0.0 then [ret] else []
    ensures Negatives(rets + [ret]) == Negatives(rets) + if ret < 0.0 then [ret] else []
  {
    assert (rets + [ret])[..|rets|] == rets;
  }

  lemma {:induction false} AppendSums(rets: seq<real>, ret: real)
    ensures Sum(Positives(rets + [ret])) == Sum(Positives(rets)) + if ret > 0.0 then ret else 0.0
    ensures Sum(Negatives(rets + [ret])) == Sum(Negatives(rets)) + if ret < 0.0 then ret else 0.0
  {
    AppendReturn(rets, ret);
    hide Positives, Negatives;
    SumAppend(Positives(rets), ret);
    SumAppend(Negatives(rets), ret);
    assert Positives(rets) + [] == Positives(rets) && Negatives(rets) + [] == Negatives(rets);
  }

  lemma {:induction false} AppendHold(holds: seq<int>, holdDays: int)
    ensures SumInts(holds + [holdDays]) == SumInts(holds) + holdDays
  {
    assert (holds + [holdDays])[..|holds|] == holds;
  }

  /** Counters filled one trade at a time, without keeping the trades. */
  class TradeStats {
    var trades: int
    var wins: int
    var losses: int
    var grossProfit: real
    var grossLoss: real
    var sumWin: real
    var sumLoss: real
    var holdDaysSum: int

    /** The counters are what a second pass over the trades' returns and holding days would compute. */
    ghost predicate Tallies(rets: seq<real>, holds: seq<int>)
      reads this
    {
      && trades == |rets| == |holds|
      && wins == |Positives(rets)| && losses == |Negatives(rets)|
      && grossProfit == sumWin == Sum(Positives(rets))
      && sumLoss == Sum(Negatives(rets)) && grossLoss == -sumLoss
      && holdDaysSum == SumInts(holds)
    }

    constructor ()
      ensures Tallies([], [])
    {
      trades, wins, losses, holdDaysSum := 0, 0, 0, 0;
      grossProfit, grossLoss, sumWin, sumLoss := 0.0, 0.0, 0.0, 0.0;
    }

    method Record(ret: real, holdDays: int, ghost rets: seq<real>, ghost holds: seq<int>)
      requires Tallies(rets, holds)
      modifies this
      ensures Tallies(rets + [ret], holds + [holdDays])
    {
      trades := trades + 1;
      holdDaysSum := holdDaysSum + holdDays;
      if ret > 0.0 {
        wins := wins + 1;
        grossProfit := grossProfit + ret;
        sumWin := sumWin + ret;
      } else if ret < 0.0 {
        losses := losses + 1;
        grossLoss := grossLoss + Abs(ret);
        sumLoss := sumLoss + ret;
      }
      AppendReturn(rets, ret);
      AppendSums(rets, ret);
      AppendHold(holds, holdDays);
    }
  }

  // ----- Reported results

  function ReturnsOf(prices: seq<Bar>, params: ExitParams, trades: seq<Trade>): (rets: seq<real>)
    requires Tradable(prices) && ValidCosts(params) && InRange(prices, trades)
    ensures |rets| == |trades|
  {
    seq(|trades|, k requires 0 <= k < |trades| => assert trades[k] in trades; Growth(prices, params, trades[k]) - 1.0)
  }

  function HoldsOf(trades: seq<Trade>): (holds: seq<int>)
    ensures |holds| == |trades|
  {
    seq(|trades|, k requires 0 <= k < |trades| => trades[k].exit - trades[k].entry)
  }

  function Reported(prices: seq<Bar>, params: ExitParams, t: Trade): BacktestTrade
    requires Tradable(prices) && ValidCosts(params) && t.entry < |prices| && t.exit < |prices|
  {
    BacktestTrade(prices[t.entry].date, prices[t.exit].date, Round(EntryCost(prices, params, t.entry), 6),
      Round(prices[t.exit].close, 6), Round(Growth(prices, params, t) - 1.0, 6), t.exit - t.entry, t.reason)
  }

  function ReportedTrades(prices: seq<Bar>, params: ExitParams, trades: seq<Trade>): (list: seq<BacktestTrade>)
    requires Tradable(prices) && ValidCosts(params) && InRange(prices, trades)
    ensures |list| == |trades|
  {
    seq(|trades|, k requires 0 <= k < |trades| => assert trades[k] in trades; Reported(prices, params, trades[k]))
  }

  function ReportedEquity(prices: seq<Bar>, curve: seq<real>): (points: seq<EquityPoint>)
    requires |curve| <= |prices|
    ensures |points| == |curve|
  {
    seq(|curve|, i requires 0 <= i < |curve| => EquityPoint(prices[i].date, Round(curve[i], 6)))
  }

  /** The ratios of a result, recomputed from the list of trade returns. */
  ghost predicate RatiosOf(result: BacktestResult, rets: seq<real>) {
    var wins, losses := Positives(rets), Negatives(rets);
    && result.winRate == (if rets == [] then 0.0 else Round(|wins| as real / |rets| as real, 4))
    && result.profitFactor == (if Sum(losses) == 0.0 then 0.0 else Round(Sum(wins) / -Sum(losses), 6))
    && result.avgWin == (if wins == [] then 0.0 else Round(Sum(wins) / |wins| as real, 6))
    && result.avgLoss == (if losses == [] then 0.0 else Round(Sum(losses) / |losses| as real, 6))
    && result.payoffRatio ==
      if result.avgLoss == 0.0 then 0.0 else Round(result.avgWin / Abs(result.avgLoss), 6)
  }

  method FillTradeStats(result: BacktestResult, stats: TradeStats, ghost rets: seq<real>, ghost holds: seq<int>)
    returns (filled: BacktestResult)
    requires stats.Tallies(rets, holds)
    requires result.winRate == result.profitFactor == result.avgWin == result.avgLoss == result.payoffRatio == 0.0
    ensures RatiosOf(filled, rets)
    ensures filled.trades == result.trades && filled.totalReturn == result.totalReturn
    ensures filled.maxDrawdown == result.maxDrawdown && filled.avgHoldDays == result.avgHoldDays
    ensures filled.equity == result.equity && filled.tradeList == result.tradeList
  {
    filled := result;
    if stats.trades == 0 {
      return;
    }
    filled := filled.(winRate := Round(stats.wins as real / stats.trades as real, 4));
    if stats.grossLoss != 0.0 {
      filled := filled.(profitFactor := Round(stats.grossProfit / stats.grossLoss, 6));
    }
    if stats.wins > 0 {
      filled := filled.(avgWin := Round(stats.sumWin / stats.wins as real, 6));
    }
    if stats.losses > 0 {
      filled := filled.(avgLoss := Round(stats.sumLoss / stats.losses as real, 6));
    }
    if stats.losses > 0 && filled.avgLoss != 0.0 {
      filled := filled.(payoffRatio := Round(filled.avgWin / Abs(filled.avgLoss), 6));
    }
  }

  // ----- The loop

  lemma {:induction false} AppendTrade(prices: seq<Bar>, params: ExitParams, trades: seq<Trade>, t: Trade)
    requires Tradable(prices) && ValidCosts(params) && InRange(prices, trades + [t])
    ensures InRange(prices, trades) && t.entry < |prices| && t.exit < |prices|
    ensures Compounded(prices, params, trades + [t]) == Compounded(prices, params, trades) * Growth(prices, params, t)
    ensures ReturnsOf(prices, params, trades + [t])
         == ReturnsOf(prices, params, trades) + [Growth(prices, params, t) - 1.0]
    ensures HoldsOf(trades + [t]) == HoldsOf(trades) + [t.exit - t.entry]
    ensures ReportedTrades(prices, params, trades + [t])
         == ReportedTrades(prices, params, trades) + [Reported(prices, params, t)]
  {
    forall u | u in trades ensures u in trades + [t] {}
    assert t in trades + [t];
    assert (trades + [t])[..|trades|] == trades;
  }

  lemma {:induction false} FreshAccount(account: Account, prices: seq<Bar>, params: ExitParams, collectSeries: bool)
    requires Tradable(prices) && ValidCosts(params)
    requires account.stats.Tallies([], [])
    requires account.realizedEquity == 1.0 && !account.inPosition && account.tradeList == []
    ensures account.Follows(prices, params, collectSeries, Book(None, []))
  {
    assert ReturnsOf(prices, params, []) == [] && HoldsOf([]) == [] && ReportedTrades(prices, params, []) == [];
  }

  lemma {:induction false} GrowthIs(prices: seq<Bar>, params: ExitParams, t: Trade, exitEffective: real,
                                    entryPrice: real)
    requires Tradable(prices) && ValidCosts(params) && t.entry < |prices| && t.exit < |prices|
    requires entryPrice == EntryCost(prices, params, t.entry)
    requires exitEffective == EffectiveExitPrice(prices[t.exit].close, params.commissionRate, params.slippageRate)
    ensures Growth(prices, params, t) == exitEffective / entryPrice
  {
    hide EffectiveEntryPrice, EffectiveExitPrice;
  }

  /** The variables of the day loop that the closing of a trade shares with the loop itself. */
  class Account {
    const stats: TradeStats
    var realizedEquity: real
    var inPosition: bool
    var entryIdx: nat
    var entryPrice: real
    var entryClose: real
    var entryEquity: real
    var tradeList: seq<BacktestTrade>

    constructor ()
      ensures fresh(stats) && stats.Tallies([], [])
      ensures realizedEquity == 1.0 && !inPosition && tradeList == []
    {
      stats := new TradeStats();
      realizedEquity, inPosition, entryIdx, tradeList := 1.0, false, 0, [];
      entryPrice, entryClose, entryEquity := 0.0, 0.0, 0.0;
    }

    /** The closed trades are accounted for: as equity, as counters and, if collected, as a list. */
    ghost predicate Settled(prices: seq<Bar>, params: ExitParams, collectSeries: bool, closed: seq<Trade>)
      requires Tradable(prices) && ValidCosts(params)
      reads this, stats
    {
      && InRange(prices, closed)
      && realizedEquity == Compounded(prices, params, closed)
      && stats.Tallies(ReturnsOf(prices, params, closed), HoldsOf(closed))
      && tradeList == if collectSeries then ReportedTrades(prices, params, closed) else []
    }

    ghost predicate Follows(prices: seq<Bar>, params: ExitParams, collectSeries: bool, book: Book)
      requires Tradable(prices) && ValidCosts(params)
      reads this, stats
    {
      && Settled(prices, params, collectSeries, book.closed)
      && inPosition == book.open.Some?
      && (inPosition ==> (
            && entryIdx == book.open.value < |prices| && entryClose == prices[entryIdx].close
            && entryPrice == EntryCost(prices, params, entryIdx) && entryEquity == realizedEquity))
    }

    method CloseTrade(prices: seq<Bar>, params: ExitParams, collectSeries: bool, i: nat, reason: Reason,
                      ghost book: Book)
      requires Tradable(prices) && ValidCosts(params)
      requires Follows(prices, params, collectSeries, book) && inPosition && i < |prices|
      modifies this, stats
      ensures Follows(prices, params, collectSeries,
                Book(None, book.closed + [Trade(book.open.value, i, reason)]))
    {
      hide Growth, Compounded, Round, Reported, ReturnsOf, ReportedTrades, EntryCost, HoldsOf, EffectiveExitPrice;
      hide TradeStats.Tallies;
      ghost var t := Trade(entryIdx, i, reason);
      AppendTrade(prices, params, book.closed, t);
      var exitClose := prices[i].close;
      var ret := EffectiveExitReturn(exitClose, entryPrice, params.commissionRate, params.slippageRate);
      var exitEffective := EffectiveExitPrice(exitClose, params.commissionRate, params.slippageRate);
      GrowthIs(prices, params, t, exitEffective, entryPrice);
      realizedEquity := entryEquity * (exitEffective / entryPrice);
      stats.Record(ret, i - entryIdx, ReturnsOf(prices, params, book.closed), HoldsOf(book.closed));
      if collectSeries {
        var trade := BacktestTrade(prices[entryIdx].date, prices[i].date, Round(entryPrice, 6),
          Round(exitClose, 6), Round(ret, 6), i - entryIdx, reason);
        ReportedIs(prices, params, t, trade, ret, entryPrice);
        tradeList := tradeList + [trade];
      }
      inPosition := false;
    }

    /** One day of the loop, before the equity is marked. */
    method TradeOn(prices: seq<Bar>, entries: seq<bool>, exits: seq<bool>, params: ExitParams, collectSeries: bool,
                 i: nat, ghost book: Book)
      requires Tradable(prices) && ValidCosts(params) && |entries| == |prices| && i < |prices|
      requires Follows(prices, params, collectSeries, book) && (book.open.Some? ==> book.open.value < i)
      modifies this, stats
      ensures Follows(prices, params, collectSeries,
                AfterEntryTest(entries, AfterExitTest(prices, exits, params, book, i), i))
    {
      hide Settled, AfterExitTest, AfterEntryTest;
      TestExit(prices, exits, params, collectSeries, i, book);
      TestEntry(prices, entries, params, collectSeries, i, AfterExitTest(prices, exits, params, book, i));
    }

    method TestExit(prices: seq<Bar>, exits: seq<bool>, params: ExitParams, collectSeries: bool, i: nat,
                    ghost book: Book)
      requires Tradable(prices) && ValidCosts(params) && i < |prices|
      requires Follows(prices, params, collectSeries, book) && (book.open.Some? ==> book.open.value < i)
      modifies this, stats
      ensures Follows(prices, params, collectSeries, AfterExitTest(prices, exits, params, book, i))
    {
      hide Settled, DecideExitReason, EntryCost;
      if inPosition && i > entryIdx {
        var rawRet := prices[i].close / entryClose - 1.0;
        var reason := DecideExitReason(rawRet, i - entryIdx, exits, i, params);
        assert reason == Decision(prices, exits, params, entryIdx, i);
        if reason.Some? {
          CloseTrade(prices, params, collectSeries, i, reason.value, book);
        }
      }
    }

    method TestEntry(prices: seq<Bar>, entries: seq<bool>, params: ExitParams, ghost collectSeries: bool, i: nat,
                     ghost book: Book)
      requires Tradable(prices) && ValidCosts(params) && |entries| == |prices| && i < |prices|
      requires Follows(prices, params, collectSeries, book)
      modifies this
      ensures Follows(prices, params, collectSeries, AfterEntryTest(entries, book, i))
    {
      hide Compounded, ReturnsOf, ReportedTrades, HoldsOf, EffectiveEntryPrice;
      if !inPosition && entries[i] {
        inPosition := true;
        entryIdx := i;
        entryClose := prices[i].close;
        entryPrice := EffectiveEntryPrice(entryClose, params.commissionRate, params.slippageRate);
        entryEquity := realizedEquity;
      }
    }

    method Mark(prices: seq<Bar>, params: ExitParams, i: nat, ghost entries: seq<bool>, ghost exits: seq<bool>,
                ghost collectSeries: bool)
      returns (eq: real)
      requires Tradable(prices) && ValidCosts(params) && |entries| == |prices| && i < |prices|
      requires Follows(prices, params, collectSeries, Run(prices, entries, exits, params, i + 1))
      ensures eq == EquityOn(prices, entries, exits, params, i)
    {
      hide Run, Compounded, EntryCost;
      if inPosition {
        eq := entryEquity * (prices[i].close / entryPrice);
      } else {
        eq := realizedEquity;
      }
    }
  }

  lemma {:induction false} ReportedIs(prices: seq<Bar>, params: ExitParams, t: Trade, trade: BacktestTrade, ret: real,
                                      entryPrice: real)
    requires Tradable(prices) && ValidCosts(params) && t.entry < |prices| && t.exit < |prices|
    requires entryPrice == EntryCost(prices, params, t.entry) && ret == Growth(prices, params, t) - 1.0
    requires trade == BacktestTrade(prices[t.entry].date, prices[t.exit].date, Round(entryPrice, 6),
      Round(prices[t.exit].close, 6), Round(ret, 6), t.exit - t.entry, t.reason)
    ensures trade == Reported(prices, params, t)
  {
    hide Round, Growth, EntryCost;
  }

  method TradeAllDays(prices: seq<Bar>, entries: seq<bool>, exits: seq<bool>, params: ExitParams, collectSeries: bool)
    returns (account: Account, equitySeries: seq<real>, equity: seq<EquityPoint>)
    requires Tradable(prices) && ValidCosts(params) && |entries| == |prices|
    ensures fresh(account) && fresh(account.stats)
    ensures account.Follows(prices, params, collectSeries, Run(prices, entries, exits, params, |prices|))
    ensures equitySeries == EquityCurve(prices, entries, exits, params, |prices|)
    ensures equity == if collectSeries then ReportedEquity(prices, equitySeries) else []
  {
    hide Growth, Compounded, Round, ReturnsOf, ReportedTrades, HoldsOf, EntryCost, EquityOn;
    hide AfterExitTest, AfterEntryTest, Account.Settled, Account.Follows, TradeStats.Tallies;
    account := new Account();
    FreshAccount(account, prices, params, collectSeries);
    equitySeries, equity := [], [];
    for i := 0 to |prices|
      invariant fresh(account) && fresh(account.stats)
      invariant account.Follows(prices, params, collectSeries, Run(prices, entries, exits, params, i))
      invariant equitySeries == EquityCurve(prices, entries, exits, params, i)
      invariant equity == if collectSeries then ReportedEquity(prices, equitySeries) else []
    {
      account.TradeOn(prices, entries, exits, params, collectSeries, i, Run(prices, entries, exits, params, i));
      var eq := account.Mark(prices, params, i, entries, exits, collectSeries);
      equitySeries := equitySeries + [eq];
      if collectSeries {
        equity := equity + [EquityPoint(prices[i].date, Round(eq, 6))];
      }
    }
  }

  /** Every figure of a result, in terms of the list of trades and the equity curve. */
  ghost predicate Reports(result: BacktestResult, prices: seq<Bar>, params: ExitParams, trades: seq<Trade>,
                          curve: seq<real>, collectSeries: bool)
    requires Tradable(prices) && ValidCosts(params) && InRange(prices, trades) && |curve| <= |prices|
  {
    && result.trades == |trades|
    && result.totalReturn == Round(Compounded(prices, params, trades) - 1.0, 6)
    && result.maxDrawdown == Round(ReturnAnalytics.WorstFall(curve, |curve|), 6)
    && result.avgHoldDays == (if trades == [] then 0.0 else SumInts(HoldsOf(trades)) as real / |trades| as real)
    && RatiosOf(result, ReturnsOf(prices, params, trades))
    && result.equity == (if collectSeries then ReportedEquity(prices, curve) else [])
    && result.tradeList == if collectSeries then ReportedTrades(prices, params, trades) else []
  }

  method Summarise(account: Account, prices: seq<Bar>, params: ExitParams, equitySeries: seq<real>,
                   equity: seq<EquityPoint>, ghost trades: seq<Trade>, ghost collectSeries: bool)
    returns (result: BacktestResult)
    requires Tradable(prices) && ValidCosts(params) && |equitySeries| <= |prices|
    requires account.Settled(prices, params, collectSeries, trades)
    requires equity == if collectSeries then ReportedEquity(prices, equitySeries) else []
    ensures Reports(result, prices, params, trades, equitySeries, collectSeries)
  {
    hide Compounded, Round, ReturnsOf, ReportedTrades, HoldsOf, RatiosOf;
    var maxDrawdown := ReturnAnalytics.MaxDrawdown(equitySeries);
    var stats := account.stats;
    result := EMPTY_RESULT.(trades := stats.trades, totalReturn := Round(account.realizedEquity - 1.0, 6),
      maxDrawdown := Round(maxDrawdown, 6), equity := equity, tradeList := account.tradeList);
    if stats.trades > 0 {
      result := result.(avgHoldDays := stats.holdDaysSum as real / stats.trades as real);
    }
    result := FillTradeStats(result, stats, ReturnsOf(prices, params, trades), HoldsOf(trades));
  }

  /** With `collectSeries` the equity curve and the trade list come out as well; the figures are the same. */
  method RunBacktest(prices: seq<Bar>, entries: seq<bool>, exits: seq<bool>, params: ExitParams, collectSeries: bool)
    returns (result: BacktestResult)
    requires Tradable(prices) && ValidCosts(params)
    ensures |prices| == 0 || |entries| != |prices| ==> result == EMPTY_RESULT
    ensures |prices| != 0 && |entries| == |prices| ==>
      Reports(result, prices, params, Ledger(prices, entries, exits, params),
        EquityCurve(prices, entries, exits, params, |prices|), collectSeries)
  {
    if |prices| == 0 || |entries| != |prices| {
      return EMPTY_RESULT;
    }
    hide EquityCurve, Run, Reports, TradeStats.Tallies, ReportedEquity, Compounded, ReturnsOf;
    hide ReportedTrades, EntryCost;
    var account, equitySeries, equity := TradeAllDays(prices, entries, exits, params, collectSeries);
    if account.inPosition {
      account.CloseTrade(prices, params, collectSeries, |prices| - 1, EndOfData,
        Run(prices, entries, exits, params, |prices|));
    }
    result := Summarise(account, prices, params, equitySeries, equity, Ledger(prices, entries, exits, params),
      collectSeries);
  }
}
