/** Properties of two backtests compared: other costs, and a shorter price history. */
module BacktestRuns {
  import opened Decimals
  import opened MarketData
  import opened Backtest
  import opened BacktestFigures
  import ReturnAnalytics

  // ----- Costs

  /** The same rules under other rates. */
  ghost predicate SameRules(p: ExitParams, q: ExitParams) {
    p.takeProfit == q.takeProfit && p.stopLoss == q.stopLoss && p.maxHoldDays == q.maxHoldDays
  }

  lemma {:induction false} CostsDoNotTrade(prices: seq<Bar>, entries: seq<bool>, exits: seq<bool>, p: ExitParams,
                                           q: ExitParams, days: nat)
    requires Tradable(prices) && |entries| == |prices| && days <= |prices| && SameRules(p, q)
    ensures Run(prices, entries, exits, p, days) == Run(prices, entries, exits, q, days)
  {
    if days > 0 {
      CostsDoNotTrade(prices, entries, exits, p, q, days - 1);
      var book := Run(prices, entries, exits, p, days - 1);
      if book.open.Some? {
        SameDecision(prices, exits, p, q, book.open.value, days - 1);
      }
    }
  }

  lemma {:induction false} SameDecision(prices: seq<Bar>, exits: seq<bool>, p: ExitParams, q: ExitParams, entry: nat,
                                        day: nat)
    requires Tradable(prices) && entry < |prices| && day < |prices| && SameRules(p, q)
    ensures Decision(prices, exits, p, entry, day) == Decision(prices, exits, q, entry, day)
  {
  }

  lemma {:induction false} EffectivePricesMonotone(close: real, p: ExitParams, q: ExitParams)
    requires close > 0.0 && ValidCosts(p) && ValidCosts(q)
    requires p.commissionRate <= q.commissionRate && p.slippageRate <= q.slippageRate
    ensures EffectiveEntryPrice(close, p.commissionRate, p.slippageRate)
         <= EffectiveEntryPrice(close, q.commissionRate, q.slippageRate)
    ensures EffectiveExitPrice(close, p.commissionRate, p.slippageRate)
         >= EffectiveExitPrice(close, q.commissionRate, q.slippageRate)
  {
    EffectiveFormulas(close, p.commissionRate, p.slippageRate);
    EffectiveFormulas(close, q.commissionRate, q.slippageRate);
    hide EffectiveEntryPrice, EffectiveExitPrice;
    ScaledTwice(close, 1.0 + p.slippageRate, 1.0 + p.commissionRate, 1.0 + q.slippageRate, 1.0 + q.commissionRate);
    ScaledTwice(close, 1.0 - q.slippageRate, 1.0 - q.commissionRate, 1.0 - p.slippageRate, 1.0 - p.commissionRate);
  }

  lemma {:induction false} ScaledTwice(x: real, a: real, b: real, a': real, b': real)
    requires x > 0.0 && 0.0 <= a <= a' && 0.0 <= b <= b'
    ensures x * a * b <= x * a' * b'
  {
    ProductMonotone(a, a', x);
    ProductMonotone(x * a, x * a', b);
    assert x * a' >= 0.0;
    ProductMonotone(b, b', x * a');
  }

  lemma {:induction false} QuotientShrinks(sell: real, buy: real, sell': real, buy': real)
    requires 0.0 < buy <= buy' && 0.0 < sell' <= sell
    ensures sell' / buy' <= sell / buy
  {
    QuotientMonotone(sell', sell, buy');
    var q := sell / buy;
    QuotientPositive(sell, buy);
    ProductMonotone(buy, buy', q);
    QuotientAtMost(sell, q, buy');
  }

  lemma {:induction false} GrowthShrinks(prices: seq<Bar>, p: ExitParams, q: ExitParams, t: Trade)
    requires Tradable(prices) && ValidCosts(p) && ValidCosts(q) && t.entry < |prices| && t.exit < |prices|
    requires p.commissionRate <= q.commissionRate && p.slippageRate <= q.slippageRate
    ensures Growth(prices, q, t) <= Growth(prices, p, t)
  {
    EffectivePricesMonotone(prices[t.entry].close, p, q);
    EffectivePricesMonotone(prices[t.exit].close, p, q);
    hide EffectiveEntryPrice, EffectiveExitPrice;
    QuotientShrinks(ExitProceeds(prices, p, t.exit), EntryCost(prices, p, t.entry),
      ExitProceeds(prices, q, t.exit), EntryCost(prices, q, t.entry));
  }

  lemma {:induction false} ProductShrinks(a: real, g: real, a': real, g': real)
    requires 0.0 <= a' <= a && 0.0 <= g' <= g
    ensures a' * g' <= a * g
  {
    ProductMonotone(a', a, g');
    ProductMonotone(g', g, a);
  }

  lemma {:induction false} CompoundedShrinks(prices: seq<Bar>, p: ExitParams, q: ExitParams, trades: seq<Trade>)
    requires Tradable(prices) && ValidCosts(p) && ValidCosts(q) && InRange(prices, trades)
    requires p.commissionRate <= q.commissionRate && p.slippageRate <= q.slippageRate
    ensures Compounded(prices, q, trades) <= Compounded(prices, p, trades)
    decreases |trades|
  {
    hide Growth;
    if trades != [] {
      var last := |trades| - 1;
      CompoundedShrinks(prices, p, q, trades[..last]);
      assert trades[last] in trades;
      GrowthShrinks(prices, p, q, trades[last]);
      ProductShrinks(Compounded(prices, p, trades[..last]), Growth(prices, p, trades[last]),
        Compounded(prices, q, trades[..last]), Growth(prices, q, trades[last]));
    }
  }

  /** Dearer trading changes no date and no reason, and never improves the reported total return. */
  lemma {:induction false} CostsNeverHelp(prices: seq<Bar>, entries: seq<bool>, exits: seq<bool>, p: ExitParams,
                                          q: ExitParams)
    requires Tradable(prices) && ValidCosts(p) && ValidCosts(q) && SameRules(p, q)
    requires p.commissionRate <= q.commissionRate && p.slippageRate <= q.slippageRate
    ensures Ledger(prices, entries, exits, p) == Ledger(prices, entries, exits, q)
    ensures var trades := Ledger(prices, entries, exits, p);
      Round(Compounded(prices, q, trades) - 1.0, 6) <= Round(Compounded(prices, p, trades) - 1.0, 6)
  {
    hide Compounded, Round;
    if |entries| == |prices| {
      CostsDoNotTrade(prices, entries, exits, p, q, |prices|);
    }
    var trades := Ledger(prices, entries, exits, p);
    CompoundedShrinks(prices, p, q, trades);
    RoundMonotone(Compounded(prices, q, trades) - 1.0, Compounded(prices, p, trades) - 1.0, 6);
  }

  // ----- Shorter histories

  /** The part of a signal series that belongs to the first k days. */
  function Cut(signals: seq<bool>, k: nat): seq<bool> {
    if k <= |signals| then signals[..k] else signals
  }

  lemma {:induction false} PrefixDecides(prices: seq<Bar>, exits: seq<bool>, params: ExitParams, k: nat, entry: nat,
                                         day: nat)
    requires Tradable(prices) && k <= |prices| && entry < k && day < k
    ensures Tradable(prices[..k])
    ensures Decision(prices[..k], Cut(exits, k), params, entry, day) == Decision(prices, exits, params, entry, day)
  {
    assert prices[..k][day] == prices[day] && prices[..k][entry] == prices[entry];
  }

  lemma {:induction false} PrefixRuns(prices: seq<Bar>, entries: seq<bool>, exits: seq<bool>, params: ExitParams,
                                      k: nat, days: nat)
    requires Tradable(prices) && |entries| == |prices| && days <= k <= |prices|
    ensures Tradable(prices[..k])
    ensures Run(prices[..k], entries[..k], Cut(exits, k), params, days) == Run(prices, entries, exits, params, days)
  {
    hide Decision, Cut;
    if days > 0 {
      PrefixRuns(prices, entries, exits, params, k, days - 1);
      var book := Run(prices, entries, exits, params, days - 1);
      if book.open.Some? {
        PrefixDecides(prices, exits, params, k, book.open.value, days - 1);
      }
    }
  }

  lemma {:induction false} PrefixMoney(prices: seq<Bar>, params: ExitParams, k: nat, trades: seq<Trade>)
    requires Tradable(prices) && ValidCosts(params) && k <= |prices| && InRange(prices[..k], trades)
    ensures Tradable(prices[..k]) && InRange(prices, trades)
    ensures Compounded(prices[..k], params, trades) == Compounded(prices, params, trades)
    decreases |trades|
  {
    assert Tradable(prices[..k]);
    if trades != [] {
      var last := |trades| - 1;
      assert trades[last] in trades;
      PrefixMoney(prices, params, k, trades[..last]);
      PrefixGrowth(prices, params, k, trades[last]);
    }
  }

  lemma {:induction false} PrefixGrowth(prices: seq<Bar>, params: ExitParams, k: nat, t: Trade)
    requires Tradable(prices) && ValidCosts(params) && k <= |prices| && t.entry < k && t.exit < k
    ensures Tradable(prices[..k]) && Growth(prices[..k], params, t) == Growth(prices, params, t)
  {
    hide EffectiveEntryPrice, EffectiveExitPrice;
    assert prices[..k][t.entry] == prices[t.entry] && prices[..k][t.exit] == prices[t.exit];
  }

  lemma {:induction false} PrefixEquity(prices: seq<Bar>, entries: seq<bool>, exits: seq<bool>, params: ExitParams,
                                        k: nat, day: nat)
    requires Tradable(prices) && ValidCosts(params) && |entries| == |prices| && day < k <= |prices|
    ensures Tradable(prices[..k])
    ensures EquityOn(prices[..k], entries[..k], Cut(exits, k), params, day)
         == EquityOn(prices, entries, exits, params, day)
  {
    hide Run, Cut, Compounded, EffectiveEntryPrice;
    PrefixRuns(prices, entries, exits, params, k, day + 1);
    var book := Run(prices, entries, exits, params, day + 1);
    PrefixMoney(prices, params, k, book.closed);
    assert prices[..k][day] == prices[day];
    if book.open.Some? {
      assert prices[..k][book.open.value] == prices[book.open.value];
    }
  }

  lemma {:induction false} ClosedGrow(prices: seq<Bar>, entries: seq<bool>, exits: seq<bool>, params: ExitParams,
                                      i: nat, j: nat)
    requires Tradable(prices) && |entries| == |prices| && i <= j <= |prices|
    ensures Run(prices, entries, exits, params, i).closed <= Run(prices, entries, exits, params, j).closed
    decreases j
  {
    hide Decision;
    if i < j {
      ClosedGrow(prices, entries, exits, params, i, j - 1);
    }
  }

  /** Trades closed after day i exit on day i or later. */
  lemma {:induction false} LaterExits(prices: seq<Bar>, entries: seq<bool>, exits: seq<bool>, params: ExitParams,
                                      i: nat, j: nat, q: nat)
    requires Tradable(prices) && |entries| == |prices| && i <= j <= |prices|
    requires |Run(prices, entries, exits, params, i).closed| <= q < |Run(prices, entries, exits, params, j).closed|
    ensures Run(prices, entries, exits, params, j).closed[q].exit >= i
    decreases j
  {
    hide Decision;
    if i < j && q < |Run(prices, entries, exits, params, j - 1).closed| {
      LaterExits(prices, entries, exits, params, i, j - 1, q);
    }
  }

  /** The trades of a run that stops at day k against those of the full run: the same trades closed before day k, all
      of them and in the same places, and beyond them at most one that the end of the shorter history forces. */
  ghost predicate SameTradesBefore(short: seq<Trade>, long: seq<Trade>, k: nat) {
    && (forall q | 0 <= q < |long| && long[q].exit < k :: q < |short| && short[q] == long[q])
    && (|| short <= long
        || (|short| > 0 && short[|short| - 1].reason == EndOfData && short[|short| - 1].exit == k - 1
            && short[..|short| - 1] <= long))
  }

  lemma {:induction false} LedgerBefore(prices: seq<Bar>, entries: seq<bool>, exits: seq<bool>, params: ExitParams,
                                        k: nat, q: nat)
    requires Tradable(prices) && |entries| == |prices| && k < |prices|
    requires q < |Ledger(prices, entries, exits, params)| && Ledger(prices, entries, exits, params)[q].exit < k
    ensures var closed := Run(prices, entries, exits, params, k).closed;
      q < |closed| && closed[q] == Ledger(prices, entries, exits, params)[q]
  {
    hide Run;
    var n := |prices|;
    var closed := Run(prices, entries, exits, params, k).closed;
    ClosedGrow(prices, entries, exits, params, k, n);
    if |closed| <= q < |Run(prices, entries, exits, params, n).closed| {
      LaterExits(prices, entries, exits, params, k, n, q);
    }
  }

  /** The list is that of the trades closed so far, or has one more, forced on the last of n days. */
  ghost predicate Ends(trades: seq<Trade>, closed: seq<Trade>, n: nat) {
    || trades == closed
    || (|trades| == |closed| + 1 && trades[..|closed|] == closed
        && trades[|closed|].reason == EndOfData && trades[|closed|].exit == n - 1)
  }

  lemma {:induction false} LedgerEnds(prices: seq<Bar>, entries: seq<bool>, exits: seq<bool>, params: ExitParams)
    requires Tradable(prices) && |entries| == |prices|
    ensures Ends(Ledger(prices, entries, exits, params), Run(prices, entries, exits, params, |prices|).closed, |prices|)
  {
    hide Decision;
  }

  lemma {:induction false} EndsAgree(short: seq<Trade>, long: seq<Trade>, closed: seq<Trade>, all: seq<Trade>, k: nat,
                                     n: nat)
    requires Ends(short, closed, k) && Ends(long, all, n) && closed <= all
    requires forall q | 0 <= q < |long| && long[q].exit < k :: q < |closed|
    ensures SameTradesBefore(short, long, k)
  {
  }

  lemma {:induction false} PrefixTrades(prices: seq<Bar>, entries: seq<bool>, exits: seq<bool>, params: ExitParams,
                                        k: nat)
    requires Tradable(prices) && |entries| == |prices| && k <= |prices|
    ensures Tradable(prices[..k])
    ensures SameTradesBefore(Ledger(prices[..k], entries[..k], Cut(exits, k), params),
                             Ledger(prices, entries, exits, params), k)
  {
    assert Tradable(prices[..k]);
    hide Run, Cut, Ledger, Ends, SameTradesBefore;
    var n := |prices|;
    var short := Ledger(prices[..k], entries[..k], Cut(exits, k), params);
    var long := Ledger(prices, entries, exits, params);
    PrefixRuns(prices, entries, exits, params, k, k);
    LedgerEnds(prices, entries, exits, params);
    LedgerEnds(prices[..k], entries[..k], Cut(exits, k), params);
    var closed, all := Run(prices, entries, exits, params, k).closed, Run(prices, entries, exits, params, n).closed;
    if k < n {
      ClosedGrow(prices, entries, exits, params, k, n);
      forall q | 0 <= q < |long| && long[q].exit < k ensures q < |closed| {
        LedgerBefore(prices, entries, exits, params, k, q);
      }
      EndsAgree(short, long, closed, all, k, n);
    } else {
      WholeLedger(prices, entries, exits, params, Cut(exits, k));
      assert prices[..k] == prices && entries[..k] == entries;
      Itself(long, k);
    }
  }

  lemma {:induction false} Itself(trades: seq<Trade>, k: nat)
    ensures SameTradesBefore(trades, trades, k)
  {
  }

  lemma {:induction false} WholeLedger(prices: seq<Bar>, entries: seq<bool>, exits: seq<bool>, params: ExitParams,
                                       cut: seq<bool>)
    requires Tradable(prices) && |entries| == |prices| && cut == Cut(exits, |prices|)
    ensures Ledger(prices, entries, cut, params) == Ledger(prices, entries, exits, params)
  {
    hide Run, Cut;
    assert prices[..|prices|] == prices && entries[..|prices|] == entries;
    PrefixRuns(prices, entries, exits, params, |prices|, |prices|);
  }

  /** A backtest of the first k days sees the same equity on each of them and closes the same trades; the only trade
      it may have beyond those of the full run is the one it is forced to end. */
  lemma {:induction false} PrefixBacktest(prices: seq<Bar>, entries: seq<bool>, exits: seq<bool>, params: ExitParams,
                                          k: nat)
    requires Tradable(prices) && ValidCosts(params) && |entries| == |prices| && k <= |prices|
    ensures Tradable(prices[..k])
    ensures EquityCurve(prices[..k], entries[..k], Cut(exits, k), params, k)
         == EquityCurve(prices, entries, exits, params, |prices|)[..k]
    ensures SameTradesBefore(Ledger(prices[..k], entries[..k], Cut(exits, k), params),
                             Ledger(prices, entries, exits, params), k)
  {
    PrefixTrades(prices, entries, exits, params, k);
    forall day | 0 <= day < k
      ensures EquityOn(prices[..k], entries[..k], Cut(exits, k), params, day)
           == EquityOn(prices, entries, exits, params, day)
    {
      PrefixEquity(prices, entries, exits, params, k, day);
    }
  }
}
