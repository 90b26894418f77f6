/** What the list of trades of a backtest is, said without the day loop: a declarative description that has
    exactly one solution, and the loop computes it. */
module TradeLedger {
  import opened Decimals
  import opened MarketData
  import opened Backtest
  import opened BacktestFigures

  datatype Market = Market(prices: seq<Bar>, entries: seq<bool>, exits: seq<bool>, params: ExitParams) {

    ghost predicate Valid() {
      Tradable(prices) && |entries| == |prices|
    }

    /** Has the close reached the profit target of a position? */
    predicate Reached(entry: nat, day: nat)
      requires Valid() && entry < |prices| && day < |prices|
    {
      prices[day].close >= (1.0 + params.takeProfit) * prices[entry].close
    }

    /** Has it fallen to the stop? */
    predicate Stopped(entry: nat, day: nat)
      requires Valid() && entry < |prices| && day < |prices|
    {
      prices[day].close <= (1.0 - params.stopLoss) * prices[entry].close
    }

    predicate Overdue(entry: nat, day: nat) {
      day - entry >= params.maxHoldDays
    }

    predicate Signalled(day: nat) {
      day < |exits| && exits[day]
    }

    /** No rule calls for an exit. */
    predicate Quiet(entry: nat, day: nat)
      requires Valid() && entry < |prices| && day < |prices|
    {
      !Reached(entry, day) && !Stopped(entry, day) && !Overdue(entry, day) && !Signalled(day)
    }

    /** The rule that calls for the exit, each giving way to those before it. */
    predicate Calls(reason: Reason, entry: nat, day: nat)
      requires Valid() && entry < |prices| && day < |prices|
    {
      match reason
      case TakeProfit => Reached(entry, day)
      case StopLoss => !Reached(entry, day) && Stopped(entry, day)
      case MaxHold => !Reached(entry, day) && !Stopped(entry, day) && Overdue(entry, day)
      case SignalExit => !Reached(entry, day) && !Stopped(entry, day) && !Overdue(entry, day) && Signalled(day)
      case EndOfData => false
    }

    ghost predicate FirstSignal(from: nat, day: nat) {
      from <= day < |entries| && entries[day] && forall j | from <= j < day :: !entries[j]
    }

    ghost predicate NoSignal(from: nat, until: nat) {
      until <= |entries| && forall j | from <= j < until :: !entries[j]
    }

    /** Nothing calls for an exit strictly between the entry day and `until`. */
    ghost predicate HeldUntil(entry: nat, until: nat)
      requires Valid() && entry < |prices| && until <= |prices|
    {
      forall day | entry < day < until :: Quiet(entry, day)
    }

    /** The trade ends on the first day after entry on which an exit rule fires, with that rule's reason. */
    ghost predicate ClosedByRule(t: Trade)
      requires Valid()
    {
      && t.entry < t.exit < |prices|
      && HeldUntil(t.entry, t.exit)
      && Calls(t.reason, t.entry, t.exit)
    }

    /** No rule fires up to the last day, so the trade ends there. */
    ghost predicate ClosedByEnd(t: Trade)
      requires Valid()
    {
      && t.entry <= t.exit == |prices| - 1 && t.reason == EndOfData
      && HeldUntil(t.entry, |prices|)
    }

    /** Trade k is entered on the first signal since the position was last flat, and ended by rule. */
    ghost predicate Fits(trades: seq<Trade>, k: nat)
      requires Valid() && k < |trades|
    {
      FirstSignal(FlatFrom(trades, k), trades[k].entry) && ClosedByRule(trades[k])
    }

    ghost predicate FitsAtEnd(trades: seq<Trade>, k: nat)
      requires Valid() && k < |trades|
    {
      FirstSignal(FlatFrom(trades, k), trades[k].entry) && ClosedByEnd(trades[k])
    }

    /** The description: every trade fits, only the last may be ended by the end of the data, and if it is not,
        no signal is left over. */
    ghost predicate IsLedger(trades: seq<Trade>)
      requires Valid()
    {
      var n := |trades|;
      && (forall k | 0 <= k < n - 1 :: Fits(trades, k))
      && (n == 0 || Fits(trades, n - 1) || FitsAtEnd(trades, n - 1))
      && (n == 0 || Fits(trades, n - 1) ==> NoSignal(FlatFrom(trades, n), |entries|))
    }
  }

  /** The decision of the loop, which is on the return since entry, is that of the rules, which are on the closes. */
  lemma {:induction false} DecisionFollowsRules(m: Market, entry: nat, day: nat)
    requires m.Valid() && entry < |m.prices| && day < |m.prices|
    ensures var reason := Decision(m.prices, m.exits, m.params, entry, day);
      && (reason.None? <==> m.Quiet(entry, day))
      && (reason.Some? ==> m.Calls(reason.value, entry, day))
  {
    ReturnAgainst(m.prices[day].close, m.prices[entry].close, m.params.takeProfit);
    ReturnAgainst(m.prices[day].close, m.prices[entry].close, -m.params.stopLoss);
  }

  lemma {:induction false} ReturnAgainst(price: real, base: real, limit: real)
    requires base > 0.0
    ensures price / base - 1.0 >= limit <==> price >= (1.0 + limit) * base
    ensures price / base - 1.0 <= limit <==> price <= (1.0 + limit) * base
  {
    var q := price / base;
    assert q * base == price;
    SameOrder(q, 1.0 + limit, base);
    SameOrder(1.0 + limit, q, base);
  }

  lemma {:induction false} SameOrder(a: real, b: real, c: real)
    requires c > 0.0
    ensures a <= b <==> a * c <= b * c
  {
    if a <= b {
      ProductMonotone(a, b, c);
    } else {
      assert (a - b) * c > 0.0;
    }
  }

  /** The day from which the next entry is looked for: the exit day of the previous trade, or the first day. */
  function FlatFrom(trades: seq<Trade>, k: nat): nat
    requires k <= |trades|
  {
    if k == 0 then 0 else trades[k - 1].exit
  }

  lemma {:induction false} RuleOrEnd(m: Market, t: Trade)
    requires m.Valid()
    ensures !(m.ClosedByRule(t) && t.reason == EndOfData)
    ensures !(m.ClosedByRule(t) && m.ClosedByEnd(t))
  {
  }

  lemma {:induction false} FitsPrefix(m: Market, a: seq<Trade>, b: seq<Trade>, k: nat)
    requires m.Valid() && k < |a| && k < |b| && a[..k + 1] == b[..k + 1]
    ensures FlatFrom(a, k) == FlatFrom(b, k) && a[k] == b[k]
    ensures m.Fits(a, k) == m.Fits(b, k) && m.FitsAtEnd(a, k) == m.FitsAtEnd(b, k)
  {
    assert a[..k + 1][k] == b[..k + 1][k];
    if k > 0 {
      assert a[..k + 1][k - 1] == b[..k + 1][k - 1];
    }
  }

  // ----- The loop computes a solution

  /** What holds of the book after every day. */
  ghost predicate Sound(m: Market, days: nat, book: Book)
    requires m.Valid() && days <= |m.prices|
  {
    var n := |book.closed|;
    && (forall k | 0 <= k < n :: m.Fits(book.closed, k))
    && FlatFrom(book.closed, n) <= days
    && if book.open.Some? then
         && book.open.value < days
         && m.FirstSignal(FlatFrom(book.closed, n), book.open.value)
         && m.HeldUntil(book.open.value, days)
       else m.NoSignal(FlatFrom(book.closed, n), days)
  }

  lemma {:induction false} ExitTestSound(m: Market, day: nat, book: Book)
    requires m.Valid() && day < |m.prices| && Sound(m, day, book)
    ensures var exited := AfterExitTest(m.prices, m.exits, m.params, book, day);
      && (forall k | 0 <= k < |exited.closed| :: m.Fits(exited.closed, k))
      && FlatFrom(exited.closed, |exited.closed|) <= day
      && if exited.open.Some? then
           && exited.open.value < day
           && m.FirstSignal(FlatFrom(exited.closed, |exited.closed|), exited.open.value)
           && m.HeldUntil(exited.open.value, day + 1)
         else m.NoSignal(FlatFrom(exited.closed, |exited.closed|), day)
  {
    hide Decision, Market.Quiet, Market.Calls;
    if book.open.Some? {
      var entry := book.open.value;
      DecisionFollowsRules(m, entry, day);
      var reason := Decision(m.prices, m.exits, m.params, entry, day);
      if reason.Some? {
        ClosingFits(m, book.closed, Trade(entry, day, reason.value));
      }
    }
  }

  lemma {:induction false} ClosingFits(m: Market, closed: seq<Trade>, t: Trade)
    requires m.Valid() && (forall k | 0 <= k < |closed| :: m.Fits(closed, k))
    requires m.FirstSignal(FlatFrom(closed, |closed|), t.entry) && m.ClosedByRule(t)
    ensures forall k | 0 <= k < |closed| + 1 :: m.Fits(closed + [t], k)
  {
    var longer := closed + [t];
    forall k | 0 <= k < |longer| ensures m.Fits(longer, k) {
      hide Decision, Market.FirstSignal, Market.ClosedByRule;
      if k < |closed| {
        assert m.Fits(closed, k);
        assert longer[..k + 1] == closed[..k + 1];
        FitsPrefix(m, longer, closed, k);
      }
    }
  }

  lemma {:induction false} RunSound(m: Market, days: nat)
    requires m.Valid() && days <= |m.prices|
    ensures Sound(m, days, Run(m.prices, m.entries, m.exits, m.params, days))
  {
    hide Decision, AfterExitTest, Market.Fits;
    if days > 0 {
      RunSound(m, days - 1);
      ExitTestSound(m, days - 1, Run(m.prices, m.entries, m.exits, m.params, days - 1));
    }
  }

  function LedgerOf(m: Market): seq<Trade>
    requires m.Valid()
  {
    Ledger(m.prices, m.entries, m.exits, m.params)
  }

  lemma {:induction false} LedgerIsLedger(m: Market)
    requires m.Valid()
    ensures m.IsLedger(LedgerOf(m))
  {
    hide Decision, Run, Market.Fits, Market.FirstSignal;
    var n := |m.prices|;
    if n > 0 {
      RunSound(m, n);
      var book := Run(m.prices, m.entries, m.exits, m.params, n);
      if book.open.Some? {
        EndedFits(m, book.closed, Trade(book.open.value, n - 1, EndOfData));
      }
    }
  }

  lemma {:induction false} EndedFits(m: Market, closed: seq<Trade>, t: Trade)
    requires m.Valid() && (forall k | 0 <= k < |closed| :: m.Fits(closed, k))
    requires m.FirstSignal(FlatFrom(closed, |closed|), t.entry) && m.ClosedByEnd(t)
    ensures m.IsLedger(closed + [t])
  {
    hide Decision, Market.FirstSignal;
    var longer := closed + [t];
    forall k | 0 <= k < |closed| ensures m.Fits(longer, k) {
      hide Market.ClosedByRule;
      assert m.Fits(closed, k);
      assert longer[..k + 1] == closed[..k + 1];
      FitsPrefix(m, longer, closed, k);
    }
    RuleOrEnd(m, t);
  }

  // ----- The solution is unique

  /** At most one rule calls for an exit on a day, and none on a quiet one. */
  lemma {:induction false} OneCall(m: Market, entry: nat, day: nat, a: Reason, b: Reason)
    requires m.Valid() && entry < |m.prices| && day < |m.prices| && m.Calls(a, entry, day)
    ensures !m.Quiet(entry, day) && (m.Calls(b, entry, day) ==> a == b)
  {
  }

  lemma {:induction false} NotHeldPast(m: Market, t: Trade, until: nat)
    requires m.Valid() && m.ClosedByRule(t) && until <= |m.prices| && m.HeldUntil(t.entry, until)
    ensures until <= t.exit
  {
    OneCall(m, t.entry, t.exit, t.reason, t.reason);
  }

  lemma {:induction false} SameTrade(m: Market, t: Trade, u: Trade)
    requires m.Valid() && t.entry == u.entry
    requires m.ClosedByRule(t) || m.ClosedByEnd(t)
    requires m.ClosedByRule(u) || m.ClosedByEnd(u)
    ensures t == u
  {
    hide Market.Calls, Market.HeldUntil;
    if m.ClosedByRule(t) {
      NotHeldPast(m, t, if m.ClosedByRule(u) then u.exit else |m.prices|);
      OneCall(m, t.entry, t.exit, t.reason, u.reason);
    }
    if m.ClosedByRule(u) {
      NotHeldPast(m, u, if m.ClosedByRule(t) then t.exit else |m.prices|);
    }
  }

  lemma {:induction false} LedgersAgree(m: Market, a: seq<Trade>, b: seq<Trade>, k: nat)
    requires m.Valid() && m.IsLedger(a) && m.IsLedger(b) && k <= |a|
    ensures k <= |b| && a[..k] == b[..k]
  {
    if k > 0 {
      hide Decision;
      var i := k - 1;
      LedgersAgree(m, a, b, i);
      NoEarlyStop(m, a, b, i);
      assert FlatFrom(a, i) == FlatFrom(b, i) by { SameFlat(a, b, i); }
      Entered(m, a, i);
      Entered(m, b, i);
      SameTrade(m, a[i], b[i]);
      assert a[..k] == a[..i] + [a[i]] && b[..k] == b[..i] + [b[i]];
    }
  }

  lemma {:induction false} SameFlat(a: seq<Trade>, b: seq<Trade>, k: nat)
    requires k <= |a| && k <= |b| && a[..k] == b[..k]
    ensures FlatFrom(a, k) == FlatFrom(b, k)
  {
    if k > 0 {
      assert a[..k][k - 1] == b[..k][k - 1];
    }
  }

  lemma {:induction false} Entered(m: Market, trades: seq<Trade>, k: nat)
    requires m.Valid() && m.IsLedger(trades) && k < |trades|
    ensures m.FirstSignal(FlatFrom(trades, k), trades[k].entry)
    ensures m.ClosedByRule(trades[k]) || (k == |trades| - 1 && m.ClosedByEnd(trades[k]))
  {
    hide Market.FirstSignal, Market.ClosedByRule, Market.ClosedByEnd;
    assert k < |trades| - 1 ==> m.Fits(trades, k);
  }

  /** A ledger cannot stop while another one goes on. */
  lemma {:induction false} NoEarlyStop(m: Market, a: seq<Trade>, b: seq<Trade>, i: nat)
    requires m.Valid() && m.IsLedger(a) && m.IsLedger(b)
    requires i < |a| && i <= |b| && a[..i] == b[..i]
    ensures i < |b|
  {
    hide Decision;
    if |b| == i {
      SameFlat(a, b, i);
      Entered(m, a, i);
      if i > 0 {
        assert a[..i][i - 1] == b[..i][i - 1];
        Entered(m, a, i - 1);
        Entered(m, b, i - 1);
        RuleOrEnd(m, b[i - 1]);
      }
    }
  }

  /** The description has one solution: any list of trades that fits it is the backtest's own. */
  lemma {:induction false} LedgerUnique(m: Market, trades: seq<Trade>)
    requires m.Valid()
    ensures m.IsLedger(trades) <==> trades == LedgerOf(m)
  {
    LedgerIsLedger(m);
    hide LedgerOf, Market.IsLedger;
    if m.IsLedger(trades) {
      var ledger := LedgerOf(m);
      LedgersAgree(m, trades, ledger, |trades|);
      LedgersAgree(m, ledger, trades, |ledger|);
      assert trades[..|trades|] == trades && ledger[..|ledger|] == ledger;
    }
  }

  /** Every trade in terms of closes alone: what the price had done when it ended, and had not done before. */
  lemma {:induction false} TradesOverCloses(m: Market, k: nat)
    requires m.Valid() && k < |LedgerOf(m)|
    ensures var t, p := LedgerOf(m)[k], m.params;
      && 0 <= t.entry <= t.exit < |m.prices| && m.entries[t.entry]
      && var base, last := m.prices[t.entry].close, m.prices[t.exit].close;
         && (t.reason == TakeProfit ==> last >= (1.0 + p.takeProfit) * base)
         && (t.reason == StopLoss ==> last <= (1.0 - p.stopLoss) * base && last < (1.0 + p.takeProfit) * base)
         && (t.reason == MaxHold || t.reason == SignalExit ==>
               (1.0 - p.stopLoss) * base < last < (1.0 + p.takeProfit) * base)
         && (forall day | t.entry < day < t.exit ::
               (1.0 - p.stopLoss) * base < m.prices[day].close < (1.0 + p.takeProfit) * base)
  {
    LedgerIsLedger(m);
    hide LedgerOf, Market.IsLedger;
    Entered(m, LedgerOf(m), k);
    var t, p := LedgerOf(m)[k], m.params;
    var base := m.prices[t.entry].close;
    forall day | t.entry < day < t.exit
      ensures (1.0 - p.stopLoss) * base < m.prices[day].close < (1.0 + p.takeProfit) * base
    {
      assert m.Quiet(t.entry, day);
    }
  }

  /** Exit precedence: profit target, stop, holding limit, strategy signal. */
  lemma {:induction false} ExitPrecedence(ret: real, holdDays: int, exits: seq<bool>, day: nat, params: ExitParams)
    ensures var reason := DecideExitReason(ret, holdDays, exits, day, params);
      && (reason == Some(TakeProfit) <==> ret >= params.takeProfit)
      && (reason == Some(StopLoss) <==> ret < params.takeProfit && ret <= -params.stopLoss)
      && (reason == Some(MaxHold) <==>
            -params.stopLoss < ret < params.takeProfit && holdDays >= params.maxHoldDays)
      && (reason == Some(SignalExit) <==>
            && -params.stopLoss < ret < params.takeProfit && holdDays < params.maxHoldDays
            && day < |exits| && exits[day])
      && reason != Some(EndOfData)
  {
  }

  /** The holding limit counts from the day after entry, so it is never below one day. */
  function HoldLimit(params: ExitParams): nat {
    if params.maxHoldDays < 1 then 1 else params.maxHoldDays
  }

  lemma {:induction false} LimitReached(m: Market, t: Trade)
    requires m.Valid() && (m.ClosedByRule(t) || m.ClosedByEnd(t))
    ensures 0 <= t.exit - t.entry <= HoldLimit(m.params)
  {
    if t.exit - t.entry > HoldLimit(m.params) {
      LimitFires(m, t.entry, t.entry + HoldLimit(m.params));
    }
  }

  lemma {:induction false} LimitFires(m: Market, entry: nat, day: nat)
    requires m.Valid() && entry < |m.prices| && day < |m.prices| && day - entry >= m.params.maxHoldDays
    ensures !m.Quiet(entry, day)
  {
  }

  lemma {:induction false} InOrder(m: Market, trades: seq<Trade>, j: nat, k: nat)
    requires m.Valid() && m.IsLedger(trades) && j < k < |trades|
    ensures trades[j].entry < trades[j].exit <= trades[k].entry
    decreases k
  {
    hide Market.IsLedger;
    Entered(m, trades, j);
    Entered(m, trades, k);
    if j < k - 1 {
      InOrder(m, trades, j, k - 1);
      Entered(m, trades, k - 1);
    }
  }

  /** No position outlives the holding limit, trades follow one another without overlap, and only the last trade
      can be ended by the end of the data, on the last day. */
  lemma {:induction false} HoldAndOrder(m: Market)
    requires m.Valid()
    ensures var trades := LedgerOf(m);
      && (forall k | 0 <= k < |trades| :: 0 <= trades[k].exit - trades[k].entry <= HoldLimit(m.params))
      && (forall j, k | 0 <= j < k < |trades| :: trades[j].entry < trades[j].exit <= trades[k].entry)
      && (forall k | 0 <= k < |trades| && trades[k].reason == EndOfData ::
            k == |trades| - 1 && trades[k].exit == |m.prices| - 1)
  {
    var trades := LedgerOf(m);
    LedgerIsLedger(m);
    hide LedgerOf, Market.IsLedger, Market.FirstSignal, Market.ClosedByRule;
    forall k | 0 <= k < |trades|
      ensures 0 <= trades[k].exit - trades[k].entry <= HoldLimit(m.params)
      ensures trades[k].reason == EndOfData ==> k == |trades| - 1 && trades[k].exit == |m.prices| - 1
    {
      Entered(m, trades, k);
      LimitReached(m, trades[k]);
      RuleOrEnd(m, trades[k]);
    }
    forall j, k | 0 <= j < k < |trades|
      ensures trades[j].entry < trades[j].exit <= trades[k].entry
    {
      InOrder(m, trades, j, k);
    }
  }
}
