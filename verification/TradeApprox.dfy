/** Executions grouped into approximate trades, one per stock, day and direction; and how concentrated the losses
    are. */
module TradeApprox {
  import opened DaytradeImport
  import opened Folds

  datatype GroupKey = GroupKey(ticker: string, executedOn: int, direction: string)

  datatype Trade = Trade(ticker: string, brandName: string, executedOn: int, direction: string, profitLoss: int,
                         tradeAmount: int, winCount: nat, lossCount: nat)

  /** The old file format names the direction in the trade kind, the new one leaves that empty. */
  function NormalizeDirection(tradeKind: string, marginKind: string): string {
    if tradeKind != "" then tradeKind else marginKind
  }

  function KeyOf(row: Row): GroupKey {
    GroupKey(row.key.ticker, row.key.executedOn, NormalizeDirection(row.key.tradeKind, row.key.marginKind))
  }

  datatype Totals = Totals(profitLoss: int, tradeAmount: int, winCount: nat, lossCount: nat) {
    function Add(row: Row): Totals {
      var pl := row.key.profitLoss;
      Totals(profitLoss + pl, tradeAmount + row.key.tradeAmount, winCount + if pl > 0 then 1 else 0,
        lossCount + if pl < 0 then 1 else 0)
    }

    function Plus(t: Totals): Totals {
      Totals(profitLoss + t.profitLoss, tradeAmount + t.tradeAmount, winCount + t.winCount, lossCount + t.lossCount)
    }
  }

  const NOTHING := Totals(0, 0, 0, 0)

  /** Totals of all rows, and of the rows of one group. */
  function AllTotals(rows: seq<Row>): Totals {
    if rows == [] then NOTHING else AllTotals(rows[..|rows| - 1]).Add(rows[|rows| - 1])
  }

  function GroupTotals(rows: seq<Row>, k: GroupKey): Totals {
    if rows == [] then NOTHING
    else
      var before, last := GroupTotals(rows[..|rows| - 1], k), rows[|rows| - 1];
      if KeyOf(last) == k then before.Add(last) else before
  }

  /** The groups, in the order of their first row. */
  function GroupKeys(rows: seq<Row>): (keys: seq<GroupKey>)
    ensures forall k :: k in keys <==> exists i | 0 <= i < |rows| :: KeyOf(rows[i]) == k
    ensures forall i, j | 0 <= i < j < |keys| :: keys[i] != keys[j]
  {
    if rows == [] then []
    else
      var n := |rows| - 1;
      var before := GroupKeys(rows[..n]);
      assert forall i | 0 <= i < n :: rows[..n][i] == rows[i];
      if KeyOf(rows[n]) in before then before else before + [KeyOf(rows[n])]
  }

  /** The brand name of a group is that of its first row. */
  function GroupName(rows: seq<Row>, k: GroupKey): string {
    if rows == [] then ""
    else if k in GroupKeys(rows[..|rows| - 1]) then GroupName(rows[..|rows| - 1], k)
    else rows[|rows| - 1].brandName
  }

  datatype Accum = Accum(brandName: string, totals: Totals)

  ghost predicate Accumulated(acc: map<GroupKey, Accum>, rows: seq<Row>) {
    && (forall k :: k in acc <==> k in GroupKeys(rows))
    && (forall k | k in acc :: acc[k] == Accum(GroupName(rows, k), GroupTotals(rows, k)))
  }

  function AsTrade(k: GroupKey, a: Accum): Trade {
    Trade(k.ticker, a.brandName, k.executedOn, k.direction, a.totals.profitLoss, a.totals.tradeAmount,
      a.totals.winCount, a.totals.lossCount)
  }

  ghost function TradeOf(rows: seq<Row>, k: GroupKey): Trade {
    AsTrade(k, Accum(GroupName(rows, k), GroupTotals(rows, k)))
  }

  method BuildTradeApprox(executions: seq<Row>) returns (trades: seq<Trade>)
    ensures |trades| == |GroupKeys(executions)|
    ensures forall i | 0 <= i < |trades| :: trades[i] == TradeOf(executions, GroupKeys(executions)[i])
  {
    hide *;
    var keys: seq<GroupKey> := [];
    var acc: map<GroupKey, Accum> := map[];
    NoGroups();
    ghost var done: seq<Row> := [];
    for i := 0 to |executions|
      invariant done == executions[..i] && keys == GroupKeys(done) && Accumulated(acc, done)
    {
      var ex := executions[i];
      var k := GroupKey(ex.key.ticker, ex.key.executedOn, NormalizeDirection(ex.key.tradeKind, ex.key.marginKind));
      GroupStep(acc, done, ex);
      ghost var before, a := acc, if k in acc then acc[k] else Accum(ex.brandName, NOTHING);
      if k !in acc {
        keys := keys + [k];
        acc := acc[k := Accum(ex.brandName, NOTHING)];
      }
      acc := acc[k := acc[k].(totals := acc[k].totals.Add(ex))];
      assert acc == before[k := a.(totals := a.totals.Add(ex))];
      done := done + [ex];
    }
    assert done == executions;
    trades := [];
    for i := 0 to |keys|
      invariant |trades| == i && forall j | 0 <= j < i :: trades[j] == TradeOf(executions, keys[j])
    {
      AccumIs(acc, executions, keys[i]);
      trades := trades + [AsTrade(keys[i], acc[keys[i]])];
    }
  }

  lemma {:induction false} NoGroups()
    ensures GroupKeys([]) == [] && Accumulated(map[], [])
  {
  }

  lemma {:induction false} AccumIs(acc: map<GroupKey, Accum>, rows: seq<Row>, k: GroupKey)
    requires Accumulated(acc, rows) && k in GroupKeys(rows)
    ensures k in acc
    ensures TradeOf(rows, k) == AsTrade(k, acc[k])
  {
    hide GroupKeys, GroupTotals, GroupName;
  }

  lemma {:induction false} GroupsSnoc(rows: seq<Row>, ex: Row)
    ensures KeyOf(ex)
        == GroupKey(ex.key.ticker, ex.key.executedOn, NormalizeDirection(ex.key.tradeKind, ex.key.marginKind))
    ensures GroupKeys(rows + [ex])
        == if KeyOf(ex) in GroupKeys(rows) then GroupKeys(rows) else GroupKeys(rows) + [KeyOf(ex)]
    ensures forall k | k != KeyOf(ex) :: GroupTotals(rows + [ex], k) == GroupTotals(rows, k)
    ensures GroupTotals(rows + [ex], KeyOf(ex)) == GroupTotals(rows, KeyOf(ex)).Add(ex)
    ensures forall k :: GroupName(rows + [ex], k) == if k in GroupKeys(rows) then GroupName(rows, k) else ex.brandName
  {
    assert (rows + [ex])[..|rows|] == rows;
  }

  lemma {:induction false} NoRowsNoTotals(rows: seq<Row>, k: GroupKey)
    requires k !in GroupKeys(rows)
    ensures GroupTotals(rows, k) == NOTHING
    decreases |rows|
  {
    if rows != [] {
      var init, last := rows[..|rows| - 1], rows[|rows| - 1];
      assert rows == init + [last];
      hide GroupKeys, GroupName;
      GroupsSnoc(init, last);
      NoRowsNoTotals(init, k);
    }
  }

  lemma {:induction false} GroupStep(acc: map<GroupKey, Accum>, rows: seq<Row>, ex: Row)
    requires Accumulated(acc, rows)
    ensures
      var k := GroupKey(ex.key.ticker, ex.key.executedOn, NormalizeDirection(ex.key.tradeKind, ex.key.marginKind));
      var a := if k in acc then acc[k] else Accum(ex.brandName, NOTHING);
      && GroupKeys(rows + [ex]) == (if k in acc then GroupKeys(rows) else GroupKeys(rows) + [k])
      && Accumulated(acc[k := a.(totals := a.totals.Add(ex))], rows + [ex])
  {
    hide GroupKeys, GroupTotals, GroupName;
    GroupsSnoc(rows, ex);
    if KeyOf(ex) !in GroupKeys(rows) {
      NoRowsNoTotals(rows, KeyOf(ex));
    }
  }

  // ----- Conservation

  /** Totals over the groups of a list. */
  function TotalsOver(rows: seq<Row>, keys: seq<GroupKey>): Totals {
    if keys == [] then NOTHING
    else TotalsOver(rows, keys[..|keys| - 1]).Plus(GroupTotals(rows, keys[|keys| - 1]))
  }

  lemma {:induction false} OneGroupGrows(rows: seq<Row>, ex: Row, keys: seq<GroupKey>)
    requires forall i, j | 0 <= i < j < |keys| :: keys[i] != keys[j]
    ensures TotalsOver(rows + [ex], keys)
         == if KeyOf(ex) in keys then TotalsOver(rows, keys).Add(ex) else TotalsOver(rows, keys)
    decreases |keys|
  {
    hide GroupKeys, GroupTotals, GroupName, KeyOf;
    if keys != [] {
      var n := |keys| - 1;
      assert keys == keys[..n] + [keys[n]];
      OneGroupGrows(rows, ex, keys[..n]);
      GroupsSnoc(rows, ex);
    }
  }

  /** Grouping neither creates nor loses profit, amount, wins or losses. */
  lemma {:induction false} GroupingConserves(rows: seq<Row>)
    ensures TotalsOver(rows, GroupKeys(rows)) == AllTotals(rows)
    decreases |rows|
  {
    hide *;
    if rows == [] {
      NothingGrouped();
    } else {
      var init, last := rows[..|rows| - 1], rows[|rows| - 1];
      assert rows == init + [last];
      GroupingConserves(init);
      AllTotalsSnoc(init, last);
      GroupsSnoc(init, last);
      OneGroupGrows(init, last, GroupKeys(init));
      if KeyOf(last) !in GroupKeys(init) {
        NoRowsNoTotals(init, KeyOf(last));
        NewGroup(init + [last], GroupKeys(init), KeyOf(last));
        FirstOfGroup(TotalsOver(init, GroupKeys(init)), last);
      }
    }
  }

  lemma {:induction false} NothingGrouped()
    ensures GroupKeys([]) == [] && TotalsOver([], []) == NOTHING && AllTotals([]) == NOTHING
  {
  }

  lemma {:induction false} AllTotalsSnoc(rows: seq<Row>, ex: Row)
    ensures AllTotals(rows + [ex]) == AllTotals(rows).Add(ex)
  {
    assert (rows + [ex])[..|rows|] == rows;
  }

  lemma {:induction false} NewGroup(rows: seq<Row>, keys: seq<GroupKey>, k: GroupKey)
    ensures TotalsOver(rows, keys + [k]) == TotalsOver(rows, keys).Plus(GroupTotals(rows, k))
  {
    assert (keys + [k])[..|keys|] == keys;
  }

  lemma {:induction false} FirstOfGroup(t: Totals, ex: Row)
    ensures t.Plus(NOTHING.Add(ex)) == t.Add(ex)
  {
  }

  function TradesTotals(trades: seq<Trade>): Totals {
    if trades == [] then NOTHING
    else
      var t := trades[|trades| - 1];
      TradesTotals(trades[..|trades| - 1]).Plus(Totals(t.profitLoss, t.tradeAmount, t.winCount, t.lossCount))
  }

  lemma {:induction false} TradesAreGroups(rows: seq<Row>, keys: seq<GroupKey>, trades: seq<Trade>)
    requires |trades| == |keys| && forall i | 0 <= i < |trades| :: trades[i] == TradeOf(rows, keys[i])
    ensures TradesTotals(trades) == TotalsOver(rows, keys)
    decreases |trades|
  {
    hide GroupTotals, GroupName;
    if trades != [] {
      TradesAreGroups(rows, keys[..|keys| - 1], trades[..|trades| - 1]);
    }
  }

  /** The trades made from the executions carry exactly their totals. */
  lemma {:induction false} TradesConserve(rows: seq<Row>, trades: seq<Trade>)
    requires |trades| == |GroupKeys(rows)|
    requires forall i | 0 <= i < |trades| :: trades[i] == TradeOf(rows, GroupKeys(rows)[i])
    ensures TradesTotals(trades) == AllTotals(rows)
  {
    TradesAreGroups(rows, GroupKeys(rows), trades);
    GroupingConserves(rows);
  }

  /** Is an execution part of a trade: the same stock and day, and the direction, which the trade kind gives unless it
      is empty and then the margin kind? */
  predicate PartOf(row: Row, ticker: string, executedOn: int, direction: string) {
    && row.key.ticker == ticker && row.key.executedOn == executedOn
    && (|| (row.key.tradeKind != "" && row.key.tradeKind == direction)
        || (row.key.tradeKind == "" && row.key.marginKind == direction))
  }

  /** Does the execution have that sign of profit and belong to the trade? */
  function WithProfit(t: Trade, gain: bool): Row -> bool {
    (row: Row) =>
      PartOf(row, t.ticker, t.executedOn, t.direction)
      && if gain then row.key.profitLoss > 0 else row.key.profitLoss < 0
  }

  function ProfitIn(t: Trade): Row -> int {
    (row: Row) => if PartOf(row, t.ticker, t.executedOn, t.direction) then row.key.profitLoss else 0
  }

  function AmountIn(t: Trade): Row -> int {
    (row: Row) => if PartOf(row, t.ticker, t.executedOn, t.direction) then row.key.tradeAmount else 0
  }

  lemma {:induction false} GroupAdds(rows: seq<Row>, t: Trade)
    ensures var g := GroupTotals(rows, GroupKey(t.ticker, t.executedOn, t.direction));
      && g.profitLoss == SumOf(rows, ProfitIn(t)) && g.tradeAmount == SumOf(rows, AmountIn(t))
      && g.winCount == HowMany(rows, WithProfit(t, true)) && g.lossCount == HowMany(rows, WithProfit(t, false))
    decreases |rows|
  {
    if rows != [] {
      var init, last := rows[..|rows| - 1], rows[|rows| - 1];
      assert rows == init + [last];
      GroupAdds(init, t);
      GroupsSnoc(init, last);
      hide GroupKeys, GroupTotals, GroupName;
      FoldsSnoc(init, last, WithProfit(t, true), ProfitIn(t));
      FoldsSnoc(init, last, WithProfit(t, false), AmountIn(t));
    }
  }

  /** The first execution of a group gives the name. */
  lemma {:induction false} FirstNames(rows: seq<Row>, k: GroupKey) returns (first: nat)
    requires k in GroupKeys(rows)
    ensures first < |rows| && KeyOf(rows[first]) == k && rows[first].brandName == GroupName(rows, k)
    ensures forall i | 0 <= i < first :: KeyOf(rows[i]) != k
    decreases |rows|
  {
    hide KeyOf;
    var n := |rows| - 1;
    if k in GroupKeys(rows[..n]) {
      first := FirstNames(rows[..n], k);
      assert forall i | 0 <= i < first :: rows[..n][i] == rows[i];
    } else {
      first := n;
      assert forall i | 0 <= i < n :: rows[..n][i] == rows[i];
    }
  }

  /** Each trade sums up its executions: their profit and amount, and how many of them gained and lost. It
      bears the name of the first of them. */
  lemma {:induction false} TradesOverExecutions(rows: seq<Row>, trades: seq<Trade>, k: nat)
    requires |trades| == |GroupKeys(rows)| && k < |trades|
    requires forall i | 0 <= i < |trades| :: trades[i] == TradeOf(rows, GroupKeys(rows)[i])
    ensures var t := trades[k];
      && t.profitLoss == SumOf(rows, ProfitIn(t)) && t.tradeAmount == SumOf(rows, AmountIn(t))
      && t.winCount == HowMany(rows, WithProfit(t, true)) && t.lossCount == HowMany(rows, WithProfit(t, false))
      && exists i | 0 <= i < |rows| :: rows[i].brandName == t.brandName && Opens(rows, i, t)
  {
    hide GroupTotals, GroupName, WithProfit, ProfitIn, AmountIn;
    GroupAdds(rows, trades[k]);
    var first := FirstNames(rows, GroupKeys(rows)[k]);
    assert Opens(rows, first, trades[k]);
  }

  /** Is execution i the first that is part of the trade? */
  ghost predicate Opens(rows: seq<Row>, i: nat, t: Trade)
    requires i < |rows|
  {
    && PartOf(rows[i], t.ticker, t.executedOn, t.direction)
    && forall j | 0 <= j < i :: !PartOf(rows[j], t.ticker, t.executedOn, t.direction)
  }

  /** Every execution is part of exactly one trade. */
  lemma {:induction false} EachExecutionOnce(rows: seq<Row>, trades: seq<Trade>, i: nat) returns (k: nat)
    requires |trades| == |GroupKeys(rows)| && i < |rows|
    requires forall i | 0 <= i < |trades| :: trades[i] == TradeOf(rows, GroupKeys(rows)[i])
    ensures k < |trades| && PartOf(rows[i], trades[k].ticker, trades[k].executedOn, trades[k].direction)
    ensures forall j | 0 <= j < |trades| && j != k ::
      !PartOf(rows[i], trades[j].ticker, trades[j].executedOn, trades[j].direction)
  {
    hide GroupTotals, GroupName;
    assert KeyOf(rows[i]) in GroupKeys(rows);
    k :| 0 <= k < |trades| && GroupKeys(rows)[k] == KeyOf(rows[i]);
  }

  /** From file to trades: where a file's dates hold only the broker's rows, the trades made from those dates after the
      import carry the totals of the file. */
  lemma {:induction false} ImportToTrades(table: seq<Row>, rows: seq<Row>, trades: seq<Trade>)
    requires UniqueIds(rows) && FromBroker(rows)
    requires forall q | q in table && q.key.executedOn in DatesOf(rows) :: q.source == SBI
    requires var stored := OnDates(Imported(table, rows), DatesOf(rows), true);
      && |trades| == |GroupKeys(stored)|
      && forall i | 0 <= i < |trades| :: trades[i] == TradeOf(stored, GroupKeys(stored)[i])
    ensures TradesTotals(trades) == AllTotals(rows)
  {
    hide UniqueIds, Imported, GroupKeys;
    FileReplacesItsDates(table, rows);
    TradesConserve(rows, trades);
  }

  // ----- Concentration of losses

  /** The losing trades among some, in their order. */
  function Losing(trades: seq<Trade>): (losses: seq<Trade>)
    ensures forall t :: t in losses <==> t in trades && t.profitLoss < 0
  {
    if trades == [] then []
    else
      var n := |trades| - 1;
      assert trades == trades[..n] + [trades[n]];
      Losing(trades[..n]) + if trades[n].profitLoss < 0 then [trades[n]] else []
  }

  ghost predicate Rising(trades: seq<Trade>) {
    forall i, j | 0 <= i < j < |trades| :: trades[i].profitLoss <= trades[j].profitLoss
  }

  /** Losing trades, the largest loss first. */
  ghost predicate WorstFirst(losses: seq<Trade>) {
    (forall i | 0 <= i < |losses| :: losses[i].profitLoss < 0) && Rising(losses)
  }

  /** The losing trades of a list in one of the orders that sorting them may give. */
  ghost predicate SortedLosses(losses: seq<Trade>, trades: seq<Trade>) {
    WorstFirst(losses) && multiset(losses) == multiset(Losing(trades))
  }

  /** Sorts by profit or loss, ties in any order. */
  ghost predicate Sorts(sort: seq<Trade> -> seq<Trade>) {
    forall trades :: Rising(sort(trades)) && multiset(sort(trades)) == multiset(trades)
  }

  /** The loss of the first n trades of a list, or of all when there are fewer. */
  function LossOf(losses: seq<Trade>, n: nat): int {
    if n == 0 then 0 else LossOf(losses, n - 1) - if n <= |losses| then losses[n - 1].profitLoss else 0
  }

  method SumLosses(losses: seq<Trade>, topN: nat) returns (sum: int)
    ensures sum == LossOf(losses, topN)
  {
    sum := 0;
    var i := 0;
    while i < topN && i < |losses|
      invariant 0 <= i <= topN && (i <= |losses|) && sum == LossOf(losses, i)
    {
      sum := sum - losses[i].profitLoss;
      i := i + 1;
    }
    NoMoreLosses(losses, i, topN);
  }

  lemma {:induction false} NoMoreLosses(losses: seq<Trade>, i: nat, n: nat)
    requires i <= n && (i == n || i == |losses|)
    ensures LossOf(losses, n) == LossOf(losses, i)
    decreases n
  {
    if i < n {
      NoMoreLosses(losses, i, n - 1);
    }
  }

  /** The share of the largest n losses in the total loss. */
  function Share(losses: seq<Trade>, n: nat): real {
    var total := LossOf(losses, |losses|);
    if total == 0 then 0.0 else LossOf(losses, n) as real / total as real
  }

  method Ratio(losses: seq<Trade>, totalLoss: int, topN: nat) returns (ratio: real)
    requires totalLoss == LossOf(losses, |losses|)
    ensures ratio == Share(losses, topN)
  {
    hide LossOf;
    if totalLoss == 0 || |losses| == 0 {
      NoLosses(losses);
      return 0.0;
    }
    var sum := SumLosses(losses, topN);
    ratio := sum as real / totalLoss as real;
  }

  lemma {:induction false} NoLosses(losses: seq<Trade>)
    ensures losses == [] ==> LossOf(losses, |losses|) == 0
  {
  }

  /** Total loss, the share of the largest 1, 3 and 5 losses in it, and the five worst trades. However the sort leaves
      ties, the figures are the same; only which of the tied trades are listed depends on it. */
  method ComputeLossConcentration(trades: seq<Trade>, sort: seq<Trade> -> seq<Trade>)
    returns (totalLoss: int, top1: real, top3: real, top5: real, worst: seq<Trade>)
    requires Sorts(sort)
    ensures totalLoss == LossOf(Losing(trades), |Losing(trades)|)
    ensures forall losses | SortedLosses(losses, trades) ::
      top1 == Share(losses, 1) && top3 == Share(losses, 3) && top5 == Share(losses, 5)
    ensures var losses := sort(Losing(trades));
      SortedLosses(losses, trades) && worst == losses[..if |losses| < 5 then |losses| else 5]
  {
    hide Losing, LossOf, Share, Rising;
    var losses: seq<Trade> := [];
    NoneLosing(trades);
    for i := 0 to |trades|
      invariant losses == Losing(trades[..i])
    {
      LosingStep(trades, i);
      if trades[i].profitLoss < 0 {
        losses := losses + [trades[i]];
      }
    }
    assert trades[..|trades|] == trades;
    losses := sort(losses);
    SortedIs(losses, trades);
    TotalIgnoresOrder(losses, Losing(trades));
    totalLoss := SumLosses(losses, |losses|);
    worst := losses[..if |losses| < 5 then |losses| else 5];
    top1 := Ratio(losses, totalLoss, 1);
    top3 := Ratio(losses, totalLoss, 3);
    top5 := Ratio(losses, totalLoss, 5);
    forall other | SortedLosses(other, trades) ensures forall n: nat :: Share(other, n) == Share(losses, n) {
      forall n: nat ensures Share(other, n) == Share(losses, n) {
        TiesDoNotMatter(other, losses, n);
      }
    }
  }

  lemma {:induction false} LosingStep(trades: seq<Trade>, i: nat)
    requires i < |trades|
    ensures Losing(trades[..i + 1]) == Losing(trades[..i]) + if trades[i].profitLoss < 0 then [trades[i]] else []
  {
    assert trades[..i + 1][..i] == trades[..i];
  }

  lemma {:induction false} NoneLosing(trades: seq<Trade>)
    ensures Losing(trades[..0]) == []
  {
  }

  lemma {:induction false} SortedIs(losses: seq<Trade>, trades: seq<Trade>)
    requires Rising(losses) && multiset(losses) == multiset(Losing(trades))
    ensures SortedLosses(losses, trades)
  {
    forall i | 0 <= i < |losses| ensures losses[i].profitLoss < 0 {
      assert losses[i] in multiset(losses);
    }
  }

  /** Trades in two orders, each by profit or loss, have the same profits in the same places. */
  lemma {:induction false} SameProfits(a: seq<Trade>, b: seq<Trade>)
    requires Rising(a) && Rising(b) && multiset(a) == multiset(b)
    ensures SameAmounts(a, b)
    decreases |a|
  {
    hide Rising, SameAmounts;
    if a != [] {
      var n := |a| - 1;
      var k := Without(a, b);
      RisingWithout(a, n);
      RisingWithout(b, k);
      assert a[..n] + a[n + 1..] == a[..n];
      SameProfits(a[..n], b[..k] + b[k + 1..]);
      LargestBack(a, b, k);
    } else {
      NoAmounts(a, b);
    }
  }

  ghost predicate SameAmounts(a: seq<Trade>, b: seq<Trade>) {
    |a| == |b| && forall i | 0 <= i < |a| :: a[i].profitLoss == b[i].profitLoss
  }

  lemma {:induction false} NoAmounts(a: seq<Trade>, b: seq<Trade>)
    requires a == [] && multiset(a) == multiset(b)
    ensures SameAmounts(a, b)
  {
    assert |multiset(b)| == |b|;
  }

  lemma {:induction false} RisingWithout(a: seq<Trade>, k: nat)
    requires Rising(a) && k < |a|
    ensures Rising(a[..k] + a[k + 1..])
  {
  }

  lemma {:induction false} LargestBack(a: seq<Trade>, b: seq<Trade>, k: nat)
    requires Rising(a) && Rising(b) && k < |b| && a != [] && b[k] == a[|a| - 1]
    requires SameAmounts(a[..|a| - 1], b[..k] + b[k + 1..])
    ensures SameAmounts(a, b)
  {
    var n, rest := |a| - 1, b[..k] + b[k + 1..];
    assert |rest| == |b| - 1;
    forall j | k <= j < n ensures a[j].profitLoss == b[j + 1].profitLoss {
      assert a[..n][j].profitLoss == rest[j].profitLoss;
    }
    forall i | 0 <= i <= n ensures a[i].profitLoss == b[i].profitLoss {
      if i < k {
        assert a[..n][i].profitLoss == rest[i].profitLoss;
      } else {
        assert i < n ==> a[i].profitLoss == b[i + 1].profitLoss;
        assert k < i ==> a[i - 1].profitLoss == b[i].profitLoss;
      }
    }
  }

  /** Where the last of some trades is in another order of them. */
  lemma {:induction false} Without(a: seq<Trade>, b: seq<Trade>) returns (k: nat)
    requires multiset(a) == multiset(b) && a != []
    ensures k < |b| && b[k] == a[|a| - 1] && |a| == |b|
    ensures multiset(a[..|a| - 1]) == multiset(b[..k] + b[k + 1..])
  {
    var n := |a| - 1;
    assert |multiset(a)| == |a| && |multiset(b)| == |b| && a == a[..n] + [a[n]] && a[n] in multiset(a);
    k :| 0 <= k < |b| && b[k] == a[n];
    MultisetWithout(a, n);
    MultisetWithout(b, k);
    assert a[..n] + a[n + 1..] == a[..n];
    assert multiset(a[..n]) == multiset(a) - multiset{a[n]};
  }

  lemma {:induction false} MultisetWithout(a: seq<Trade>, k: nat)
    requires k < |a|
    ensures multiset(a[..k] + a[k + 1..]) == multiset(a) - multiset{a[k]}
  {
    assert a == a[..k] + [a[k]] + a[k + 1..];
  }

  lemma {:induction false} TiesDoNotMatter(a: seq<Trade>, b: seq<Trade>, n: nat)
    requires Rising(a) && Rising(b) && multiset(a) == multiset(b)
    ensures Share(a, n) == Share(b, n)
  {
    SameProfits(a, b);
    SameLosses(a, b, |a|);
    SameLosses(a, b, n);
  }

  lemma {:induction false} SameLosses(a: seq<Trade>, b: seq<Trade>, n: nat)
    requires SameAmounts(a, b)
    ensures LossOf(a, n) == LossOf(b, n)
  {
    if n > 0 {
      SameLosses(a, b, n - 1);
    }
  }

  lemma {:induction false} TotalIgnoresOrder(a: seq<Trade>, b: seq<Trade>)
    requires multiset(a) == multiset(b)
    ensures |a| == |b| && LossOf(a, |a|) == LossOf(b, |b|)
    decreases |a|
  {
    assert |multiset(a)| == |a| && |multiset(b)| == |b|;
    if a != [] {
      var n := |a| - 1;
      var k := Without(a, b);
      TotalIgnoresOrder(a[..n], b[..k] + b[k + 1..]);
      SamePrefix(a[..n], a, n);
      LossOfRest(b, k, |b|);
    }
  }

  lemma {:induction false} SamePrefix(a: seq<Trade>, b: seq<Trade>, n: nat)
    requires n <= |a| && n <= |b| && a[..n] == b[..n]
    ensures LossOf(a, n) == LossOf(b, n)
  {
    if n > 0 {
      assert a[..n][n - 1] == b[..n][n - 1];
      assert a[..n - 1] == a[..n][..n - 1] == b[..n][..n - 1] == b[..n - 1];
      SamePrefix(a, b, n - 1);
    }
  }

  lemma {:induction false} LossOfRest(b: seq<Trade>, k: nat, n: nat)
    requires k < n <= |b|
    ensures LossOf(b[..k] + b[k + 1..], n - 1) == LossOf(b, n) + b[k].profitLoss
    decreases n
  {
    var rest := b[..k] + b[k + 1..];
    if n == k + 1 {
      assert rest[..k] == b[..k];
      SamePrefix(rest, b, k);
    } else {
      assert rest[n - 2] == b[n - 1];
      LossOfRest(b, k, n - 1);
    }
  }

  /** The shares grow with n, from more than nothing to the whole once every loss is counted. */
  lemma {:induction false} SharesGrow(losses: seq<Trade>, m: nat, n: nat)
    requires WorstFirst(losses) && losses != [] && 0 < m <= n
    ensures 0.0 < Share(losses, m) <= Share(losses, n) <= 1.0
    ensures n >= |losses| ==> Share(losses, n) == 1.0
  {
    hide WorstFirst, LossOf;
    var all := |losses|;
    LossGrows(losses, 0, m);
    LossGrows(losses, m, n);
    LossGrows(losses, 0, all);
    if n <= all {
      LossGrows(losses, n, all);
    } else {
      NoMoreLosses(losses, all, n);
    }
    ShareBounds(LossOf(losses, m), LossOf(losses, n), LossOf(losses, all));
  }

  lemma {:induction false} ShareBounds(part: int, more: int, total: int)
    requires 0 < part <= more <= total
    ensures 0.0 < part as real / total as real <= more as real / total as real <= 1.0
    ensures more == total ==> more as real / total as real == 1.0
  {
  }

  lemma {:induction false} LossGrows(losses: seq<Trade>, m: nat, n: nat)
    requires WorstFirst(losses) && m <= n
    ensures LossOf(losses, m) <= LossOf(losses, n)
    ensures m == 0 ==> LossOf(losses, m) == 0
    ensures m == 0 < n && losses != [] ==> LossOf(losses, n) > 0
    decreases n
  {
    if m < n {
      LossGrows(losses, m, n - 1);
    }
  }

  /** Loss of the trades picked out by some indices. */
  function LossAt(losses: seq<Trade>, picked: seq<nat>): int
    requires forall i | 0 <= i < |picked| :: picked[i] < |losses|
  {
    if picked == [] then 0 else LossAt(losses, picked[..|picked| - 1]) - losses[picked[|picked| - 1]].profitLoss
  }

  /** No other n losing trades lose more together than the first n. */
  lemma {:induction false} TopLossesAreWorst(losses: seq<Trade>, picked: seq<nat>)
    requires WorstFirst(losses) && (forall i | 0 <= i < |picked| :: picked[i] < |losses|)
    requires forall i, j | 0 <= i < j < |picked| :: picked[i] < picked[j]
    ensures LossAt(losses, picked) <= LossOf(losses, |picked|)
    decreases |picked|
  {
    if picked != [] {
      var n := |picked| - 1;
      TopLossesAreWorst(losses, picked[..n]);
      IndexAtLeast(picked, n);
    }
  }

  lemma {:induction false} IndexAtLeast(picked: seq<nat>, n: nat)
    requires n < |picked| && forall i, j | 0 <= i < j < |picked| :: picked[i] < picked[j]
    ensures picked[n] >= n
  {
    if n > 0 {
      IndexAtLeast(picked, n - 1);
    }
  }
}
