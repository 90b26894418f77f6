/** Judging past picks: forward returns are filled in as bars arrive, and each pick gets one verdict for good. */
module PickEvaluation {
  import opened Decimals
  import opened MarketData

  datatype Outcome = Win | Lose | Draw | Void

  /** A stored pick. Dates are day numbers, instants count seconds. */
  datatype PickRow = PickRow(pickDate: int, ticker: string, return1D: Option<real>, return3D: Option<real>,
                             return5D: Option<real>, outcome: Option<Outcome>, evaluatedAt: Option<int>)

  /** Each symbol's bars, oldest first, and the dates of its splits and consolidations. */
  datatype Market = Market(bars: map<string, seq<Bar>>, splits: set<(string, int)>, consolidations: set<(string, int)>)

  const DAY := 86400

  const DEADLINE_DAYS := 30

  function DateOf(now: int): int {
    now / DAY
  }

  /** Is it later than the first moment of the deadline day? */
  predicate Expired(pickDate: int, now: int) {
    now > (pickDate + DEADLINE_DAYS) * DAY
  }

  function Between(bars: seq<Bar>, from: int, upTo: int): seq<Bar> {
    if bars == [] then []
    else
      var n := |bars| - 1;
      Between(bars[..n], from, upTo) + if from <= bars[n].date <= upTo then [bars[n]] else []
  }

  /** The bars of a symbol from one date to another, both included. */
  function BarsFrom(market: Market, ticker: string, from: int, upTo: int): seq<Bar> {
    Between(if ticker in market.bars then market.bars[ticker] else [], from, upTo)
  }

  // ----- Forward returns

  predicate BaseFound(bars: seq<Bar>) {
    |bars| > 0 && bars[0].adjClose != 0.0
  }

  /** Rounded return from the first bar to the h-th after it; none while that bar has not arrived. */
  function ReturnAfter(bars: seq<Bar>, sell: bool, h: nat): Option<real>
    requires BaseFound(bars)
  {
    if h >= |bars| then None
    else
      var gain := bars[h].adjClose / bars[0].adjClose - 1.0;
      Some(Round(if sell then -gain else gain, 6))
  }

  method ForwardReturns(bars: seq<Bar>, sell: bool, horizons: seq<nat>)
    returns (returned: map<nat, Option<real>>, baseFound: bool)
    ensures baseFound == BaseFound(bars)
    ensures baseFound ==> forall h :: h in returned <==> h in horizons
    ensures baseFound ==> forall h | h in horizons :: returned[h] == ReturnAfter(bars, sell, h)
  {
    if |bars| == 0 || bars[0].adjClose == 0.0 {
      return map[], false;
    }
    returned, baseFound := map[], true;
    var p0 := bars[0].adjClose;
    var k := 0;
    while k < |horizons|
      invariant 0 <= k <= |horizons|
      invariant forall h :: h in returned <==> h in horizons[..k]
      invariant forall h | h in returned :: returned[h] == ReturnAfter(bars, sell, h)
    {
      var h := horizons[k];
      if h < |bars| {
        var r := bars[h].adjClose / p0 - 1.0;
        if sell {
          r := -r;
        }
        returned := returned[h := Some(Round(r, 6))];
      } else {
        returned := returned[h := None];
      }
      k := k + 1;
    }
  }

  // ----- The verdict on one pick

  function Judge(return5D: real): Outcome {
    if return5D > 0.0 then Win else if return5D < 0.0 then Lose else Draw
  }

  ghost predicate CorporateAction(market: Market, ticker: string, bars: seq<Bar>) {
    exists i | 1 <= i <= 5 && i < |bars| ::
      (ticker, bars[i].date) in market.splits || (ticker, bars[i].date) in market.consolidations
  }

  method HasCorporateAction(market: Market, ticker: string, bars: seq<Bar>) returns (found: bool)
    ensures found == CorporateAction(market, ticker, bars)
  {
    var limit := if |bars| - 1 < 5 then |bars| - 1 else 5;
    var i := 1;
    while i <= limit
      invariant 1 <= i
      invariant forall j | 1 <= j < i && j <= limit ::
        (ticker, bars[j].date) !in market.splits && (ticker, bars[j].date) !in market.consolidations
    {
      var date := bars[i].date;
      if (ticker, date) in market.splits {
        return true;
      }
      if (ticker, date) in market.consolidations {
        return true;
      }
      i := i + 1;
    }
    found := false;
  }

  /** What one evaluation makes of a stored pick. A return that is not known leaves the stored column as it was. */
  ghost function Evaluation(row: PickRow, market: Market, now: int): PickRow {
    var bars := BarsFrom(market, row.ticker, row.pickDate, DateOf(now));
    var expired := Expired(row.pickDate, now);
    if !BaseFound(bars) then
      if expired then Voided(row, now) else row
    else
      var filled := row.(return1D := OrElse(ReturnAfter(bars, false, 1), row.return1D),
                         return3D := OrElse(ReturnAfter(bars, false, 3), row.return3D));
      match ReturnAfter(bars, false, 5)
      case None => if expired then Voided(filled, now) else filled
      case Some(r) =>
        if CorporateAction(market, row.ticker, bars) then Voided(filled.(return5D := Some(r)), now)
        else filled.(return5D := Some(r), outcome := Some(Judge(r)), evaluatedAt := Some(now))
  }

  function OrElse(a: Option<real>, b: Option<real>): Option<real> {
    if a.Some? then a else b
  }

  function Voided(row: PickRow, now: int): PickRow {
    row.(outcome := Some(Void), evaluatedAt := Some(now))
  }

  class Pick {
    const pickDate: int
    const ticker: string
    var return1D: Option<real>
    var return3D: Option<real>
    var return5D: Option<real>
    var outcome: Option<Outcome>
    var evaluatedAt: Option<int>

    constructor (row: PickRow)
      ensures Row() == row
    {
      pickDate, ticker := row.pickDate, row.ticker;
      return1D, return3D, return5D := row.return1D, row.return3D, row.return5D;
      outcome, evaluatedAt := row.outcome, row.evaluatedAt;
    }

    function Row(): PickRow
      reads this
    {
      PickRow(pickDate, ticker, return1D, return3D, return5D, outcome, evaluatedAt)
    }

    /** Updating a row skips the columns that have no value. */
    function WrittenOver(row: PickRow): PickRow
      reads this
    {
      PickRow(pickDate, ticker, OrElse(return1D, row.return1D), OrElse(return3D, row.return3D),
        OrElse(return5D, row.return5D), if outcome.Some? then outcome else row.outcome,
        if evaluatedAt.Some? then evaluatedAt else row.evaluatedAt)
    }

    method MarkVoid(now: int)
      modifies this`outcome, this`evaluatedAt
      ensures outcome == Some(Void) && evaluatedAt == Some(now)
    {
      outcome, evaluatedAt := Some(Void), Some(now);
    }

    /** Evaluates the pick in place; `update` says whether there is anything to write. */
    method EvaluateOnePick(market: Market, now: int) returns (update: bool)
      modifies this
      ensures update ==> WrittenOver(old(Row())) == Evaluation(old(Row()), market, now)
      ensures !update ==> Evaluation(old(Row()), market, now) == old(Row())
    {
      hide CorporateAction, ReturnAfter, Judge, Between;
      var bars := BarsFrom(market, ticker, pickDate, DateOf(now));
      var expired := Expired(pickDate, now);
      var returned, baseFound := ForwardReturns(bars, false, [1, 3, 5]);
      if !baseFound {
        if !expired {
          return false;
        }
        MarkVoid(now);
        return true;
      }
      assert 1 in [1, 3, 5] && 3 in [1, 3, 5] && 5 in [1, 3, 5];
      return1D, return3D := returned[1], returned[3];
      if returned[5].None? {
        if expired {
          MarkVoid(now);
        }
        return true;
      }
      return5D := returned[5];
      var action := HasCorporateAction(market, ticker, bars);
      if action {
        MarkVoid(now);
        return true;
      }
      outcome, evaluatedAt := Some(Judge(return5D.value)), Some(now);
      update := true;
    }
  }

  // ----- One run

  /** Not judged yet, and picked no more than twice the deadline ago. */
  predicate Pending(row: PickRow, now: int) {
    row.evaluatedAt.None? && row.pickDate >= DateOf(now) - 2 * DEADLINE_DAYS
  }

  ghost function Next(row: PickRow, market: Market, now: int): PickRow {
    if Pending(row, now) then Evaluation(row, market, now) else row
  }

  ghost function NextRows(rows: seq<PickRow>, market: Market, now: int): (next: seq<PickRow>)
    ensures |next| == |rows|
  {
    seq(|rows|, i requires 0 <= i < |rows| => Next(rows[i], market, now))
  }

  class PickTable {
    var rows: seq<PickRow>

    method ListPending(now: int) returns (pending: seq<nat>)
      ensures forall i :: i in pending <==> 0 <= i < |rows| && Pending(rows[i], now)
      ensures forall i, j | 0 <= i < j < |pending| :: pending[i] < pending[j]
    {
      pending := [];
      var i := 0;
      while i < |rows|
        invariant 0 <= i <= |rows|
        invariant forall j :: j in pending <==> 0 <= j < i && Pending(rows[j], now)
        invariant forall j, k | 0 <= j < k < |pending| :: pending[j] < pending[k]
      {
        if Pending(rows[i], now) {
          assert forall j | 0 <= j < |pending| :: pending[j] in pending;
          pending := pending + [i];
        }
        i := i + 1;
      }
    }

    /** Evaluates every pending pick in one transaction, which a failing step undoes. */
    method EvaluateDailyStockPicks(market: Market, now: int, listFails: bool, stepFails: bool) returns (err: bool)
      modifies this`rows
      ensures err <==> listFails || (stepFails && exists i | 0 <= i < |old(rows)| :: Pending(old(rows)[i], now))
      ensures rows == if err then old(rows) else NextRows(old(rows), market, now)
    {
      hide Evaluation;
      if listFails {
        return true;
      }
      var pending := ListPending(now);
      if |pending| == 0 {
        assert forall i | 0 <= i < |rows| :: !Pending(rows[i], now);
        return false;
      }
      assert pending[0] in pending;
      var staged := rows;
      var k := 0;
      while k < |pending|
        invariant 0 <= k <= |pending| && |staged| == |rows| && rows == old(rows)
        invariant forall i | 0 <= i < |rows| ::
          staged[i] == if i in pending[..k] then Next(rows[i], market, now) else rows[i]
      {
        var i := pending[k];
        assert i in pending && i !in pending[..k];
        var p := new Pick(staged[i]);
        var update := p.EvaluateOnePick(market, now);
        if update {
          staged := staged[i := p.WrittenOver(staged[i])];
        }
        k := k + 1;
      }
      assert pending[..k] == pending;
      if stepFails {
        return true;
      }
      rows := staged;
      err := false;
    }
  }

  // ----- What a verdict means

  /** Judged and undecided picks: a verdict and its time go together, a verdict other than void is the sign of the
      five-day return, and that return is only filled in together with the verdict. */
  ghost predicate SoundRow(row: PickRow) {
    && (row.evaluatedAt.Some? <==> row.outcome.Some?)
    && (row.return5D.Some? ==> row.outcome.Some?)
    && (row.outcome.Some? && row.outcome.value != Void
        ==> row.return5D.Some? && row.outcome.value == Judge(row.return5D.value))
  }

  lemma {:induction false} EvaluationSound(row: PickRow, market: Market, now: int)
    requires SoundRow(row) && row.evaluatedAt.None?
    ensures SoundRow(Evaluation(row, market, now))
  {
    hide Between, CorporateAction;
  }

  /** The verdict on a pending pick, in terms of the bars seen from the pick's date to today. */
  lemma {:induction false} VerdictMeaning(row: PickRow, market: Market, now: int)
    requires SoundRow(row) && Pending(row, now)
    ensures var next := Next(row, market, now);
      var bars := BarsFrom(market, row.ticker, row.pickDate, DateOf(now));
      var fifth := BaseFound(bars) && |bars| > 5;
      var action := CorporateAction(market, row.ticker, bars);
      && (next.evaluatedAt.Some? <==> fifth || Expired(row.pickDate, now))
      && (next.outcome == Some(Void) <==> (fifth && action) || (!fifth && Expired(row.pickDate, now)))
      && (next.outcome == Some(Win) <==> fifth && !action && ReturnAfter(bars, false, 5).value > 0.0)
      && (next.outcome == Some(Lose) <==> fifth && !action && ReturnAfter(bars, false, 5).value < 0.0)
      && (next.outcome == Some(Draw) <==> fifth && !action && ReturnAfter(bars, false, 5).value == 0.0)
  {
    hide Between, CorporateAction;
  }

  /** After a run that succeeds, a pick is still open exactly when it was already too old to be looked at, or it is
      within its deadline and its fifth bar has not come. */
  lemma {:induction false} OpenAfterRunIff(row: PickRow, market: Market, now: int)
    requires SoundRow(row) && row.evaluatedAt.None?
    ensures var bars := BarsFrom(market, row.ticker, row.pickDate, DateOf(now));
      var tooOld := row.pickDate < DateOf(now) - 2 * DEADLINE_DAYS;
      var waiting := !Expired(row.pickDate, now) && !(BaseFound(bars) && |bars| > 5);
      Next(row, market, now).evaluatedAt.None? <==> tooOld || waiting
  {
    hide Evaluation, Between, CorporateAction, Expired;
    if Pending(row, now) {
      VerdictMeaning(row, market, now);
    }
  }

  // ----- All runs

  datatype Run = Run(market: Market, now: int, err: bool)

  /** Bars are only appended, in date order, and the clock does not go back. */
  ghost predicate AppendOnly(runs: seq<Run>) {
    && (forall j, k | 0 <= j <= k < |runs| :: runs[j].now <= runs[k].now && Extends(runs[j].market, runs[k].market))
    && (forall j | 0 <= j < |runs| :: forall t | t in runs[j].market.bars :: InDateOrder(runs[j].market.bars[t]))
  }

  ghost predicate InDateOrder(bars: seq<Bar>) {
    forall i, j | 0 <= i < j < |bars| :: bars[i].date < bars[j].date
  }

  ghost predicate Extends(m: Market, n: Market) {
    forall t | t in m.bars :: t in n.bars && m.bars[t] <= n.bars[t]
  }

  /** One pick through a history of runs. */
  ghost predicate History(states: seq<PickRow>, runs: seq<Run>) {
    && |states| == |runs| + 1
    && (forall k | 0 <= k < |runs| ::
          states[k + 1] == if runs[k].err then states[k] else Next(states[k], runs[k].market, runs[k].now))
  }

  /** In every history every pick stays sound. */
  lemma {:induction false} AlwaysSound(states: seq<PickRow>, runs: seq<Run>, k: nat)
    requires History(states, runs) && k < |states| && SoundRow(states[0])
    ensures SoundRow(states[k])
  {
    hide Evaluation, SoundRow;
    if k > 0 {
      AlwaysSound(states, runs, k - 1);
      if Pending(states[k - 1], runs[k - 1].now) {
        EvaluationSound(states[k - 1], runs[k - 1].market, runs[k - 1].now);
      }
    }
  }

  /** Once judged, a pick never changes again, whatever happens to bars, splits or clock. */
  lemma {:induction false} VerdictFinal(states: seq<PickRow>, runs: seq<Run>, i: nat, j: nat)
    requires History(states, runs) && i <= j < |states| && states[i].evaluatedAt.Some?
    ensures states[j] == states[i]
    decreases j
  {
    hide Evaluation;
    if i < j {
      VerdictFinal(states, runs, i, j - 1);
    }
  }

  /** The run reached a verdict on the pick: it succeeded, looked at the pick, and either saw its fifth bar or found its
      deadline past. */
  ghost predicate Decides(run: Run, row: PickRow) {
    var bars := BarsFrom(run.market, row.ticker, row.pickDate, DateOf(run.now));
    && !run.err && row.pickDate >= DateOf(run.now) - 2 * DEADLINE_DAYS
    && ((BaseFound(bars) && |bars| > 5) || Expired(row.pickDate, run.now))
  }

  lemma {:induction false} StepDecides(row: PickRow, next: PickRow, run: Run)
    requires SoundRow(row) && row.evaluatedAt.None?
    requires next == if run.err then row else Next(row, run.market, run.now)
    ensures next.evaluatedAt.Some? <==> Decides(run, row)
    ensures next.ticker == row.ticker && next.pickDate == row.pickDate
  {
    hide Between, CorporateAction;
  }

  /** An open pick ends a history judged exactly when one of its runs was in a position to decide it; in particular a
      pick that no successful run decides before it is twice the deadline old is never judged. */
  lemma {:induction false} JudgedIff(states: seq<PickRow>, runs: seq<Run>, j: nat)
    requires History(states, runs) && j < |states| && SoundRow(states[0]) && states[0].evaluatedAt.None?
    ensures states[j].ticker == states[0].ticker && states[j].pickDate == states[0].pickDate
    ensures states[j].evaluatedAt.Some? <==> exists k | 0 <= k < j :: Decides(runs[k], states[0])
  {
    hide Evaluation, SoundRow, Decides;
    if j > 0 {
      JudgedIff(states, runs, j - 1);
      AlwaysSound(states, runs, j - 1);
      var before := states[j - 1];
      if before.evaluatedAt.Some? {
        VerdictFinal(states, runs, j - 1, j);
      } else {
        StepDecides(before, states[j], runs[j - 1]);
        SameToDecide(runs[j - 1], before, states[0]);
      }
    }
  }

  lemma {:induction false} SameToDecide(run: Run, a: PickRow, b: PickRow)
    requires a.ticker == b.ticker && a.pickDate == b.pickDate
    ensures Decides(run, a) == Decides(run, b)
  {
  }

  lemma {:induction false} BetweenAll(bars: seq<Bar>, from: int, upTo: int, later: int)
    requires upTo <= later && forall i | 0 <= i < |bars| :: bars[i].date <= upTo
    ensures Between(bars, from, upTo) == Between(bars, from, later)
    decreases |bars|
  {
    if bars != [] {
      BetweenAll(bars[..|bars| - 1], from, upTo, later);
    }
  }

  lemma {:induction false} BetweenLater(bars: seq<Bar>, from: int, upTo: int, later: int)
    requires InDateOrder(bars) && upTo <= later
    ensures Between(bars, from, upTo) <= Between(bars, from, later)
    decreases |bars|
  {
    if bars != [] {
      var n := |bars| - 1;
      if bars[n].date <= upTo {
        hide Between;
        forall i | 0 <= i < |bars| ensures bars[i].date <= upTo {
          assert i < n ==> bars[i].date < bars[n].date;
        }
        hide InDateOrder;
        BetweenAll(bars, from, upTo, later);
      } else {
        assert InDateOrder(bars[..n]);
        hide InDateOrder;
        BetweenLater(bars[..n], from, upTo, later);
      }
    }
  }

  lemma {:induction false} BetweenPrefix(bars: seq<Bar>, more: seq<Bar>, from: int, upTo: int)
    requires bars <= more
    ensures Between(bars, from, upTo) <= Between(more, from, upTo)
    decreases |more|
  {
    if bars != more {
      assert bars <= more[..|more| - 1];
      BetweenPrefix(bars, more[..|more| - 1], from, upTo);
    }
  }

  /** What was seen of a symbol's bars is the start of what is seen later. */
  lemma {:induction false} BarsGrow(earlier: Run, later: Run, ticker: string, from: int)
    requires earlier.now <= later.now && Extends(earlier.market, later.market)
    requires forall t | t in earlier.market.bars :: InDateOrder(earlier.market.bars[t])
    ensures BarsFrom(earlier.market, ticker, from, DateOf(earlier.now))
         <= BarsFrom(later.market, ticker, from, DateOf(later.now))
  {
    hide InDateOrder;
    if ticker in earlier.market.bars {
      var bars, more := earlier.market.bars[ticker], later.market.bars[ticker];
      BetweenLater(bars, from, DateOf(earlier.now), DateOf(later.now));
      BetweenPrefix(bars, more, from, DateOf(later.now));
    }
  }

  /** The filled-in returns of an open pick are those of the bars seen. */
  ghost predicate FilledFrom(row: PickRow, run: Run) {
    var bars := BarsFrom(run.market, row.ticker, row.pickDate, DateOf(run.now));
    && (row.return1D.Some? ==> BaseFound(bars) && ReturnAfter(bars, false, 1) == row.return1D)
    && (row.return3D.Some? ==> BaseFound(bars) && ReturnAfter(bars, false, 3) == row.return3D)
  }

  lemma {:induction false} FilledLater(row: PickRow, earlier: Run, later: Run)
    requires FilledFrom(row, earlier) && earlier.now <= later.now && Extends(earlier.market, later.market)
    requires forall t | t in earlier.market.bars :: InDateOrder(earlier.market.bars[t])
    ensures FilledFrom(row, later)
  {
    BarsGrow(earlier, later, row.ticker, row.pickDate);
    hide BarsFrom, Extends, InDateOrder, Round;
  }

  lemma {:induction false} StepKeepsFilled(row: PickRow, run: Run)
    requires FilledFrom(row, run)
    ensures var next := Next(row, run.market, run.now);
      && FilledFrom(next, run) && next.ticker == row.ticker && next.pickDate == row.pickDate
      && (row.return1D.Some? ==> next.return1D == row.return1D)
      && (row.return3D.Some? ==> next.return3D == row.return3D)
  {
    hide BarsFrom, CorporateAction, Round;
  }

  lemma {:induction false} FilledThrough(states: seq<PickRow>, runs: seq<Run>, k: nat)
    requires History(states, runs) && AppendOnly(runs) && k < |runs|
    requires states[0].return1D.None? && states[0].return3D.None?
    ensures FilledFrom(states[k], runs[k]) && FilledFrom(states[k + 1], runs[k])
  {
    hide Next, FilledFrom;
    if k == 0 {
      NothingFilled(states[0], runs[0]);
    } else {
      FilledThrough(states, runs, k - 1);
      assert runs[k - 1].now <= runs[k].now;
      FilledLater(states[k], runs[k - 1], runs[k]);
    }
    StepKeepsFilled(states[k], runs[k]);
  }

  lemma {:induction false} NothingFilled(row: PickRow, run: Run)
    requires row.return1D.None? && row.return3D.None?
    ensures FilledFrom(row, run)
  {
  }

  /** While bars are only appended, a one-day or three-day return never changes once it is filled in. */
  lemma {:induction false} ReturnsFinal(states: seq<PickRow>, runs: seq<Run>, i: nat, j: nat)
    requires History(states, runs) && AppendOnly(runs) && i <= j < |states|
    requires states[0].return1D.None? && states[0].return3D.None?
    ensures states[i].return1D.Some? ==> states[j].return1D == states[i].return1D
    ensures states[i].return3D.Some? ==> states[j].return3D == states[i].return3D
    decreases j
  {
    hide Next, FilledFrom, AppendOnly;
    if i < j {
      ReturnsFinal(states, runs, i, j - 1);
      FilledThrough(states, runs, j - 1);
      StepKeepsFilled(states[j - 1], runs[j - 1]);
    }
  }
}
