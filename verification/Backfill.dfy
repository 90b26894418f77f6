/** The resumable download of daily prices: one request a weekday, a checkpoint after each trading day. */
module Backfill {
  import opened Decimals

  /** Days are counted from a Monday. */
  predicate Weekend(day: int) {
    day % 7 == 5 || day % 7 == 6
  }

  /** Of the seven days of a week from a Monday on the last two are the weekend. */
  lemma {:induction false} WeekendOfWeek(week: int, day: nat)
    requires day < 7
    ensures Weekend(7 * week + day) <==> day >= 5
  {
    assert (7 * week + day) % 7 == day;
  }

  /** What the price service answers for a day: an error, or so many prices (none on a holiday). */
  datatype Response = Failure | Prices(count: nat)

  /** The checkpoint, and the days for which prices were asked for, handed to the repositories, and stored by them. */
  datatype State = State(checkpoint: Option<int>, fetched: set<int>, handed: set<int>, stored: set<int>)

  /** One run's surroundings: the date, the default start five years back, the service, and the steps that fail. */
  datatype World = World(now: int, fiveYearsAgo: int, api: int -> Response, brandsFail: bool, getFails: bool,
                         storeFails: int -> bool, saveFails: int -> bool, lastSaveFails: bool, deleteFails: bool)

  function StartDay(s: State, w: World): int {
    if s.checkpoint.Some? then s.checkpoint.value + 1 else w.fiveYearsAgo
  }

  /** The first weekday from `day` on whose request fails, or the day after the last. */
  function StopDay(w: World, day: int): (stop: int)
    ensures day <= stop || stop == w.now + 1 < day
    decreases w.now - day
  {
    if day > w.now then w.now + 1
    else if !Weekend(day) && w.api(day).Failure? then day
    else StopDay(w, day + 1)
  }

  predicate TradingDay(w: World, day: int) {
    !Weekend(day) && w.api(day).Prices? && w.api(day).count > 0
  }

  function Weekdays(from: int, until: int): set<int> {
    set d | from <= d < until && !Weekend(d)
  }

  function TradingDays(w: World, from: int, until: int): set<int> {
    set d | from <= d < until && TradingDay(w, d)
  }

  function StoredDays(w: World, from: int, until: int): set<int> {
    set d | from <= d < until && TradingDay(w, d) && !w.storeFails(d)
  }

  /** The checkpoint after the trading days before `until`. */
  function SavedBy(w: World, before: Option<int>, from: int, until: int): Option<int>
    decreases until - from
  {
    if until <= from then before
    else if TradingDay(w, until - 1) && !w.saveFails(until - 1) then Some(until - 1)
    else SavedBy(w, before, from, until - 1)
  }

  predicate Completes(s: State, w: World) {
    StopDay(w, StartDay(s, w)) > w.now
  }

  /** The state of a run that has worked off the days before `until`. */
  function UpTo(s: State, w: World, until: int): State {
    var start := StartDay(s, w);
    State(SavedBy(w, s.checkpoint, start, until), s.fetched + Weekdays(start, until),
      s.handed + TradingDays(w, start, until), s.stored + StoredDays(w, start, until))
  }

  /** The state a run leaves. */
  function After(s: State, w: World): State {
    if w.brandsFail || w.getFails then s
    else
      var stop := StopDay(w, StartDay(s, w));
      var done := UpTo(s, w, stop);
      if stop > w.now then (if w.deleteFails then done else done.(checkpoint := None))
      else if w.lastSaveFails then done
      else done.(checkpoint := Some(stop - 1))
  }

  class Interactor {
    var checkpoint: Option<int>
    ghost var fetched: set<int>
    ghost var handed: set<int>
    ghost var stored: set<int>

    ghost function Now(): State
      reads this
    {
      State(checkpoint, fetched, handed, stored)
    }

    method SaveHistoricalCheckpoint(day: int, fails: bool) returns (err: bool)
      modifies this`checkpoint
      ensures err == fails && checkpoint == if fails then old(checkpoint) else Some(day)
    {
      if !fails {
        checkpoint := Some(day);
      }
      err := fails;
    }

    /** A run reports an error when the brands or the checkpoint cannot be read, and, if the service fails, when the
        checkpoint cannot be saved either; an interrupted run whose checkpoint is saved reports none. */
    method CreateHistoricalDailyStockPrices(w: World) returns (err: bool)
      modifies this
      ensures Now() == After(old(Now()), w)
      ensures err <==> w.brandsFail || w.getFails || (!Completes(old(Now()), w) && w.lastSaveFails)
    {
      hide StopDay, UpTo, TradingDay;
      if w.brandsFail || w.getFails {
        return true;
      }
      var start := if checkpoint.Some? then checkpoint.value + 1 else w.fiveYearsAgo;
      ghost var before := Now();
      var d := start;
      NothingDone(before, w);
      while d <= w.now
        invariant start <= d && (d <= w.now + 1 || d == start) && StopDay(w, start) == StopDay(w, d)
        invariant Now() == UpTo(before, w, d)
      {
        DayDone(before, w, d);
        if !Weekend(d) {
          var response := w.api(d);
          if response.Failure? {
            err := SaveHistoricalCheckpoint(d - 1, w.lastSaveFails);
            return err;
          }
          fetched := fetched + {d};
          if response.count > 0 {
            handed := handed + {d};
            if !w.storeFails(d) {
              stored := stored + {d};
            }
            var saveErr := SaveHistoricalCheckpoint(d, w.saveFails(d));
          }
        }
        d := d + 1;
      }
      AllDone(before, w, d);
      if !w.deleteFails {
        checkpoint := None;
      }
      err := false;
    }
  }

  lemma {:induction false} NothingDone(s: State, w: World)
    ensures UpTo(s, w, StartDay(s, w)) == s
  {
    StartFacts(w, s.checkpoint, StartDay(s, w));
  }

  lemma {:induction false} DayDone(s: State, w: World, d: int)
    requires StartDay(s, w) <= d <= w.now
    ensures StopDay(w, d) == if !Weekend(d) && w.api(d).Failure? then d else StopDay(w, d + 1)
    ensures var t := UpTo(s, w, d);
      UpTo(s, w, d + 1) == State(
        if TradingDay(w, d) && !w.saveFails(d) then Some(d) else t.checkpoint,
        if Weekend(d) then t.fetched else t.fetched + {d},
        if TradingDay(w, d) then t.handed + {d} else t.handed,
        if TradingDay(w, d) && !w.storeFails(d) then t.stored + {d} else t.stored)
    ensures TradingDay(w, d) <==> !Weekend(d) && w.api(d).Prices? && w.api(d).count > 0
  {
    DayFacts(w, s.checkpoint, StartDay(s, w), d);
  }

  lemma {:induction false} AllDone(s: State, w: World, d: int)
    requires d > w.now && StartDay(s, w) <= d && (d == w.now + 1 || d == StartDay(s, w))
    ensures StopDay(w, d) == w.now + 1 && UpTo(s, w, w.now + 1) == UpTo(s, w, d)
  {
    PastTheEnd(w, s.checkpoint, StartDay(s, w), d);
  }

  lemma {:induction false} StartFacts(w: World, before: Option<int>, start: int)
    ensures SavedBy(w, before, start, start) == before && Weekdays(start, start) == {}
    ensures TradingDays(w, start, start) == {} && StoredDays(w, start, start) == {}
  {
  }

  lemma {:induction false} DayFacts(w: World, before: Option<int>, start: int, d: int)
    requires start <= d <= w.now
    ensures StopDay(w, d) == if !Weekend(d) && w.api(d).Failure? then d else StopDay(w, d + 1)
    ensures SavedBy(w, before, start, d + 1)
         == if TradingDay(w, d) && !w.saveFails(d) then Some(d) else SavedBy(w, before, start, d)
    ensures Weekdays(start, d + 1) == Weekdays(start, d) + if Weekend(d) then {} else {d}
    ensures TradingDays(w, start, d + 1) == TradingDays(w, start, d) + if TradingDay(w, d) then {d} else {}
    ensures StoredDays(w, start, d + 1)
         == StoredDays(w, start, d) + if TradingDay(w, d) && !w.storeFails(d) then {d} else {}
  {
  }

  lemma {:induction false} PastTheEnd(w: World, before: Option<int>, start: int, d: int)
    requires d > w.now && start <= d && (d == w.now + 1 || d == start)
    ensures StopDay(w, d) == w.now + 1
    ensures SavedBy(w, before, start, w.now + 1) == SavedBy(w, before, start, d)
    ensures Weekdays(start, w.now + 1) == Weekdays(start, d)
    ensures TradingDays(w, start, w.now + 1) == TradingDays(w, start, d)
    ensures StoredDays(w, start, w.now + 1) == StoredDays(w, start, d)
  {
  }

  // ----- All runs

  /** Every weekday of the stretch was asked for. */
  ghost predicate Covered(s: State, first: int, upTo: int) {
    forall d | first <= d <= upTo && !Weekend(d) :: d in s.fetched
  }

  /** A chain of runs that share a checkpoint: the first starts without one, and the others find the one left before. */
  ghost predicate Chain(states: seq<State>, worlds: seq<World>) {
    && |states| == |worlds| + 1 && |worlds| > 0
    && (forall k | 0 <= k < |worlds| :: states[k + 1] == After(states[k], worlds[k]))
    && states[0].checkpoint.None? && !worlds[0].brandsFail && !worlds[0].getFails
    && (forall k | 0 < k < |worlds| :: states[k].checkpoint.Some?)
    && (forall j, k | 0 <= j <= k < |worlds| :: worlds[j].now <= worlds[k].now)
  }

  lemma {:induction false} StopBounds(w: World, day: int)
    ensures day <= w.now + 1 ==> day <= StopDay(w, day)
    ensures StopDay(w, day) <= w.now + 1
    ensures StopDay(w, day) <= w.now ==>
      !Weekend(StopDay(w, day)) && w.api(StopDay(w, day)).Failure?
    ensures forall d | day <= d < StopDay(w, day) :: Weekend(d) || w.api(d).Prices?
    ensures StopDay(w, day) > w.now <==> forall d | day <= d <= w.now :: Weekend(d) || w.api(d).Prices?
    decreases w.now - day
  {
    if day <= w.now && (Weekend(day) || w.api(day).Prices?) {
      StopBounds(w, day + 1);
    }
  }

  lemma {:induction false} SavedBounds(w: World, before: Option<int>, from: int, until: int)
    requires before.Some? ==> before.value < from
    ensures SavedBy(w, before, from, until) == before
         || (SavedBy(w, before, from, until).Some? && from <= SavedBy(w, before, from, until).value < until)
    decreases until - from
  {
    if from < until {
      SavedBounds(w, before, from, until - 1);
    }
  }

  /** The checkpoint saved by the way is the last trading day whose saving did not fail. */
  lemma {:induction false} SavedIsLast(w: World, before: Option<int>, from: int, until: int)
    ensures var saved := SavedBy(w, before, from, until);
      || (saved == before && forall d | from <= d < until :: !TradingDay(w, d) || w.saveFails(d))
      || (&& saved.Some? && from <= saved.value < until && TradingDay(w, saved.value) && !w.saveFails(saved.value)
          && forall d | saved.value < d < until :: !TradingDay(w, d) || w.saveFails(d))
    decreases until - from
  {
    hide TradingDay;
    if from < until {
      SavedIsLast(w, before, from, until - 1);
    }
  }

  /** One run: the checkpoint does not move back, and what lies up to the new one has been covered. */
  lemma {:induction false} RunCovers(s: State, w: World, first: int)
    requires StartDay(s, w) <= w.now + 1
    requires s.checkpoint.None? ==> first == w.fiveYearsAgo
    requires s.checkpoint.Some? ==> Covered(s, first, s.checkpoint.value)
    ensures var t := After(s, w);
      && s.fetched <= t.fetched && s.handed <= t.handed && s.stored <= t.stored
      && (t.checkpoint.Some? && (s.checkpoint.Some? || !(w.brandsFail || w.getFails))
          ==> Covered(t, first, t.checkpoint.value))
      && (t.checkpoint.Some? && s.checkpoint.Some? ==> s.checkpoint.value <= t.checkpoint.value)
      && (!w.brandsFail && !w.getFails && Completes(s, w) ==> Covered(t, first, w.now))
  {
    if !w.brandsFail && !w.getFails {
      var start := StartDay(s, w);
      StopBounds(w, start);
      SavedBounds(w, s.checkpoint, start, StopDay(w, start));
      hide StopDay, SavedBy;
      var t := After(s, w);
      forall d | first <= d < StopDay(w, start) && !Weekend(d) ensures d in t.fetched {
        assert d < start ==> d in s.fetched;
        assert d >= start ==> d in Weekdays(start, StopDay(w, start));
      }
    }
  }

  /** Along a chain, whatever fails, each weekday from the first start up to the checkpoint has been asked for, and the
      checkpoint never moves back. What became of the answers is `ChainHandsOver`. */
  lemma {:induction false} ChainCovers(states: seq<State>, worlds: seq<World>, k: nat)
    requires Chain(states, worlds) && k < |states|
    requires worlds[0].fiveYearsAgo <= worlds[0].now + 1
    ensures states[k].checkpoint.Some? ==>
      states[k].checkpoint.value <= worlds[if k == 0 then 0 else k - 1].now
      && Covered(states[k], worlds[0].fiveYearsAgo, states[k].checkpoint.value)
    ensures k > 0 && states[k - 1].checkpoint.Some? && states[k].checkpoint.Some? ==>
      states[k - 1].checkpoint.value <= states[k].checkpoint.value
    ensures k > 0 && !worlds[k - 1].brandsFail && !worlds[k - 1].getFails && Completes(states[k - 1], worlds[k - 1]) ==>
      Covered(states[k], worlds[0].fiveYearsAgo, worlds[k - 1].now)
  {
    hide After, Covered, Completes, StopDay;
    if k > 0 {
      ChainCovers(states, worlds, k - 1);
      assert states[k] == After(states[k - 1], worlds[k - 1]);
      assert k > 1 ==> worlds[k - 2].now <= worlds[k - 1].now;
      RunCovers(states[k - 1], worlds[k - 1], worlds[0].fiveYearsAgo);
      CheckpointNotAhead(states[k - 1], worlds[k - 1]);
    }
  }

  /** A run worked the day off: the service answered, and what it answered was handed to the repositories, which hold it
      unless they refused it. */
  ghost predicate WorkedOffBy(s: State, w: World, day: int, t: State) {
    && !w.brandsFail && !w.getFails && StartDay(s, w) <= day < StopDay(w, StartDay(s, w)) && w.api(day).Prices?
    && (w.api(day).count > 0 ==> day in t.handed && (w.storeFails(day) || day in t.stored))
  }

  /** Every weekday of the stretch was worked off by one of the first k runs. */
  ghost predicate WorkedOff(states: seq<State>, worlds: seq<World>, k: nat, first: int, upTo: int)
    requires k < |states| && k <= |worlds|
  {
    forall d | first <= d <= upTo && !Weekend(d) ::
      exists j | 0 <= j < k :: WorkedOffBy(states[j], worlds[j], d, states[k])
  }

  /** Along a chain, whatever fails, each weekday from the first start up to the checkpoint has been answered by the
      service in one of the runs, and its prices, if there were any, have been handed over; a run that completes extends
      this to its own date. */
  lemma {:induction false} ChainHandsOver(states: seq<State>, worlds: seq<World>, k: nat)
    requires Chain(states, worlds) && k < |states|
    requires worlds[0].fiveYearsAgo <= worlds[0].now + 1
    ensures states[k].checkpoint.Some? ==>
      WorkedOff(states, worlds, k, worlds[0].fiveYearsAgo, states[k].checkpoint.value)
    ensures k > 0 && !worlds[k - 1].brandsFail && !worlds[k - 1].getFails && Completes(states[k - 1], worlds[k - 1]) ==>
      WorkedOff(states, worlds, k, worlds[0].fiveYearsAgo, worlds[k - 1].now)
  {
    if k > 0 {
      ChainHandsOver(states, worlds, k - 1);
      ChainCovers(states, worlds, k - 1);
      assert k > 1 ==> worlds[k - 2].now <= worlds[k - 1].now;
      var s, w := states[k - 1], worlds[k - 1];
      assert states[k] == After(s, w);
      WorkedOffUpTo(s, w);
      hide After, StopDay, WorkedOffBy;
      forall d | worlds[0].fiveYearsAgo <= d <= DoneUpTo(s, w) && !Weekend(d)
        ensures exists j | 0 <= j < k :: WorkedOffBy(states[j], worlds[j], d, states[k])
      {
        if d < StartDay(s, w) {
          var j :| 0 <= j < k - 1 && WorkedOffBy(states[j], worlds[j], d, s);
          StaysWorkedOff(states[j], worlds[j], d, s, w);
        } else {
          WorkedOffNow(s, w, d);
        }
      }
    }
  }

  /** The last day that is worked off once the run is over. */
  function DoneUpTo(s: State, w: World): int {
    if w.brandsFail || w.getFails then StartDay(s, w) - 1 else StopDay(w, StartDay(s, w)) - 1
  }

  lemma {:induction false} WorkedOffUpTo(s: State, w: World)
    requires StartDay(s, w) <= w.now + 1
    ensures var t := After(s, w);
      && (t.checkpoint.Some? && (s.checkpoint.Some? || !(w.brandsFail || w.getFails))
          ==> t.checkpoint.value <= DoneUpTo(s, w))
      && (!w.brandsFail && !w.getFails && Completes(s, w) ==> w.now <= DoneUpTo(s, w))
  {
    StopBounds(w, StartDay(s, w));
    SavedBounds(w, s.checkpoint, StartDay(s, w), StopDay(w, StartDay(s, w)));
    hide StopDay, SavedBy;
  }

  lemma {:induction false} WorkedOffNow(s: State, w: World, d: int)
    requires StartDay(s, w) <= d <= DoneUpTo(s, w) && !Weekend(d) && StartDay(s, w) <= w.now + 1
    ensures WorkedOffBy(s, w, d, After(s, w))
  {
    StopBounds(w, StartDay(s, w));
    hide StopDay, SavedBy;
  }

  lemma {:induction false} StaysWorkedOff(s: State, w: World, d: int, before: State, next: World)
    requires WorkedOffBy(s, w, d, before)
    ensures WorkedOffBy(s, w, d, After(before, next))
  {
    hide StopDay, SavedBy;
  }

  lemma {:induction false} CheckpointNotAhead(s: State, w: World)
    requires StartDay(s, w) <= w.now + 1
    ensures var t := After(s, w); t.checkpoint.Some? ==> t.checkpoint.value <= w.now
  {
    StopBounds(w, StartDay(s, w));
    SavedBounds(w, s.checkpoint, StartDay(s, w), StopDay(w, StartDay(s, w)));
    hide StopDay, SavedBy;
  }

  /** An interrupted run that saves its checkpoint is resumed at the very day that failed. */
  lemma {:induction false} FailedDayIsNext(s: State, w: World, next: World)
    requires StartDay(s, w) <= w.now + 1 && !w.brandsFail && !w.getFails && !Completes(s, w) && !w.lastSaveFails
    ensures var failed := StopDay(w, StartDay(s, w));
      && !Weekend(failed) && w.api(failed).Failure?
      && After(s, w).checkpoint.Some? && StartDay(After(s, w), next) == failed
  {
    StopBounds(w, StartDay(s, w));
  }

  /** Every trading day of the stretch a run works off is handed over, but not every one need be stored: the run goes
      on, and moves its checkpoint, past days the repositories refuse. */
  lemma {:induction false} HandedAndStored(s: State, w: World, d: int)
    requires !w.brandsFail && !w.getFails && StartDay(s, w) <= d < StopDay(w, StartDay(s, w))
    ensures TradingDay(w, d) ==> d in After(s, w).handed
    ensures TradingDay(w, d) && d !in s.stored ==> (d in After(s, w).stored <==> !w.storeFails(d))
  {
    hide StopDay, SavedBy;
  }

  /** A run without an error need not be complete: it is exactly when no request of its weekdays fails. */
  lemma {:induction false} NoErrorCompleteIff(s: State, w: World)
    requires !w.brandsFail && !w.getFails && !w.lastSaveFails
    ensures Completes(s, w) <==> forall d | StartDay(s, w) <= d <= w.now :: Weekend(d) || w.api(d).Prices?
  {
    StopBounds(w, StartDay(s, w));
  }

  /** What a run adds: it asks only for weekdays of its stretch that the service answers, hands over only those of them
      that had prices, and stores only what it hands over and the repositories accept. */
  lemma {:induction false} NothingElseDone(s: State, w: World, d: int)
    ensures var t := After(s, w);
      && (d in t.fetched && d !in s.fetched ==>
            StartDay(s, w) <= d <= w.now && !Weekend(d) && w.api(d).Prices?)
      && (d in t.handed && d !in s.handed ==>
            StartDay(s, w) <= d <= w.now && !Weekend(d) && w.api(d).Prices? && w.api(d).count > 0)
      && (d in t.stored && d !in s.stored ==> d in t.handed && !w.storeFails(d))
  {
    StopBounds(w, StartDay(s, w));
    hide StopDay, SavedBy;
  }
}
