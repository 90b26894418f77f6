/** Creating the picks of a day and announcing them: a protocol of fallible steps that may be retried at any time. */
module PickNotification {
  import opened Decimals
  import opened PickSelection
  import PickMessages

  /** A stored pick. The table has no column for the stock's name. */
  datatype Row = Row(pick: DailyPick, notified: bool)

  /** A message handed to the chat service; `thread` is the position of the message it replies to. */
  datatype Message = Message(title: string, body: string, thread: Option<nat>)

  /** The wording of titles, blocks and legend. */
  datatype Wording = Wording(titleTail: seq<DailyPick> -> string, blockOf: (nat, DailyPick) -> string, legend: string) {
    function Title(picks: seq<DailyPick>): (title: string)
      ensures title != ""
    {
      "翌営業日の買い候補 " + titleTail(picks)
    }
  }

  /** The table, by date and in rank order, and everything the chat service has accepted. */
  datatype State = State(rows: map<int, seq<Row>>, sent: seq<Message>)

  /** Which steps of a run fail. Sending fails from body `sendFrom` on. */
  datatype Faults = Faults(dates: bool, list: bool, screen: bool, store: bool, sendFrom: Option<nat>, mark: bool) {
    predicate Any() {
      dates || list || screen || store || sendFrom.Some? || mark
    }
  }

  datatype Request = Request(dates: seq<int>, candidates: seq<Candidate>, topN: int, maxPerSector: int, force: bool,
                             faults: Faults)

  const WINDOW_DAYS := 120

  const DEFAULT_TOP_N := 25

  const DEFAULT_MAX_PER_SECTOR := 4

  function TopN(topN: int): nat {
    if topN <= 0 then DEFAULT_TOP_N else topN
  }

  function MaxPerSector(maxPerSector: int): int {
    if maxPerSector < 0 then DEFAULT_MAX_PER_SECTOR else maxPerSector
  }

  function Screened(r: Request): seq<DailyPick>
    requires |r.dates| > 0
  {
    var picked := Picks(r.candidates, TopN(r.topN), MaxPerSector(r.maxPerSector));
    seq(|picked|, i requires 0 <= i < |picked| => DailyPick(r.dates[0], picked[i], i + 1))
  }

  function Unnamed(pick: DailyPick): DailyPick {
    pick.(candidate := pick.candidate.(name := ""))
  }

  function Stored(picks: seq<DailyPick>): (rows: seq<Row>)
    ensures |rows| == |picks|
  {
    seq(|picks|, i requires 0 <= i < |picks| => Row(Unnamed(picks[i]), false))
  }

  function Marked(rows: seq<Row>): (marked: seq<Row>)
    ensures |marked| == |rows|
  {
    seq(|rows|, i requires 0 <= i < |rows| => rows[i].(notified := true))
  }

  function Loaded(rows: seq<Row>): (picks: seq<DailyPick>)
    ensures |picks| == |rows|
  {
    seq(|rows|, i requires 0 <= i < |rows| => rows[i].pick)
  }

  ghost predicate AllNotified(rows: seq<Row>) {
    forall i | 0 <= i < |rows| :: rows[i].notified
  }

  ghost predicate NoneNotified(rows: seq<Row>) {
    forall i | 0 <= i < |rows| :: !rows[i].notified
  }

  // ----- What has been announced

  function Thread(title: string, bodies: seq<string>, at: nat): (thread: seq<Message>)
    ensures |thread| == |bodies|
  {
    seq(|bodies|, i requires 0 <= i < |bodies| => Message(title, bodies[i], if i == 0 then None else Some(at)))
  }

  /** The title and bodies are the picks' messages: packed greedily, nothing missing, the legend at the end. */
  ghost predicate IsMessageOf(w: Wording, picks: seq<DailyPick>, title: string, bodies: seq<string>) {
    && title == w.Title(picks)
    && var blocks := PickMessages.PickBlocks(picks, w.blockOf);
      exists chunks ::
        && PickMessages.Tiles(blocks, chunks, |picks|)
        && (forall c | c in chunks :: PickMessages.PackedFully(blocks, c, PickMessages.SLACK_MAX_RUNES))
        && bodies == PickMessages.Bodies(chunks, w.legend, PickMessages.SLACK_MAX_RUNES)
  }

  ghost predicate SentAt(sent: seq<Message>, title: string, bodies: seq<string>, at: nat) {
    at + |bodies| <= |sent| && sent[at..at + |bodies|] == Thread(title, bodies, at)
  }

  /** Every body for the picks went out, in order and in one thread. */
  ghost predicate Announced(w: Wording, sent: seq<Message>, picks: seq<DailyPick>) {
    exists title, bodies, at: nat :: IsMessageOf(w, picks, title, bodies) && SentAt(sent, title, bodies, at)
  }

  lemma {:induction false} StillAnnounced(w: Wording, sent: seq<Message>, more: seq<Message>, picks: seq<DailyPick>)
    requires Announced(w, sent, picks) && sent <= more
    ensures Announced(w, more, picks)
  {
    hide IsMessageOf;
    var title, bodies, at: nat :| IsMessageOf(w, picks, title, bodies) && SentAt(sent, title, bodies, at);
    assert more[at..at + |bodies|] == sent[at..at + |bodies|];
    assert SentAt(more, title, bodies, at);
  }

  /** The rows of one date: picks of that date ranked from 1, without names, all notified or none; and notified only
      if messages for those picks, possibly still with their names, all went out. */
  ghost predicate SoundRows(w: Wording, date: int, rows: seq<Row>, sent: seq<Message>) {
    && rows != []
    && (forall i | 0 <= i < |rows| ::
          rows[i].pick.pickDate == date && rows[i].pick.rank == i + 1 && rows[i].pick.candidate.name == "")
    && (NoneNotified(rows) || (AllNotified(rows) && exists picks :: Agrees(picks, rows) && Announced(w, sent, picks)))
  }

  /** The picks are those of the rows, up to the names. */
  ghost predicate Agrees(picks: seq<DailyPick>, rows: seq<Row>) {
    |picks| == |rows| && forall i | 0 <= i < |rows| :: Unnamed(picks[i]) == rows[i].pick
  }

  ghost predicate Sound(w: Wording, s: State) {
    forall date | date in s.rows :: SoundRows(w, date, s.rows[date], s.sent)
  }

  // ----- One run

  function RowsOf(s: State, date: int): seq<Row> {
    if date in s.rows then s.rows[date] else []
  }

  /** Everything one run may do to the state, step failures included. */
  ghost predicate Ran(w: Wording, before: State, after: State, r: Request, err: bool) {
    && before.sent <= after.sent && (err ==> r.faults.Any())
    && if r.faults.dates || |r.dates| < WINDOW_DAYS then after == before && err == r.faults.dates
       else if !r.force && r.faults.list then after == before && err
       else if !r.force && RowsOf(before, r.dates[0]) != [] then
         if AllNotified(RowsOf(before, r.dates[0])) then after == before && !err
         else Renotified(w, before, after, r, err)
       else if r.faults.screen || Screened(r) == [] || r.faults.store then
         after == before && err == (r.faults.screen || Screened(r) != [])
       else Recreated(w, before, after, r, err)
  }

  /** The stored rows were announced again, and marked unless a step failed. */
  ghost predicate Renotified(w: Wording, before: State, after: State, r: Request, err: bool)
    requires |r.dates| > 0
  {
    var date := r.dates[0];
    var rows := RowsOf(before, date);
    && rows != [] && !AllNotified(rows)
    && if err then after.rows == before.rows
       else after.rows == before.rows[date := Marked(rows)] && Announced(w, after.sent, Loaded(rows))
  }

  /** The date's rows were replaced by new picks, and announced and marked unless a step failed. */
  ghost predicate Recreated(w: Wording, before: State, after: State, r: Request, err: bool)
    requires |r.dates| > 0
  {
    var picks := Screened(r);
    && picks != []
    && if err then after.rows == before.rows[r.dates[0] := Stored(picks)]
       else after.rows == before.rows[r.dates[0] := Marked(Stored(picks))] && Announced(w, after.sent, picks)
  }

  // ----- The protocol

  class PickStore {
    var rows: map<int, seq<Row>>
    var sent: seq<Message>
    const wording: Wording

    constructor (wording: Wording)
      ensures rows == map[] && sent == [] && this.wording == wording
    {
      this.rows, this.sent, this.wording := map[], [], wording;
    }

    function Now(): State
      reads this
    {
      State(rows, sent)
    }

    /** Deletes the date's rows and inserts the picks, both or neither. */
    method Replace(date: int, picks: seq<DailyPick>, fails: bool) returns (err: bool)
      modifies this`rows
      ensures err == fails && rows == if fails then old(rows) else old(rows)[date := Stored(picks)]
    {
      if fails {
        return true;
      }
      rows := rows - {date};
      rows := rows[date := Stored(picks)];
      err := false;
    }

    /** Sends the bodies in order, the later ones as replies to the first, up to the one whose sending fails. */
    method SendAll(title: string, bodies: seq<string>, sendFrom: Option<nat>) returns (err: bool)
      modifies this`sent
      ensures err <==> sendFrom.Some? && sendFrom.value < |bodies|
      ensures var thread := Thread(title, bodies, |old(sent)|);
        sent == old(sent) + if err then thread[..sendFrom.value] else thread
    {
      ghost var thread := Thread(title, bodies, |sent|);
      var ts: Option<nat> := None;
      var i := 0;
      while i < |bodies|
        invariant 0 <= i <= |bodies| && sent == old(sent) + thread[..i]
        invariant sendFrom.Some? ==> i <= sendFrom.value
        invariant ts == if i == 0 then None else Some(|old(sent)|)
      {
        if sendFrom.Some? && i >= sendFrom.value {
          return true;
        }
        assert thread[..i + 1] == thread[..i] + [thread[i]];
        sent := sent + [Message(title, bodies[i], ts)];
        if ts.None? {
          ts := Some(|sent| - 1);
        }
        i := i + 1;
      }
      err := false;
    }

    /** Sends the messages for the picks, then marks the date notified. */
    method Notify(date: int, picks: seq<DailyPick>, faults: Faults) returns (err: bool)
      requires picks != []
      modifies this
      ensures old(sent) <= sent && (err ==> faults.Any())
      ensures err ==> rows == old(rows)
      ensures !err ==> Announced(wording, sent, picks)
      ensures !err ==> rows == if date in old(rows) then old(rows)[date := Marked(old(rows)[date])] else old(rows)
    {
      hide Announced, IsMessageOf, SentAt;
      var title, bodies := FormatMessages(wording, picks);
      if title == "" {
        return false;
      }
      ghost var before := sent;
      err := SendAll(title, bodies, faults.sendFrom);
      if err {
        return true;
      }
      ThreadAnnounced(wording, before, picks, title, bodies);
      if faults.mark {
        return true;
      }
      if date in rows {
        rows := rows[date := Marked(rows[date])];
      }
    }

    method NotifyIfPending(date: int, existing: seq<Row>, faults: Faults) returns (err: bool)
      requires date in rows && rows[date] == existing && existing != []
      modifies this
      ensures old(sent) <= sent && (err ==> faults.Any())
      ensures AllNotified(existing) ==> !err && rows == old(rows) && sent == old(sent)
      ensures err ==> rows == old(rows)
      ensures !AllNotified(existing) && !err ==>
        rows == old(rows)[date := Marked(existing)] && Announced(wording, sent, Loaded(existing))
    {
      var i := 0;
      while i < |existing|
        invariant 0 <= i <= |existing| && forall j | 0 <= j < i :: existing[j].notified
      {
        if !existing[i].notified {
          err := Notify(date, Loaded(existing), faults);
          return err;
        }
        i := i + 1;
      }
      err := false;
    }

    method CreateDailyStockPicks(r: Request) returns (err: bool)
      modifies this
      ensures Ran(wording, old(Now()), Now(), r, err)
    {
      hide Announced, Stored, Marked, Loaded, Picks;
      var topN, maxPerSector := TopN(r.topN), MaxPerSector(r.maxPerSector);
      if r.faults.dates {
        return true;
      }
      if |r.dates| < WINDOW_DAYS {
        return false;
      }
      var pickDate := r.dates[0];
      if !r.force {
        if r.faults.list {
          return true;
        }
        var existing := RowsOf(Now(), pickDate);
        if |existing| > 0 {
          err := NotifyIfPending(pickDate, existing, r.faults);
          return err;
        }
      }
      if r.faults.screen {
        return true;
      }
      var picks := RankDailyPickCandidates(r.candidates, pickDate, topN, maxPerSector);
      assert picks == Screened(r);
      if |picks| == 0 {
        return false;
      }
      err := Replace(pickDate, picks, r.faults.store);
      if err {
        return true;
      }
      err := Notify(pickDate, picks, r.faults);
      hide Screened;
      MapUpdateTwice(old(rows), pickDate, Stored(picks), Marked(Stored(picks)));
    }
  }

  lemma {:induction false} MapUpdateTwice(m: map<int, seq<Row>>, k: int, v: seq<Row>, w: seq<Row>)
    ensures m[k := v][k := w] == m[k := w] && m[k := v][k] == v
  {
  }

  method FormatMessages(w: Wording, picks: seq<DailyPick>) returns (title: string, bodies: seq<string>)
    requires picks != []
    ensures IsMessageOf(w, picks, title, bodies) && title != ""
  {
    ghost var chunks;
    title, bodies, chunks := PickMessages.FormatDailyStockPickMessages(picks, ps => w.Title(ps), w.blockOf, w.legend,
      PickMessages.SLACK_MAX_RUNES);
  }

  lemma {:induction false} ThreadAnnounced(w: Wording, before: seq<Message>, picks: seq<DailyPick>, title: string,
                                           bodies: seq<string>)
    requires IsMessageOf(w, picks, title, bodies)
    ensures Announced(w, before + Thread(title, bodies, |before|), picks)
  {
    hide IsMessageOf;
    assert SentAt(before + Thread(title, bodies, |before|), title, bodies, |before|);
  }

  // ----- All runs

  lemma {:induction false} StepSound(w: Wording, before: State, after: State, r: Request, err: bool)
    requires Sound(w, before) && Ran(w, before, after, r, err)
    ensures Sound(w, after)
  {
    hide Announced, Stored, Marked, Loaded, Screened, SoundRows;
    forall date | date in after.rows ensures SoundRows(w, date, after.rows[date], after.sent) {
      if date in before.rows {
        RowsStaySound(w, date, before.rows[date], before.sent, after.sent);
      }
      if after != before && date == r.dates[0] && after.rows[date] != RowsOf(before, date) {
        var created := Stored(Screened(r));
        if Recreated(w, before, after, r, err) && after.rows[date] == (if err then created else Marked(created)) {
          FreshRowsSound(w, r, after.sent, err);
        } else {
          MarkedRowsSound(w, date, before.rows[date], after.sent);
        }
      }
    }
  }

  lemma {:induction false} RowsStaySound(w: Wording, date: int, rows: seq<Row>, sent: seq<Message>, more: seq<Message>)
    requires SoundRows(w, date, rows, sent) && sent <= more
    ensures SoundRows(w, date, rows, more)
  {
    hide Announced, Agrees;
    if !NoneNotified(rows) {
      var picks :| Agrees(picks, rows) && Announced(w, sent, picks);
      StillAnnounced(w, sent, more, picks);
    }
  }

  lemma {:induction false} MarkedRowsSound(w: Wording, date: int, rows: seq<Row>, sent: seq<Message>)
    requires SoundRows(w, date, rows, sent) && Announced(w, sent, Loaded(rows))
    ensures SoundRows(w, date, Marked(rows), sent)
  {
    hide Announced;
    assert Agrees(Loaded(rows), Marked(rows));
  }

  lemma {:induction false} FreshRowsSound(w: Wording, r: Request, sent: seq<Message>, err: bool)
    requires |r.dates| > 0 && Screened(r) != [] && (err || Announced(w, sent, Screened(r)))
    ensures SoundRows(w, r.dates[0], if err then Stored(Screened(r)) else Marked(Stored(Screened(r))), sent)
  {
    hide Announced, Picks;
    assert Agrees(Screened(r), Marked(Stored(Screened(r))));
  }

  /** A history: each run takes one state to the next. */
  ghost predicate Runs(w: Wording, states: seq<State>, requests: seq<Request>, errs: seq<bool>) {
    && |states| == |requests| + 1 && |errs| == |requests|
    && (forall k | 0 <= k < |requests| :: Ran(w, states[k], states[k + 1], requests[k], errs[k]))
  }

  /** In every history from an empty table, at every point, each date's rows are all there and all notified or none,
      and notified rows have been announced in full. */
  lemma {:induction false} AllRunsSound(w: Wording, states: seq<State>, requests: seq<Request>, errs: seq<bool>, k: nat)
    requires Runs(w, states, requests, errs) && states[0].rows == map[] && k < |states|
    ensures Sound(w, states[k])
  {
    hide Ran, SoundRows;
    if k > 0 {
      AllRunsSound(w, states, requests, errs, k - 1);
      StepSound(w, states[k - 1], states[k], requests[k - 1], errs[k - 1]);
    }
  }

  /** A run that ends without an error, on a date with enough history and with rows or picks, leaves it notified. */
  lemma {:induction false} SuccessMeansNotified(w: Wording, before: State, after: State, r: Request)
    requires Ran(w, before, after, r, false) && |r.dates| >= WINDOW_DAYS
    requires Screened(r) != [] || (!r.force && RowsOf(before, r.dates[0]) != [])
    ensures RowsOf(after, r.dates[0]) != [] && AllNotified(RowsOf(after, r.dates[0]))
  {
    hide Announced, Screened, Stored;
  }

  /** Without force a fully notified date is left alone, whatever fails. */
  lemma {:induction false} NotifiedLeftAlone(w: Wording, before: State, after: State, r: Request, err: bool)
    requires Ran(w, before, after, r, err) && |r.dates| > 0 && !r.force
    requires RowsOf(before, r.dates[0]) != [] && AllNotified(RowsOf(before, r.dates[0]))
    ensures after == before
  {
    hide Announced, Screened;
  }

  /** So in any history without force a notified date keeps its rows for ever. */
  lemma {:induction false} NotifiedForEver(w: Wording, states: seq<State>, requests: seq<Request>, errs: seq<bool>,
                                           date: int, i: nat, j: nat)
    requires Runs(w, states, requests, errs) && i <= j < |states|
    requires forall k | i <= k < j :: !requests[k].force
    requires RowsOf(states[i], date) != [] && AllNotified(RowsOf(states[i], date))
    ensures RowsOf(states[j], date) == RowsOf(states[i], date)
    decreases j
  {
    hide Announced, Screened, AllNotified, Stored, Marked;
    if i < j {
      NotifiedForEver(w, states, requests, errs, date, i, j - 1);
      var r := requests[j - 1];
      assert Ran(w, states[j - 1], states[j], r, errs[j - 1]);
      if |r.dates| > 0 && r.dates[0] == date {
        NotifiedLeftAlone(w, states[j - 1], states[j], r, errs[j - 1]);
      }
    }
  }

  /** Whoever reads a pick's block sees its name: another name makes another block. */
  ghost predicate ShowsNames(w: Wording) {
    forall rank: nat, p: DailyPick, name: string ::
      w.blockOf(rank, p) == w.blockOf(rank, p.(candidate := p.candidate.(name := name))) ==> p.candidate.name == name
  }

  /** After a run that stored its picks but could not announce them, the unforced retry announces the stored rows,
      which carry no names. The picks announced are those of the first run, and the blocks of text sent are those the
      first run would have sent, exactly when no pick had a name to lose. */
  lemma {:induction false} RetryLosesNames(w: Wording, start: State, stored: State, retried: State, first: Request,
                                           retry: Request)
    requires |first.dates| >= WINDOW_DAYS && |retry.dates| >= WINDOW_DAYS && retry.dates[0] == first.dates[0]
    requires Recreated(w, start, stored, first, true) && !retry.force && Ran(w, stored, retried, retry, false)
    requires ShowsNames(w)
    ensures var picks := Screened(first); var loaded := Loaded(Stored(picks));
      var nameless := forall i | 0 <= i < |picks| :: picks[i].candidate.name == "";
      && Announced(w, retried.sent, loaded)
      && (loaded == picks <==> nameless)
      && (PickMessages.PickBlocks(loaded, w.blockOf) == PickMessages.PickBlocks(picks, w.blockOf) <==> nameless)
  {
    hide Announced, Screened;
    var picks := Screened(first);
    var loaded := Loaded(Stored(picks));
    assert !Stored(picks)[0].notified;
    hide Ran, Recreated;
    BlocksOfUnnamed(w, picks, loaded);
  }

  lemma {:induction false} BlocksOfUnnamed(w: Wording, picks: seq<DailyPick>, loaded: seq<DailyPick>)
    requires ShowsNames(w) && |loaded| == |picks| && forall i | 0 <= i < |picks| :: loaded[i] == Unnamed(picks[i])
    ensures PickMessages.PickBlocks(loaded, w.blockOf) == PickMessages.PickBlocks(picks, w.blockOf)
       <==> forall i | 0 <= i < |picks| :: picks[i].candidate.name == ""
  {
    var mine, theirs := PickMessages.PickBlocks(loaded, w.blockOf), PickMessages.PickBlocks(picks, w.blockOf);
    forall i | 0 <= i < |picks| ensures mine[i] == theirs[i] <==> picks[i].candidate.name == "" {
      assert Unnamed(picks[i]) == picks[i].(candidate := picks[i].candidate.(name := ""));
    }
    if mine == theirs {
      forall i | 0 <= i < |picks| ensures picks[i].candidate.name == "" {
        assert mine[i] == theirs[i];
      }
    }
  }
}
