/** A pool of workers fed over an unbuffered channel, as interleaved steps. Jobs are numbered in the order they are fed;
    the first error cancels the pool. */
module WorkerPool {

  datatype Status = Idle | Busy(job: nat) | Exited | Failed(job: nat)

  /** A worker and the jobs it has finished, in order. */
  datatype Worker = Worker(status: Status, finished: seq<nat>)

  /** `fed` jobs have been handed over; `closed` once the feeder has returned and shut the channel; `err` once the group
      has recorded an error. */
  datatype Pool = Pool(jobs: nat, fed: nat, closed: bool, cancelled: bool, err: bool, workers: seq<Worker>)

  datatype Step =
    | Send(w: nat)      // the feeder meets an idle worker
    | Finish(w: nat)    // a worker finishes its job
    | Fail(w: nat)      // a worker's job fails: the worker returns, the group is cancelled
    | FeederDone        // the feeder has nothing left and closes the channel
    | FeederCancelled   // the feeder sees the cancellation and closes the channel
    | Exit(w: nat)      // an idle worker sees the closed channel
    | Cancel            // the caller cancels

  function Start(jobs: nat, concurrency: nat): (s: Pool)
    ensures s.workers == seq(concurrency, _ => Worker(Idle, []))
  {
    Pool(jobs, 0, false, false, false, seq(concurrency, _ => Worker(Idle, [])))
  }

  predicate Enabled(s: Pool, step: Step) {
    match step
    case Send(w) => !s.closed && s.fed < s.jobs && w < |s.workers| && s.workers[w].status.Idle?
    case Finish(w) => w < |s.workers| && s.workers[w].status.Busy?
    case Fail(w) => w < |s.workers| && s.workers[w].status.Busy?
    case FeederDone => !s.closed && s.fed == s.jobs
    case FeederCancelled => !s.closed && s.fed < s.jobs && s.cancelled
    case Exit(w) => s.closed && w < |s.workers| && s.workers[w].status.Idle?
    case Cancel => !s.cancelled
  }

  function Apply(s: Pool, step: Step): Pool
    requires Enabled(s, step)
  {
    match step
    case Send(w) => s.(fed := s.fed + 1, workers := s.workers[w := s.workers[w].(status := Busy(s.fed))])
    case Finish(w) =>
      var me := s.workers[w];
      s.(workers := s.workers[w := Worker(Idle, me.finished + [me.status.job])])
    case Fail(w) =>
      var me := s.workers[w];
      s.(err := true, cancelled := true, workers := s.workers[w := me.(status := Failed(me.status.job))])
    case FeederDone => s.(closed := true)
    case FeederCancelled => s.(closed := true, err := true)
    case Exit(w) => s.(workers := s.workers[w := s.workers[w].(status := Exited)])
    case Cancel => s.(cancelled := true)
  }

  /** Every goroutine has returned. */
  predicate Done(s: Pool) {
    s.closed && forall w | 0 <= w < |s.workers| :: s.workers[w].status.Exited? || s.workers[w].status.Failed?
  }

  // ----- Each job goes to one worker

  /** The jobs a worker has taken. */
  function Taken(w: Worker): multiset<nat> {
    multiset(w.finished) + if w.status.Busy? || w.status.Failed? then multiset{w.status.job} else multiset{}
  }

  function AllTaken(ws: seq<Worker>): multiset<nat> {
    if ws == [] then multiset{} else AllTaken(ws[..|ws| - 1]) + Taken(ws[|ws| - 1])
  }

  function Range(n: nat): (r: seq<nat>)
    ensures |r| == n && forall i | 0 <= i < n :: r[i] == i
  {
    seq(n, i => i)
  }

  ghost predicate Inv(s: Pool) {
    && s.fed <= s.jobs && AllTaken(s.workers) == multiset(Range(s.fed))
    && (s.closed && !s.err ==> s.fed == s.jobs)
    && (forall w | 0 <= w < |s.workers| :: s.workers[w].status.Failed? ==> s.err && s.cancelled)
    && (forall w | 0 <= w < |s.workers| :: s.workers[w].status.Exited? ==> s.closed)
  }

  lemma {:induction false} TakenUpdate(ws: seq<Worker>, w: nat, me: Worker)
    requires w < |ws|
    ensures AllTaken(ws[w := me]) + Taken(ws[w]) == AllTaken(ws) + Taken(me)
    decreases |ws|
  {
    hide Taken;
    var n := |ws| - 1;
    if w < n {
      assert ws[w := me][..n] == ws[..n][w := me];
      TakenUpdate(ws[..n], w, me);
      SumsAgree(AllTaken(ws[..n][w := me]), Taken(ws[w]), AllTaken(ws[..n]), Taken(me), Taken(ws[n]));
    } else {
      assert ws[w := me][..n] == ws[..n];
    }
  }

  lemma {:induction false} SumsAgree(a: multiset<nat>, b: multiset<nat>, c: multiset<nat>, d: multiset<nat>,
                                     e: multiset<nat>)
    requires a + b == c + d
    ensures (a + e) + b == (c + e) + d
  {
    assert (a + e) + b == (a + b) + e && (c + e) + d == (c + d) + e;
  }

  lemma {:induction false} RangeNext(n: nat)
    ensures multiset(Range(n + 1)) == multiset(Range(n)) + multiset{n}
  {
    assert Range(n + 1) == Range(n) + [n];
  }

  lemma {:induction false} StartInv(jobs: nat, concurrency: nat)
    ensures Inv(Start(jobs, concurrency))
  {
    NothingTaken(Start(jobs, concurrency).workers);
  }

  lemma {:induction false} NothingTaken(ws: seq<Worker>)
    requires forall w | 0 <= w < |ws| :: ws[w] == Worker(Idle, [])
    ensures AllTaken(ws) == multiset{}
    decreases |ws|
  {
    if ws != [] {
      NothingTaken(ws[..|ws| - 1]);
    }
  }

  lemma {:induction false} StepInv(s: Pool, step: Step)
    requires Inv(s) && Enabled(s, step)
    ensures Inv(Apply(s, step))
  {
    hide AllTaken, Range, Taken;
    var t := Apply(s, step);
    if step.Send? {
      TakesOne(s.workers[step.w], t.workers[step.w], s.fed);
      RangeNext(s.fed);
      TakenUpdate(s.workers, step.w, t.workers[step.w]);
      OneMore(AllTaken(t.workers), Taken(s.workers[step.w]), AllTaken(s.workers), s.fed);
    } else if step.Finish? || step.Fail? || step.Exit? {
      TakesNone(s.workers[step.w], t.workers[step.w]);
      TakenUpdate(s.workers, step.w, t.workers[step.w]);
      OneMore(AllTaken(t.workers), Taken(s.workers[step.w]), AllTaken(s.workers), s.fed);
    }
  }

  lemma {:induction false} TakesOne(me: Worker, next: Worker, job: nat)
    requires me.status.Idle? && next == me.(status := Busy(job))
    ensures Taken(next) == Taken(me) + multiset{job}
  {
  }

  lemma {:induction false} TakesNone(me: Worker, next: Worker)
    requires
      || (me.status.Busy? && next == Worker(Idle, me.finished + [me.status.job]))
      || (me.status.Busy? && next == me.(status := Failed(me.status.job)))
      || (me.status.Idle? && next == me.(status := Exited))
    ensures Taken(next) == Taken(me)
  {
  }

  lemma {:induction false} OneMore(after: multiset<nat>, mine: multiset<nat>, before: multiset<nat>, job: nat)
    ensures after + mine == before + (mine + multiset{job}) ==> after == before + multiset{job}
    ensures after + mine == before + mine ==> after == before
  {
    if after + mine == before + (mine + multiset{job}) {
      assert after == (after + mine) - mine;
      assert before + multiset{job} == (before + (mine + multiset{job})) - mine;
    }
    if after + mine == before + mine {
      assert after == (after + mine) - mine && before == (before + mine) - mine;
    }
  }

  /** A schedule: an interleaving of steps from the start. */
  ghost predicate Schedule(states: seq<Pool>, steps: seq<Step>, jobs: nat, concurrency: nat) {
    && |states| == |steps| + 1 && states[0] == Start(jobs, concurrency)
    && (forall k | 0 <= k < |steps| :: Enabled(states[k], steps[k]) && states[k + 1] == Apply(states[k], steps[k]))
  }

  lemma {:induction false} ScheduleInv(states: seq<Pool>, steps: seq<Step>, jobs: nat, concurrency: nat, k: nat)
    requires Schedule(states, steps, jobs, concurrency) && k < |states|
    ensures Inv(states[k]) && states[k].jobs == jobs && |states[k].workers| == concurrency
  {
    hide Inv, Enabled, Apply;
    if k == 0 {
      StartInv(jobs, concurrency);
    } else {
      ScheduleInv(states, steps, jobs, concurrency, k - 1);
      StepInv(states[k - 1], steps[k - 1]);
      ShapeKept(states[k - 1], steps[k - 1]);
    }
  }

  lemma {:induction false} ShapeKept(s: Pool, step: Step)
    requires Enabled(s, step)
    ensures Apply(s, step).jobs == s.jobs && |Apply(s, step).workers| == |s.workers|
  {
  }

  /** No deadlock: while anything is still running some step other than an outside cancellation is possible, also after
      failures. */
  lemma {:induction false} NoDeadlock(s: Pool) returns (step: Step)
    requires Inv(s) && |s.workers| > 0 && !Done(s)
    ensures Enabled(s, step) && !step.Cancel?
  {
    hide AllTaken, Range;
    if busy: nat :| busy < |s.workers| && s.workers[busy].status.Busy? {
      step := Finish(busy);
    } else if idle: nat :| idle < |s.workers| && s.workers[idle].status.Idle? {
      step := if s.closed then Exit(idle) else if s.fed < s.jobs then Send(idle) else FeederDone;
    } else {
      assert s.workers[0].status.Failed?;
      step := if s.fed < s.jobs then FeederCancelled else FeederDone;
    }
  }

  function Weight(status: Status): nat {
    match status
    case Idle => 1
    case Busy(_) => 3
    case _ => 0
  }

  function Weights(ws: seq<Worker>): nat {
    if ws == [] then 0 else Weights(ws[..|ws| - 1]) + Weight(ws[|ws| - 1].status)
  }

  /** Steps left at most. */
  function Measure(s: Pool): nat
    requires s.fed <= s.jobs
  {
    3 * (s.jobs - s.fed) + Weights(s.workers) + (if s.closed then 0 else 1) + if s.cancelled then 0 else 1
  }

  lemma {:induction false} WeightsUpdate(ws: seq<Worker>, w: nat, me: Worker)
    requires w < |ws|
    ensures Weights(ws[w := me]) + Weight(ws[w].status) == Weights(ws) + Weight(me.status)
    decreases |ws|
  {
    hide Weight;
    var n := |ws| - 1;
    if w < n {
      assert ws[w := me][..n] == ws[..n][w := me];
      WeightsUpdate(ws[..n], w, me);
    } else {
      assert ws[w := me][..n] == ws[..n];
    }
  }

  lemma {:induction false} StepDecreases(s: Pool, step: Step)
    requires s.fed <= s.jobs && Enabled(s, step)
    ensures Apply(s, step).fed <= s.jobs && Measure(Apply(s, step)) < Measure(s)
  {
    hide Weights;
    var t := Apply(s, step);
    if step.Send? || step.Finish? || step.Fail? || step.Exit? {
      WeightsUpdate(s.workers, step.w, t.workers[step.w]);
    }
  }

  lemma {:induction false} StartWeights(ws: seq<Worker>)
    requires forall w | 0 <= w < |ws| :: ws[w].status.Idle?
    ensures Weights(ws) == |ws|
    decreases |ws|
  {
    if ws != [] {
      StartWeights(ws[..|ws| - 1]);
    }
  }

  /** Every schedule ends: it has at most three steps a job, one a worker, and two more. */
  lemma {:induction false} ScheduleEnds(states: seq<Pool>, steps: seq<Step>, jobs: nat, concurrency: nat, k: nat)
    requires Schedule(states, steps, jobs, concurrency) && k < |states|
    ensures states[k].fed <= states[k].jobs && k + Measure(states[k]) <= 3 * jobs + concurrency + 2
  {
    hide Enabled, Apply, Measure;
    if k == 0 {
      MeasureOfStart(jobs, concurrency);
    } else {
      ScheduleEnds(states, steps, jobs, concurrency, k - 1);
      StepDecreases(states[k - 1], steps[k - 1]);
      ShapeKept(states[k - 1], steps[k - 1]);
    }
  }

  lemma {:induction false} MeasureOfStart(jobs: nat, concurrency: nat)
    ensures Measure(Start(jobs, concurrency)) == 3 * jobs + concurrency + 2
  {
    StartWeights(Start(jobs, concurrency).workers);
  }

  // ----- The outcome

  function Logs(ws: seq<Worker>): (logs: seq<seq<nat>>)
    ensures |logs| == |ws|
  {
    seq(|ws|, w requires 0 <= w < |ws| => ws[w].finished)
  }

  function Concat<T>(parts: seq<seq<T>>): seq<T> {
    if parts == [] then [] else Concat(parts[..|parts| - 1]) + parts[|parts| - 1]
  }

  lemma {:induction false} FinishedIsTaken(ws: seq<Worker>)
    requires forall w | 0 <= w < |ws| :: ws[w].status.Idle? || ws[w].status.Exited?
    ensures multiset(Concat(Logs(ws))) == AllTaken(ws)
    decreases |ws|
  {
    if ws != [] {
      var n := |ws| - 1;
      FinishedIsTaken(ws[..n]);
      assert Logs(ws)[..n] == Logs(ws[..n]);
    }
  }

  /** In any interleaving that ends without an error, each job was finished exactly once, by one worker. */
  lemma {:induction false} EachJobOnce(states: seq<Pool>, steps: seq<Step>, jobs: nat, concurrency: nat)
    requires Schedule(states, steps, jobs, concurrency)
    requires Done(states[|steps|]) && !states[|steps|].err
    ensures multiset(Concat(Logs(states[|steps|].workers))) == multiset(Range(jobs))
  {
    hide Enabled, Apply, AllTaken, Range;
    ScheduleInv(states, steps, jobs, concurrency, |steps|);
    FinishedIsTaken(states[|steps|].workers);
  }
}
