/** Schedules of the pool: those of a single worker, and one that sets a single job apart. */
module PoolSchedules {
  import opened WorkerPool

  /** A schedule that has run to its end without an error. */
  ghost predicate CompleteRun(states: seq<Pool>, steps: seq<Step>, jobs: nat, concurrency: nat) {
    Schedule(states, steps, jobs, concurrency) && Done(states[|steps|]) && !states[|steps|].err
  }

  // ----- One worker

  /** The jobs a worker has taken, in order. */
  function TakenInOrder(w: Worker): seq<nat> {
    w.finished + if w.status.Busy? || w.status.Failed? then [w.status.job] else []
  }

  lemma {:induction false} RangeSnoc(n: nat)
    ensures Range(n) + [n] == Range(n + 1)
  {
  }

  lemma {:induction false} LoneWorker(states: seq<Pool>, steps: seq<Step>, jobs: nat, k: nat)
    requires Schedule(states, steps, jobs, 1) && k < |states|
    ensures |states[k].workers| == 1 && TakenInOrder(states[k].workers[0]) == Range(states[k].fed)
  {
    if k > 0 {
      LoneWorker(states, steps, jobs, k - 1);
      assert Enabled(states[k - 1], steps[k - 1]) && states[k] == Apply(states[k - 1], steps[k - 1]);
      hide Range;
      LoneStep(states[k - 1], steps[k - 1]);
    }
  }

  lemma {:induction false} LoneStep(s: Pool, step: Step)
    requires |s.workers| == 1 && Enabled(s, step) && TakenInOrder(s.workers[0]) == Range(s.fed)
    ensures var t := Apply(s, step); |t.workers| == 1 && TakenInOrder(t.workers[0]) == Range(t.fed)
  {
    hide Range;
    RangeSnoc(s.fed);
    if step.Send? {
      assert s.workers[0].finished + [] == s.workers[0].finished;
    }
  }

  /** A single worker finishes the jobs in the order they are fed. */
  lemma {:induction false} LoneWorkerInOrder(states: seq<Pool>, steps: seq<Step>, jobs: nat)
    requires CompleteRun(states, steps, jobs, 1)
    ensures Concat(Logs(states[|steps|].workers)) == Range(jobs)
  {
    var last := states[|steps|];
    LoneWorker(states, steps, jobs, |steps|);
    ScheduleInv(states, steps, jobs, 1, |steps|);
    hide Schedule, Range, AllTaken;
    assert last.workers[0].finished + [] == last.workers[0].finished;
    assert Logs(last.workers) == [last.workers[0].finished] && Logs(last.workers)[..0] == [];
  }

  // ----- Building schedules

  /** A schedule can be continued by any step that is possible. */
  lemma {:induction false} Continue(states: seq<Pool>, steps: seq<Step>, jobs: nat, concurrency: nat, step: Step)
    requires Schedule(states, steps, jobs, concurrency) && Enabled(states[|steps|], step)
    ensures Schedule(states + [Apply(states[|steps|], step)], steps + [step], jobs, concurrency)
  {
    hide Enabled, Apply, Start;
  }

  /** An idle worker takes the next job and finishes it. */
  lemma {:induction false} DoJob(states: seq<Pool>, steps: seq<Step>, jobs: nat, concurrency: nat, w: nat)
    returns (states': seq<Pool>, steps': seq<Step>)
    requires Schedule(states, steps, jobs, concurrency)
    requires var s := states[|steps|]; !s.closed && s.fed < s.jobs && w < |s.workers| && s.workers[w].status.Idle?
    ensures Schedule(states', steps', jobs, concurrency)
    ensures var s := states[|steps|];
      states'[|steps'|]
      == s.(fed := s.fed + 1, workers := s.workers[w := Worker(Idle, s.workers[w].finished + [s.fed])])
  {
    hide Schedule;
    SameLengths(states, steps, jobs, concurrency);
    var s := states[|steps|];
    Continue(states, steps, jobs, concurrency, Send(w));
    states', steps' := states + [Apply(s, Send(w))], steps + [Send(w)];
    SameLengths(states', steps', jobs, concurrency);
    Continue(states', steps', jobs, concurrency, Finish(w));
    states', steps' := states' + [Apply(states'[|steps'|], Finish(w))], steps' + [Finish(w)];
    SameLengths(states', steps', jobs, concurrency);
  }

  lemma {:induction false} SameLengths(states: seq<Pool>, steps: seq<Step>, jobs: nat, concurrency: nat)
    requires Schedule(states, steps, jobs, concurrency)
    ensures |states| == |steps| + 1
  {
  }

  lemma {:induction false} TakeStep(states: seq<Pool>, steps: seq<Step>, jobs: nat, concurrency: nat, step: Step)
    returns (states': seq<Pool>, steps': seq<Step>)
    requires Schedule(states, steps, jobs, concurrency) && Enabled(states[|steps|], step)
    ensures Schedule(states', steps', jobs, concurrency) && states'[|steps'|] == Apply(states[|steps|], step)
  {
    SameLengths(states, steps, jobs, concurrency);
    Continue(states, steps, jobs, concurrency, step);
    states', steps' := states + [Apply(states[|steps|], step)], steps + [step];
  }

  // ----- One job apart

  /** The jobs before m, in order, without job i. */
  function AllBut(i: nat, m: nat): seq<nat> {
    if m == 0 then [] else AllBut(i, m - 1) + if m - 1 == i then [] else [m - 1]
  }

  /** Worker 0 has finished the jobs before m, except that job i went to worker 1. */
  function LogOf(w: nat, i: nat, m: nat): seq<nat> {
    if w == 0 then AllBut(i, m) else if w == 1 && i < m then [i] else []
  }

  function Setup(concurrency: nat, i: nat, m: nat, exited: nat): (ws: seq<Worker>)
    ensures |ws| == concurrency
  {
    seq(concurrency, w requires 0 <= w < concurrency => Worker(if w < exited then Exited else Idle, LogOf(w, i, m)))
  }

  lemma {:induction false} Feed(jobs: nat, concurrency: nat, i: nat, m: nat) returns (states: seq<Pool>,
                                steps: seq<Step>)
    requires concurrency >= 2 && m <= jobs
    ensures Schedule(states, steps, jobs, concurrency)
    ensures states[|steps|] == Pool(jobs, m, false, false, false, Setup(concurrency, i, m, 0))
  {
    if m == 0 {
      states, steps := [Start(jobs, concurrency)], [];
      assert Start(jobs, concurrency).workers == Setup(concurrency, i, 0, 0);
    } else {
      states, steps := Feed(jobs, concurrency, i, m - 1);
      hide Schedule;
      FeedOne(concurrency, i, m);
      states, steps := DoJob(states, steps, jobs, concurrency, if m - 1 == i then 1 else 0);
    }
  }

  lemma {:induction false} FeedOne(concurrency: nat, i: nat, m: nat)
    requires concurrency >= 2 && m > 0
    ensures var w, ws := if m - 1 == i then 1 else 0, Setup(concurrency, i, m - 1, 0);
      ws[w].status.Idle? && Setup(concurrency, i, m, 0) == ws[w := Worker(Idle, ws[w].finished + [m - 1])]
  {
    var before := AllBut(i, m - 1);
    assert before + [] == before && [] + [m - 1] == [m - 1];
    forall w | 0 <= w < concurrency
      ensures LogOf(w, i, m) == LogOf(w, i, m - 1) + if w == (if m - 1 == i then 1 else 0) then [m - 1] else []
    {
    }
  }

  lemma {:induction false} Leave(jobs: nat, concurrency: nat, i: nat, exited: nat)
    returns (states: seq<Pool>, steps: seq<Step>)
    requires concurrency >= 2 && exited <= concurrency
    ensures Schedule(states, steps, jobs, concurrency)
    ensures states[|steps|] == Pool(jobs, jobs, true, false, false, Setup(concurrency, i, jobs, exited))
  {
    if exited == 0 {
      states, steps := Feed(jobs, concurrency, i, jobs);
      states, steps := TakeStep(states, steps, jobs, concurrency, FeederDone);
    } else {
      states, steps := Leave(jobs, concurrency, i, exited - 1);
      hide Schedule, LogOf;
      var ws := Setup(concurrency, i, jobs, exited - 1);
      assert Setup(concurrency, i, jobs, exited) == ws[exited - 1 := ws[exited - 1].(status := Exited)];
      states, steps := TakeStep(states, steps, jobs, concurrency, Exit(exited - 1));
    }
  }

  lemma {:induction false} ApartLogs(concurrency: nat, i: nat, m: nat, logs: seq<seq<nat>>)
    requires |logs| >= 2 && i < m && forall w | 0 <= w < |logs| :: logs[w] == LogOf(w, i, m)
    ensures Concat(logs) == AllBut(i, m) + [i]
    decreases |logs|
  {
    hide AllBut;
    var n := |logs| - 1;
    if n > 1 {
      ApartLogs(concurrency, i, m, logs[..n]);
      assert Concat(logs[..n]) + [] == Concat(logs[..n]);
    } else {
      ConcatTwo(logs);
    }
  }

  lemma {:induction false} ConcatTwo(logs: seq<seq<nat>>)
    requires |logs| == 2
    ensures Concat(logs) == logs[0] + logs[1]
  {
    var one := logs[..1];
    assert one[..0] == [] && one[0] == logs[0] && Concat(one) == [] + one[0];
  }

  /** With two workers or more, any one job can be left to a worker that takes nothing else and is merged after the one
      that takes all the others. */
  lemma {:induction false} OneApart(jobs: nat, concurrency: nat, i: nat) returns (states: seq<Pool>, steps: seq<Step>)
    requires concurrency >= 2 && i < jobs
    ensures CompleteRun(states, steps, jobs, concurrency)
    ensures Concat(Logs(states[|steps|].workers)) == AllBut(i, jobs) + [i]
  {
    states, steps := Leave(jobs, concurrency, i, concurrency);
    hide Schedule, LogOf;
    ApartLogs(concurrency, i, jobs, Logs(states[|steps|].workers));
  }
}
