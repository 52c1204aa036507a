/** The backlog always moves, and with no arrivals the loop settles. */
module LoopProgress {
  import opened Prelude
  import opened Graph
  import opened LoopSpec
  import opened LoopOrder
  import opened LoopDebt

  /** A dispatch leaves nothing deferred or something running. */
  lemma {:induction false} DispatchProgress(s: Scheduler, jobs: seq<Job>)
    requires SchedInv(s)
    ensures var r := Dispatch(s, jobs);
            r.deferred == [] || r.sched.inflight != {}
    decreases |jobs|
  {
    if jobs != [] {
      if Blocked(s, jobs[0].project) {
        DispatchTasks(s, jobs[1..]);
      } else {
        SpawnKeeps(s, jobs[0]);
        DispatchTasks(Spawn(s, jobs[0]), jobs[1..]);
        assert jobs[0].project in Spawn(s, jobs[0]).inflight;
      }
    }
  }

  // ---- the scheduler on its own --------------------------------------------

  /** Dispatch a backlog, then complete the running job each choice picks, dispatching after each. */
  function Serve(s: Scheduler, backlog: seq<Job>, choices: seq<nat>): Dispatched {
    if choices == [] then Dispatch(s, backlog).(started := [])
    else
      var r := Serve(s, backlog, choices[..|choices| - 1]);
      var i := choices[|choices| - 1];
      if i < |r.sched.tasks| then Dispatch(Join(r.sched, i), r.deferred).(started := []) else r
  }

  /** Each choice names a running job. */
  ghost predicate AllRunning(s: Scheduler, backlog: seq<Job>, choices: seq<nat>) {
    choices != [] ==>
      var front := choices[..|choices| - 1];
      AllRunning(s, backlog, front) && choices[|choices| - 1] < |Serve(s, backlog, front).sched.tasks|
  }

  lemma DispatchCounts(s: Scheduler, jobs: seq<Job>)
    ensures var r := Dispatch(s, jobs);
            |r.sched.tasks| + |r.deferred| == |s.tasks| + |jobs|
  {
    DispatchTasks(s, jobs);
    DispatchConserves(s, jobs);
    var r := Dispatch(s, jobs);
    assert |multiset(jobs)| == |jobs|;
    assert |multiset(r.started) + multiset(r.deferred)| == |r.started| + |r.deferred|;
  }

  lemma {:induction false} ServeCounts(s: Scheduler, backlog: seq<Job>, choices: seq<nat>)
    requires SchedInv(s) && AllRunning(s, backlog, choices)
    ensures var r := Serve(s, backlog, choices);
            && SchedInv(r.sched) && (r.deferred == [] || r.sched.tasks != [])
            && |r.sched.tasks| + |r.deferred| + |choices| == |s.tasks| + |backlog|
  {
    if choices == [] {
      DispatchKeeps(s, backlog);
      DispatchCounts(s, backlog);
      DispatchProgress(s, backlog);
    } else {
      var r := Serve(s, backlog, choices[..|choices| - 1]);
      var i := choices[|choices| - 1];
      ServeCounts(s, backlog, choices[..|choices| - 1]);
      JoinKeeps(r.sched, i);
      var t := Join(r.sched, i);
      DispatchKeeps(t, r.deferred);
      DispatchCounts(t, r.deferred);
      DispatchProgress(t, r.deferred);
    }
  }

  /**
   * A backlog drains after exactly as many completions as it has jobs, whichever running job finishes
   * each time: until then something is running, and after them nothing is deferred or running.
   */
  lemma BacklogDrainsExactly(s: Scheduler, backlog: seq<Job>, choices: seq<nat>)
    requires SchedInv(s) && s.tasks == [] && AllRunning(s, backlog, choices)
    ensures |choices| <= |backlog|
    ensures var r := Serve(s, backlog, choices);
            if |choices| == |backlog| then r.deferred == [] && r.sched.tasks == [] else r.sched.tasks != []
  {
    ServeCounts(s, backlog, choices);
  }

  // ---- the loop with no arrivals -------------------------------------------

  /** An apply may still leave a debt, so it weighs one more than the recluster it would owe. */
  function Weight(j: Job): nat {
    if j.op.Recluster? then 1 else 2
  }

  function Total(jobs: seq<Job>): nat {
    if jobs == [] then 0 else Weight(jobs[0]) + Total(jobs[1..])
  }

  lemma {:induction false} TotalConcat(a: seq<Job>, b: seq<Job>)
    ensures Total(a + b) == Total(a) + Total(b)
  {
    if a == [] {
      assert a + b == b;
    } else {
      assert (a + b)[1..] == a[1..] + b;
      TotalConcat(a[1..], b);
    }
  }

  lemma TotalPositive(jobs: seq<Job>)
    ensures Total(jobs) == 0 <==> jobs == []
  {
  }

  /** Work left: what deferred and running jobs can still cause, and the debts. */
  function Left(l: Loop): nat {
    Total(l.deferred) + Total(l.sched.tasks) + |l.owes|
  }

  lemma {:induction false} DispatchTotal(s: Scheduler, jobs: seq<Job>)
    ensures var r := Dispatch(s, jobs);
            Total(r.started) + Total(r.deferred) == Total(jobs)
    decreases |jobs|
  {
    if jobs != [] {
      if Blocked(s, jobs[0].project) {
        DispatchTotal(s, jobs[1..]);
      } else {
        DispatchTotal(Spawn(s, jobs[0]), jobs[1..]);
      }
    }
  }

  lemma {:induction false} ReclusterTotal(reg: set<Id>, ids: seq<Id>)
    requires forall id :: id in ids ==> id in reg
    ensures Total(ReclusterJobs(reg, ids)) == |ids|
  {
    if ids != [] {
      ReclusterTotal(reg, ids[1..]);
    }
  }

  lemma TopDispatchLeft(l: Loop)
    ensures Left(TopDispatch(l)) == Left(l)
  {
    DispatchTotal(l.sched, l.deferred);
    DispatchTasks(l.sched, l.deferred);
    TotalConcat(l.sched.tasks, Dispatch(l.sched, l.deferred).started);
  }

  lemma TopReclusterLeft(reg: set<Id>, l: Loop, order: seq<Id>)
    requires l.owes <= reg && NoDup(order) && forall id :: id in order <==> id in l.owes
    ensures Left(TopRecluster(reg, l, order)) == Left(l)
  {
    var quiet := QuietOf(l, order);
    var jobs := ReclusterJobs(reg, quiet);
    QuietListed(l, order);
    ReclusterTotal(reg, quiet);
    DispatchTotal(l.sched, jobs);
    DispatchTasks(l.sched, jobs);
    var r := Dispatch(l.sched, jobs);
    TotalConcat(l.sched.tasks, r.started);
    TotalConcat(l.deferred, r.deferred);
    NoDupCard(quiet);
    assert (set id | id in quiet) == Elements(quiet) && Elements(quiet) <= l.owes;
  }

  lemma TopLeft(reg: set<Id>, l: Loop, order: seq<Id>)
    requires l.owes <= reg && NoDup(order) && forall id :: id in order <==> id in l.owes
    ensures Left(Top(reg, l, order)) == Left(l)
  {
    TopDispatchLeft(l);
    TopReclusterLeft(reg, TopDispatch(l), order);
  }

  lemma CompleteLeft(l: Loop, i: nat, outcome: Outcome)
    requires i < |l.sched.tasks|
    ensures Left(Complete(l, i, outcome)) < Left(l)
  {
    var job := l.sched.tasks[i];
    var a, b := l.sched.tasks[..i], l.sched.tasks[i + 1..];
    assert l.sched.tasks == a + ([job] + b);
    TotalConcat(a, [job] + b);
    TotalConcat([job], b);
    TotalConcat(a, b);
    assert [job][1..] == [];
  }

  /** After the loop's head, if nothing is running then nothing is deferred and nothing is owed. */
  lemma TopProgress(reg: set<Id>, l: Loop, order: seq<Id>)
    requires LoopInv(reg, l) && Known(reg, l) && NoDup(order) && forall id :: id in order <==> id in l.owes
    ensures var m := Top(reg, l, order);
            m.sched.tasks == [] ==> Left(m) == 0
  {
    var d := TopDispatch(l);
    TopDispatchKeeps(reg, l);
    DispatchProgress(l.sched, l.deferred);
    var quiet := QuietOf(d, order);
    var jobs := ReclusterJobs(reg, quiet);
    DispatchProgress(d.sched, jobs);
    DispatchTasks(d.sched, jobs);
    TopReclusterKeeps(reg, d, order);
    var m := Top(reg, l, order);
    if m.sched.tasks == [] {
      assert m.sched.inflight == {} by {
        assert |m.sched.inflight| == 0;
      }
      assert d.sched.inflight == {} && d.deferred == [] && m.deferred == [];
      IdleHeadTakesAllDebts(reg, d, order);
    }
  }

  lemma IdleHeadTakesAllDebts(reg: set<Id>, l: Loop, order: seq<Id>)
    requires l.queue == Queue([], [], []) && l.sched.inflight == {} && l.deferred == []
    requires NoDup(order) && forall id :: id in order <==> id in l.owes
    ensures TopRecluster(reg, l, order).owes == {}
  {
    QuietListed(l, order);
    forall id ensures id !in TopRecluster(reg, l, order).owes {
      assert Quiet(l, id);
    }
  }

  /** A turn in which a job completes and nothing arrives. */
  predicate Completion(reg: set<Id>, l: Loop, t: Turn) {
    !t.timedOut && t.branch.Joined? && t.branch.i < |Top(reg, l, t.order).sched.tasks|
  }

  ghost predicate AllCompletions(reg: set<Id>, l: Loop, ts: seq<Turn>) {
    ts != [] ==>
      var front := ts[..|ts| - 1];
      AllCompletions(reg, l, front) && Walks(Turns(reg, l, front), ts[|ts| - 1])
      && Completion(reg, Turns(reg, l, front), ts[|ts| - 1])
  }

  lemma {:induction false} CompletionsCount(reg: set<Id>, l: Loop, ts: seq<Turn>)
    requires LoopInv(reg, l) && Known(reg, l) && !l.exited && AllCompletions(reg, l, ts)
    ensures var m := Turns(reg, l, ts);
            LoopInv(reg, m) && Known(reg, m) && !m.exited && Left(m) + |ts| <= Left(l)
  {
    if ts != [] {
      var prev, t := Turns(reg, l, ts[..|ts| - 1]), ts[|ts| - 1];
      CompletionsCount(reg, l, ts[..|ts| - 1]);
      CompletionLeft(reg, prev, t);
    }
  }

  lemma CompletionLeft(reg: set<Id>, l: Loop, t: Turn)
    requires LoopInv(reg, l) && Known(reg, l) && !l.exited && Walks(l, t) && Completion(reg, l, t)
    ensures var m := DoTurn(reg, l, t);
            LoopInv(reg, m) && Known(reg, m) && !m.exited && Left(m) < Left(l)
  {
    var top := Top(reg, l, t.order);
    TurnKeeps(reg, l, t);
    TopLeft(reg, l, t.order);
    TopKnown(reg, l, t.order);
    CompleteLeft(top, t.branch.i, t.branch.outcome);
    CompleteKnown(reg, top, t.branch.i, t.branch.outcome);
  }

  /**
   * With no arrivals the loop settles: at most `Left` completions can happen, debts included, and
   * whenever after some of them the loop's head leaves nothing running, no work and no debt is left.
   */
  lemma LoopSettles(reg: set<Id>, l: Loop, ts: seq<Turn>, order: seq<Id>)
    requires LoopInv(reg, l) && Known(reg, l) && !l.exited && AllCompletions(reg, l, ts)
    requires NoDup(order) && forall id :: id in order <==> id in Turns(reg, l, ts).owes
    ensures |ts| <= Left(l)
    ensures var top := Top(reg, Turns(reg, l, ts), order);
            top.sched.tasks == [] ==> Idle(top) && Left(top) == 0
  {
    CompletionsCount(reg, l, ts);
    HeadSettles(reg, Turns(reg, l, ts), order);
  }

  lemma HeadSettles(reg: set<Id>, l: Loop, order: seq<Id>)
    requires LoopInv(reg, l) && Known(reg, l) && NoDup(order) && forall id :: id in order <==> id in l.owes
    ensures var top := Top(reg, l, order);
            top.sched.tasks == [] ==> Idle(top) && Left(top) == 0
  {
    TopProgress(reg, l, order);
    TopKeeps(reg, l, order);
    if Top(reg, l, order).sched.tasks == [] {
      SettledIsIdle(reg, Top(reg, l, order));
    }
  }

  lemma SettledIsIdle(reg: set<Id>, l: Loop)
    requires LoopInv(reg, l) && l.sched.tasks == [] && Left(l) == 0
    ensures Idle(l)
  {
    TotalPositive(l.deferred);
    assert |l.sched.inflight| == 0;
  }
}
