/** What the head of a turn does, told from what was admitted and finished: slots filled, debts met, the exit taken. */
module LoopHead {
  import opened Prelude
  import opened Graph
  import opened LoopSpec
  import opened LoopOrder
  import opened LoopDebt
  import opened LoopProgress

  // ---- the pool is never idle needlessly -----------------------------------

  /** A job is left deferred only because the pool is full or its project runs. */
  lemma {:induction false} DefersOnlyTheBlocked(s: Scheduler, jobs: seq<Job>)
    ensures var r := Dispatch(s, jobs);
            |s.inflight| <= |r.sched.inflight|
            && forall j :: j in r.deferred ==> |r.sched.inflight| >= s.permits || j.project in r.sched.inflight
    decreases |jobs|
  {
    if jobs != [] {
      var t := if Blocked(s, jobs[0].project) then s else Spawn(s, jobs[0]);
      DefersOnlyTheBlocked(t, jobs[1..]);
      DispatchTasks(t, jobs[1..]);
    }
  }

  lemma {:induction false} PermitsStay(reg: set<Id>, l: Loop, ts: seq<Turn>)
    ensures Turns(reg, l, ts).sched.permits == l.sched.permits
  {
    if ts != [] {
      PermitsStay(reg, l, ts[..|ts| - 1]);
      HeadPermits(reg, Turns(reg, l, ts[..|ts| - 1]), ts[|ts| - 1].order);
    }
  }

  lemma HeadPermits(reg: set<Id>, l: Loop, order: seq<Id>)
    ensures Top(reg, l, order).sched.permits == l.sched.permits
  {
    DispatchTasks(l.sched, l.deferred);
    DispatchTasks(TopDispatch(l).sched, ReclusterJobs(reg, QuietOf(TopDispatch(l), order)));
  }

  /**
   * After the head of any turn of any run, at most as many jobs run as the pool was made for, one for a
   * pool made for none; and a job is still deferred only if that many run or one of its project does.
   */
  lemma HeadFillsThePool(reg: set<Id>, permits: nat, ts: seq<Turn>, order: seq<Id>)
    ensures var top := Top(reg, Turns(reg, Start(permits), ts), order);
            var most := if permits < 1 then 1 else permits;
            && |top.sched.tasks| <= most
            && forall j :: j in top.deferred ==> |top.sched.tasks| == most || Runs(top.sched, j.project)
  {
    var l := Turns(reg, Start(permits), ts);
    LoopConserves(reg, permits, ts);
    TopKeeps(reg, l, order);
    PermitsStay(reg, Start(permits), ts);
    HeadPermits(reg, l, order);
    var d := TopDispatch(l);
    var jobs := ReclusterJobs(reg, QuietOf(d, order));
    DefersOnlyTheBlocked(l.sched, l.deferred);
    DispatchTasks(l.sched, l.deferred);
    DefersOnlyTheBlocked(d.sched, jobs);
    DispatchTasks(d.sched, jobs);
  }

  // ---- debts are met after the burst ---------------------------------------

  /** Every job admitted for `id` has finished. */
  ghost predicate AllFinished(h: History, id: Id) {
    forall j: Job :: j.project == id ==> multiset(h.admitted)[j] == multiset(h.finished)[j]
  }

  lemma QuietIffFinished(reg: set<Id>, l: Loop, id: Id)
    requires LoopInv(reg, l)
    ensures Quiet(l, id) <==> AllFinished(l.hist, id)
  {
    if Quiet(l, id) {
      forall j: Job | j.project == id ensures multiset(l.hist.admitted)[j] == multiset(l.hist.finished)[j] {
        assert j !in l.deferred && j !in l.sched.tasks;
        assert j !in multiset(l.deferred) && j !in multiset(l.sched.tasks);
      }
    }
    if AllFinished(l.hist, id) {
      forall j: Job | j.project == id ensures j !in l.deferred && j !in l.sched.tasks {
        assert multiset(l.hist.admitted)[j] ==
               multiset(l.deferred)[j] + multiset(l.sched.tasks)[j] + multiset(l.hist.finished)[j];
        assert j !in multiset(l.deferred) && j !in multiset(l.sched.tasks);
      }
      assert forall i :: 0 <= i < |l.sched.tasks| ==> l.sched.tasks[i] in l.sched.tasks;
    }
  }

  /** The jobs a loop head admits: what the history has beyond `before`. */
  function Admitted(before: Loop, after: Loop): seq<Job>
    requires |before.hist.admitted| <= |after.hist.admitted|
  {
    after.hist.admitted[|before.hist.admitted|..]
  }

  /**
   * One recluster per burst, exactly at its end: in every run a loop head makes a Recluster job of a
   * project if and only if it owes one and every job ever admitted for it has finished; it makes just
   * that one, and until then the debt stays.
   */
  lemma ReclustersAfterTheBurst(reg: set<Id>, permits: nat, ts: seq<Turn>, order: seq<Id>, id: Id)
    requires AllWalk(reg, Start(permits), ts) && AllProduced(ts)
    requires var l := Turns(reg, Start(permits), ts);
             NoDup(order) && forall x :: x in order <==> x in l.owes
    ensures var l := Turns(reg, Start(permits), ts);
            var top := Top(reg, l, order);
            && |l.hist.admitted| <= |top.hist.admitted|
            && Of(Admitted(l, top), id) ==
               (if id in l.owes && AllFinished(l.hist, id) then [Job(id, Recluster, None)] else [])
            && (id in top.owes <==> id in l.owes && !AllFinished(l.hist, id))
  {
    var l := Turns(reg, Start(permits), ts);
    DebtHolds(reg, permits, ts);
    var d := TopDispatch(l);
    TopDispatchKeeps(reg, l);
    QuietIffFinished(reg, d, id);
    assert AllFinished(d.hist, id) <==> AllFinished(l.hist, id);
    QuietListed(d, order);
    ReclustersOf(reg, QuietOf(d, order), id);
    assert Admitted(l, Top(reg, l, order)) == ReclusterJobs(reg, QuietOf(d, order));
  }

  /** Over any queue: a head makes a project's recluster only if nothing of it is queued, running or deferred. */
  lemma ReclusterMadeIff(reg: set<Id>, l: Loop, order: seq<Id>, id: Id)
    requires NoDup(order) && forall x :: x in order <==> x in l.owes
    ensures Of(ReclusterJobs(reg, QuietOf(l, order)), id) != [] <==>
            && id in l.owes && id in reg && id !in l.sched.inflight
            && (forall i :: i in l.queue.manual || i in l.queue.git || i in l.queue.fs ==> i.project != id)
            && forall j :: j in l.deferred ==> j.project != id
  {
    QuietListed(l, order);
    ReclustersOf(reg, QuietOf(l, order), id);
    var q := l.queue;
    assert forall i :: i in q.manual + q.git + q.fs <==> i in q.manual || i in q.git || i in q.fs;
  }

  // ---- the idle exit -------------------------------------------------------

  lemma NothingOf(jobs: seq<Job>)
    requires multiset(jobs) == multiset{}
    ensures jobs == []
  {
    assert |multiset(jobs)| == |jobs|;
  }

  lemma NothingLeft(deferred: seq<Job>, tasks: seq<Job>, finished: seq<Job>)
    requires multiset(deferred) + multiset(tasks) + multiset(finished) == multiset(finished)
    ensures deferred == [] && tasks == []
  {
    assert |multiset(deferred) + multiset(tasks) + multiset(finished)| == |deferred| + |tasks| + |finished|;
  }

  /** In a loop with nothing admitted left to finish and nothing owed, the head finds nothing to do. */
  lemma DoneHeadIsIdle(reg: set<Id>, l: Loop, order: seq<Id>)
    requires LoopInv(reg, l) && NoDup(order) && forall x :: x in order <==> x in l.owes
    requires multiset(l.hist.admitted) == multiset(l.hist.finished) && l.owes == {}
    ensures Idle(Top(reg, l, order))
  {
    NothingLeft(l.deferred, l.sched.tasks, l.hist.finished);
    NoDupCard(order);
    assert Elements(order) == {};
    assert |l.sched.inflight| == 0;
  }

  /** Where the head finds nothing to do, everything admitted had finished and nothing was owed. */
  lemma IdleHeadIsDone(reg: set<Id>, l: Loop, order: seq<Id>)
    requires LoopInv(reg, l) && Known(reg, l) && NoDup(order) && forall x :: x in order <==> x in l.owes
    requires Idle(Top(reg, l, order))
    ensures multiset(l.hist.admitted) == multiset(l.hist.finished) && l.owes == {}
  {
    var d := TopDispatch(l);
    var quiet := QuietOf(d, order);
    var jobs := ReclusterJobs(reg, quiet);
    TopDispatchKeeps(reg, l);
    TopReclusterKeeps(reg, d, order);
    DispatchTasks(l.sched, l.deferred);
    DispatchTasks(d.sched, jobs);
    QuietListed(d, order);
    ReclustersListed(reg, quiet);
    assert |Top(reg, l, order).sched.tasks| == 0;
    assert d.sched.tasks == [] && Dispatch(d.sched, jobs).started == [];
    DispatchConserves(d.sched, jobs);
    NothingOf(jobs);
    assert quiet == [];
  }

  /** A turn exits exactly when its head leaves the loop idle past the timeout. */
  lemma ExitsIffIdle(reg: set<Id>, l: Loop, t: Turn)
    requires !l.exited
    ensures DoTurn(reg, l, t).exited <==> t.timedOut && Idle(Top(reg, l, t.order))
  {
    var top := Top(reg, l, t.order);
    assert !top.exited && !Take(reg, top, t.branch).exited;
  }

  lemma HeadIsIdleIffDone(reg: set<Id>, l: Loop, order: seq<Id>)
    requires LoopInv(reg, l) && Known(reg, l) && NoDup(order) && forall x :: x in order <==> x in l.owes
    ensures Idle(Top(reg, l, order)) <==> multiset(l.hist.admitted) == multiset(l.hist.finished) && l.owes == {}
  {
    if Idle(Top(reg, l, order)) {
      IdleHeadIsDone(reg, l, order);
    } else if multiset(l.hist.admitted) == multiset(l.hist.finished) && l.owes == {} {
      DoneHeadIsIdle(reg, l, order);
    }
  }

  /**
   * In every run the loop exits for idleness at a turn if and only if the timeout has passed, every job
   * it ever admitted has finished, and no project owes a recluster.
   */
  lemma ExitsIffDone(reg: set<Id>, permits: nat, ts: seq<Turn>, t: Turn)
    requires AllWalk(reg, Start(permits), ts) && AllProduced(ts)
    requires var l := Turns(reg, Start(permits), ts); !l.exited && Walks(l, t)
    ensures var l := Turns(reg, Start(permits), ts);
            DoTurn(reg, l, t).exited <==>
            t.timedOut && multiset(l.hist.admitted) == multiset(l.hist.finished) && l.owes == {}
  {
    var l := Turns(reg, Start(permits), ts);
    DebtHolds(reg, permits, ts);
    ExitsIffIdle(reg, l, t);
    HeadIsIdleIffDone(reg, l, t.order);
  }
}
