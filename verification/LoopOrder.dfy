/** The run loop conserves jobs, bounds what runs, and starts each project's jobs in order. */
module LoopOrder {
  import opened Prelude
  import opened Graph
  import opened LoopSpec

  // ---- the scheduler -------------------------------------------------------

  ghost predicate Runs(s: Scheduler, id: Id) {
    exists i :: 0 <= i < |s.tasks| && s.tasks[i].project == id
  }

  /** At most `permits` jobs run, at most one per project, and the marks match what runs. */
  ghost predicate SchedInv(s: Scheduler) {
    && 1 <= s.permits && |s.inflight| <= s.permits && |s.tasks| == |s.inflight|
    && (forall i, j :: 0 <= i < j < |s.tasks| ==> s.tasks[i].project != s.tasks[j].project)
    && (forall i :: 0 <= i < |s.tasks| ==> s.tasks[i].project in s.inflight)
    && (forall id :: id in s.inflight ==> Runs(s, id))
  }

  lemma SpawnKeeps(s: Scheduler, job: Job)
    requires SchedInv(s) && !Blocked(s, job.project)
    ensures SchedInv(Spawn(s, job))
  {
    var t := Spawn(s, job);
    forall id | id in t.inflight ensures Runs(t, id) {
      if id == job.project {
        assert t.tasks[|s.tasks|].project == id;
      } else {
        var i :| 0 <= i < |s.tasks| && s.tasks[i].project == id;
        assert t.tasks[i].project == id;
      }
    }
  }

  lemma JoinKeeps(s: Scheduler, i: nat)
    requires SchedInv(s) && i < |s.tasks|
    ensures SchedInv(Join(s, i)) && |Join(s, i).tasks| == |s.tasks| - 1
  {
    var t, p := Join(s, i), s.tasks[i].project;
    forall id | id in t.inflight ensures Runs(t, id) {
      var k :| 0 <= k < |s.tasks| && s.tasks[k].project == id;
      var m := if k < i then k else k - 1;
      assert t.tasks[m].project == id;
    }
    assert |t.inflight| == |s.inflight| - 1;
  }

  lemma {:induction false} DispatchKeeps(s: Scheduler, jobs: seq<Job>)
    requires SchedInv(s)
    ensures SchedInv(Dispatch(s, jobs).sched)
    decreases |jobs|
  {
    if jobs != [] {
      if Blocked(s, jobs[0].project) {
        DispatchKeeps(s, jobs[1..]);
      } else {
        SpawnKeeps(s, jobs[0]);
        DispatchKeeps(Spawn(s, jobs[0]), jobs[1..]);
      }
    }
  }

  lemma {:induction false} DispatchTasks(s: Scheduler, jobs: seq<Job>)
    ensures var r := Dispatch(s, jobs);
            r.sched.tasks == s.tasks + r.started && r.sched.permits == s.permits && s.inflight <= r.sched.inflight
    decreases |jobs|
  {
    if jobs == [] {
      assert s.tasks + [] == s.tasks;
    } else if Blocked(s, jobs[0].project) {
      DispatchTasks(s, jobs[1..]);
    } else {
      DispatchTasks(Spawn(s, jobs[0]), jobs[1..]);
      var rest := Dispatch(Spawn(s, jobs[0]), jobs[1..]).started;
      assert s.tasks + [jobs[0]] + rest == s.tasks + ([jobs[0]] + rest);
    }
  }

  /** Nothing given to a dispatch is lost or doubled. */
  lemma {:induction false} DispatchConserves(s: Scheduler, jobs: seq<Job>)
    ensures var r := Dispatch(s, jobs);
            multiset(jobs) == multiset(r.started) + multiset(r.deferred)
    decreases |jobs|
  {
    if jobs != [] {
      assert jobs == [jobs[0]] + jobs[1..];
      if Blocked(s, jobs[0].project) {
        DispatchConserves(s, jobs[1..]);
      } else {
        DispatchConserves(Spawn(s, jobs[0]), jobs[1..]);
      }
    }
  }

  // ---- one project's jobs --------------------------------------------------

  /** The jobs of project `p`, in order. */
  function Of(jobs: seq<Job>, p: Id): seq<Job> {
    if jobs == [] then [] else (if jobs[0].project == p then [jobs[0]] else []) + Of(jobs[1..], p)
  }

  lemma {:induction false} OfConcat(a: seq<Job>, b: seq<Job>, p: Id)
    ensures Of(a + b, p) == Of(a, p) + Of(b, p)
  {
    if a == [] {
      assert a + b == b;
    } else {
      assert (a + b)[1..] == a[1..] + b;
      OfConcat(a[1..], b, p);
      Assoc(if a[0].project == p then [a[0]] else [], Of(a[1..], p), Of(b, p));
    }
  }

  lemma {:induction false} OfNone(jobs: seq<Job>, p: Id)
    requires forall j :: j in jobs ==> j.project != p
    ensures Of(jobs, p) == []
  {
    if jobs != [] {
      OfNone(jobs[1..], p);
    }
  }

  lemma {:induction false} BlockedStartsNone(s: Scheduler, jobs: seq<Job>, p: Id)
    requires Blocked(s, p)
    ensures Of(Dispatch(s, jobs).started, p) == []
    decreases |jobs|
  {
    if jobs != [] {
      if Blocked(s, jobs[0].project) {
        BlockedStartsNone(s, jobs[1..], p);
      } else {
        var t := Spawn(s, jobs[0]);
        BlockedStartsNone(t, jobs[1..], p);
        OfConcat([jobs[0]], Dispatch(t, jobs[1..]).started, p);
      }
    }
  }

  lemma OfHead(jobs: seq<Job>, p: Id)
    requires jobs != []
    ensures Of(jobs, p) == Of([jobs[0]], p) + Of(jobs[1..], p)
  {
    assert jobs == [jobs[0]] + jobs[1..];
    OfConcat([jobs[0]], jobs[1..], p);
  }

  /** What a dispatch starts of a project comes before what it defers of it. */
  lemma {:induction false} DispatchKeepsOrder(s: Scheduler, jobs: seq<Job>, p: Id)
    ensures var r := Dispatch(s, jobs);
            Of(jobs, p) == Of(r.started, p) + Of(r.deferred, p)
    decreases |jobs|
  {
    if jobs != [] {
      var h, t := jobs[0], jobs[1..];
      OfHead(jobs, p);
      if Blocked(s, h.project) {
        DispatchKeepsOrder(s, t, p);
        OfConcat([h], Dispatch(s, t).deferred, p);
        if h.project == p {
          BlockedStartsNone(s, t, p);
        } else {
          assert Of([h], p) == [];
        }
      } else {
        DispatchKeepsOrder(Spawn(s, h), t, p);
        OfConcat([h], Dispatch(Spawn(s, h), t).started, p);
      }
    }
  }

  // ---- the queue -----------------------------------------------------------

  ghost predicate LanesApart(q: Queue) {
    && (forall i :: i in q.manual ==> i.lane == Manual)
    && (forall i :: i in q.git ==> i.lane == Git)
    && (forall i :: i in q.fs ==> i.lane == Fs)
  }

  function LaneItems(items: seq<Item>, lane: Lane): seq<Item> {
    if items == [] then []
    else (if items[0].lane == lane then [items[0]] else []) + LaneItems(items[1..], lane)
  }

  lemma {:induction false} LaneConcat(a: seq<Item>, b: seq<Item>, lane: Lane)
    ensures LaneItems(a + b, lane) == LaneItems(a, lane) + LaneItems(b, lane)
  {
    if a == [] {
      assert a + b == b;
    } else {
      assert (a + b)[1..] == a[1..] + b;
      LaneConcat(a[1..], b, lane);
      Assoc(if a[0].lane == lane then [a[0]] else [], LaneItems(a[1..], lane), LaneItems(b, lane));
    }
  }

  lemma {:induction false} LaneAll(items: seq<Item>, of: Lane, lane: Lane)
    requires forall i :: i in items ==> i.lane == of
    ensures LaneItems(items, lane) == if lane == of then items else []
  {
    if items != [] {
      LaneAll(items[1..], of, lane);
    }
  }

  lemma {:induction false} SubmitAllShape(q: Queue, items: seq<Item>)
    requires LanesApart(q)
    ensures SubmitAll(q, items) == Queue(q.manual + LaneItems(items, Manual),
                                         q.git + LaneItems(items, Git),
                                         q.fs + LaneItems(items, Fs))
    ensures LanesApart(SubmitAll(q, items))
    decreases |items|
  {
    if items != [] {
      SubmitAllShape(Submit(q, items[0]), items[1..]);
    }
  }

  /** Popping until empty yields the manual lane, then git, then fs, each first in first out. */
  lemma {:induction false} DrainedIs(q: Queue)
    ensures Drained(q) == q.manual + q.git + q.fs && Emptied(q) == Queue([], [], [])
    decreases QueueLen(q)
  {
    var (rest, item) := Pop(q);
    if item.Some? {
      DrainedIs(rest);
      assert q.manual + q.git + q.fs == [item.value] + (rest.manual + rest.git + rest.fs);
    }
  }

  lemma LanesOf(q: Queue, lane: Lane)
    requires LanesApart(q)
    ensures LaneItems(q.manual + q.git + q.fs, lane) ==
            match lane case Manual => q.manual case Git => q.git case Fs => q.fs
  {
    LaneConcat(q.manual + q.git, q.fs, lane);
    LaneConcat(q.manual, q.git, lane);
    LaneAll(q.manual, Manual, lane);
    LaneAll(q.git, Git, lane);
    LaneAll(q.fs, Fs, lane);
  }

  /** A drain keeps every lane's order. */
  lemma TickKeepsLanes(items: seq<Item>, lane: Lane)
    ensures LaneItems(Drained(SubmitAll(Queue([], [], []), items)), lane) == LaneItems(items, lane)
  {
    var none := Queue([], [], []);
    SubmitAllShape(none, items);
    var q := SubmitAll(none, items);
    DrainedIs(q);
    LanesOf(q, lane);
    assert [] + LaneItems(items, lane) == LaneItems(items, lane);
  }

  /** The jobs that came through `lane`. */
  function Through(jobs: seq<Job>, lane: Lane): seq<Job> {
    if jobs == [] then [] else (if jobs[0].lane == Some(lane) then [jobs[0]] else []) + Through(jobs[1..], lane)
  }

  lemma {:induction false} ThroughConcat(a: seq<Job>, b: seq<Job>, lane: Lane)
    ensures Through(a + b, lane) == Through(a, lane) + Through(b, lane)
  {
    if a == [] {
      assert a + b == b;
    } else {
      assert (a + b)[1..] == a[1..] + b;
      ThroughConcat(a[1..], b, lane);
      Assoc(if a[0].lane == Some(lane) then [a[0]] else [], Through(a[1..], lane), Through(b, lane));
    }
  }

  lemma {:induction false} JobsConcat(reg: set<Id>, a: seq<Item>, b: seq<Item>)
    ensures JobsOf(reg, a + b) == JobsOf(reg, a) + JobsOf(reg, b)
  {
    if a == [] {
      assert a + b == b;
    } else {
      assert (a + b)[1..] == a[1..] + b;
      JobsConcat(reg, a[1..], b);
      Assoc(if a[0].project in reg then [ToJob(a[0])] else [], JobsOf(reg, a[1..]), JobsOf(reg, b));
    }
  }

  /** The jobs of a lane's items are the items' jobs through that lane. */
  lemma {:induction false} JobsThrough(reg: set<Id>, items: seq<Item>, lane: Lane)
    ensures Through(JobsOf(reg, items), lane) == JobsOf(reg, LaneItems(items, lane))
  {
    if items != [] {
      var h, t := items[0], items[1..];
      JobsThrough(reg, t, lane);
      JobsConcat(reg, [h], t);
      assert [h] + t == items && [h][1..] == [];
      var hj := JobsOf(reg, [h]);
      assert hj == if h.project in reg then [ToJob(h)] else [];
      ThroughConcat(hj, JobsOf(reg, t), lane);
      assert Through(hj, lane) == if h.lane == lane then hj else [] by {
        if hj != [] {
          assert hj[1..] == [] && ToJob(h).lane == Some(h.lane);
        }
      }
      JobsConcat(reg, LaneItems([h], lane), LaneItems(t, lane));
      LaneConcat([h], t, lane);
      assert LaneItems([h], lane) == if h.lane == lane then [h] else [];
    }
  }

  lemma {:induction false} ReclustersPassNoLane(reg: set<Id>, ids: seq<Id>, lane: Lane)
    ensures Through(ReclusterJobs(reg, ids), lane) == []
  {
    if ids != [] {
      ReclustersPassNoLane(reg, ids[1..], lane);
      var h := if ids[0] in reg then [Job(ids[0], Recluster, None)] else [];
      assert h != [] ==> h[1..] == [];
      ThroughConcat(h, ReclusterJobs(reg, ids[1..]), lane);
    }
  }

  // ---- the loop ------------------------------------------------------------

  ghost predicate Accounted(l: Loop) {
    && multiset(l.hist.admitted) == multiset(l.deferred) + multiset(l.sched.tasks) + multiset(l.hist.finished)
    && multiset(l.hist.started) == multiset(l.sched.tasks) + multiset(l.hist.finished)
  }

  ghost predicate InOrder(l: Loop, p: Id) {
    Of(l.hist.admitted, p) == Of(l.hist.started, p) + Of(l.deferred, p)
  }

  ghost predicate LanesKept(reg: set<Id>, l: Loop, lane: Lane) {
    Through(l.hist.admitted, lane) == JobsOf(reg, LaneItems(l.hist.submitted, lane))
  }

  ghost predicate LoopInv(reg: set<Id>, l: Loop) {
    && SchedInv(l.sched) && l.queue == Queue([], [], [])
    && Accounted(l) && (forall p :: InOrder(l, p)) && forall lane :: LanesKept(reg, l, lane)
  }

  lemma TopDispatchOrder(l: Loop, p: Id)
    requires InOrder(l, p)
    ensures InOrder(TopDispatch(l), p)
  {
    var r := Dispatch(l.sched, l.deferred);
    DispatchKeepsOrder(l.sched, l.deferred, p);
    OfConcat(l.hist.started, r.started, p);
    Assoc(Of(l.hist.started, p), Of(r.started, p), Of(r.deferred, p));
  }

  lemma TopDispatchKeeps(reg: set<Id>, l: Loop)
    requires LoopInv(reg, l)
    ensures LoopInv(reg, TopDispatch(l))
  {
    DispatchKeeps(l.sched, l.deferred);
    DispatchTasks(l.sched, l.deferred);
    DispatchConserves(l.sched, l.deferred);
    var m := TopDispatch(l);
    forall p ensures InOrder(m, p) {
      assert InOrder(l, p);
      TopDispatchOrder(l, p);
    }
    forall lane ensures LanesKept(reg, m, lane) {
      assert LanesKept(reg, l, lane);
    }
  }

  lemma {:induction false} ReclustersAreQuiet(reg: set<Id>, l: Loop, order: seq<Id>)
    ensures forall j :: j in ReclusterJobs(reg, QuietOf(l, order)) ==>
                          Quiet(l, j.project) && j.project in order && j.project in reg && j.op == Recluster
  {
    if order != [] {
      var h, rest := order[0], QuietOf(l, order[1..]);
      ReclustersAreQuiet(reg, l, order[1..]);
      if Quiet(l, h) {
        assert QuietOf(l, order) == [h] + rest && ([h] + rest)[1..] == rest;
      } else {
        assert QuietOf(l, order) == rest;
      }
    }
  }

  lemma ReclusteredOrDeferred(reg: set<Id>, l: Loop, order: seq<Id>, p: Id)
    ensures Of(ReclusterJobs(reg, QuietOf(l, order)), p) == [] || Of(l.deferred, p) == []
  {
    var jobs := ReclusterJobs(reg, QuietOf(l, order));
    ReclustersAreQuiet(reg, l, order);
    if j :| j in jobs && j.project == p {
      assert Quiet(l, p);
      OfNone(l.deferred, p);
    } else {
      OfNone(jobs, p);
    }
  }

  /** A recluster is made only for a project with nothing deferred, so it queues behind nothing. */
  lemma ReclusterOrder(reg: set<Id>, l: Loop, order: seq<Id>, p: Id)
    requires InOrder(l, p)
    ensures InOrder(TopRecluster(reg, l, order), p)
  {
    var jobs := ReclusterJobs(reg, QuietOf(l, order));
    var r := Dispatch(l.sched, jobs);
    ReclusteredOrDeferred(reg, l, order, p);
    DispatchKeepsOrder(l.sched, jobs, p);
    OfConcat(l.hist.admitted, jobs, p);
    OfConcat(l.hist.started, r.started, p);
    OfConcat(l.deferred, r.deferred, p);
    Rejoin(Of(l.hist.started, p), Of(l.deferred, p), Of(r.started, p), Of(r.deferred, p));
  }

  lemma Rejoin<T>(s: seq<T>, d: seq<T>, s1: seq<T>, d1: seq<T>)
    requires d == [] || s1 + d1 == []
    ensures s + d + (s1 + d1) == (s + s1) + (d + d1)
  {
    if d != [] {
      assert |s1 + d1| == 0;
      assert s1 == [] && d1 == [];
    }
  }

  lemma TopReclusterKeeps(reg: set<Id>, l: Loop, order: seq<Id>)
    requires LoopInv(reg, l)
    ensures LoopInv(reg, TopRecluster(reg, l, order))
  {
    var jobs, m := ReclusterJobs(reg, QuietOf(l, order)), TopRecluster(reg, l, order);
    DispatchKeeps(l.sched, jobs);
    DispatchTasks(l.sched, jobs);
    DispatchConserves(l.sched, jobs);
    forall p ensures InOrder(m, p) {
      assert InOrder(l, p);
      ReclusterOrder(reg, l, order, p);
    }
    forall lane ensures LanesKept(reg, m, lane) {
      assert LanesKept(reg, l, lane);
      ThroughConcat(l.hist.admitted, jobs, lane);
      ReclustersPassNoLane(reg, QuietOf(l, order), lane);
    }
  }

  lemma TickKeeps(reg: set<Id>, l: Loop, items: seq<Item>)
    requires LoopInv(reg, l)
    ensures LoopInv(reg, Tick(reg, l, items))
  {
    var q := SubmitAll(l.queue, items);
    var jobs, m := JobsOf(reg, Drained(q)), Tick(reg, l, items);
    DrainedIs(q);
    forall p ensures InOrder(m, p) {
      assert InOrder(l, p);
      OfConcat(l.hist.admitted, jobs, p);
      OfConcat(l.deferred, jobs, p);
    }
    forall lane ensures LanesKept(reg, m, lane) {
      assert LanesKept(reg, l, lane);
      TickKeepsLanes(items, lane);
      JobsThrough(reg, Drained(q), lane);
      ThroughConcat(l.hist.admitted, jobs, lane);
      LaneConcat(l.hist.submitted, items, lane);
      JobsConcat(reg, LaneItems(l.hist.submitted, lane), LaneItems(items, lane));
    }
  }

  lemma CompleteKeeps(reg: set<Id>, l: Loop, i: nat, outcome: Outcome)
    requires LoopInv(reg, l) && i < |l.sched.tasks|
    ensures LoopInv(reg, Complete(l, i, outcome))
  {
    var m := Complete(l, i, outcome);
    JoinKeeps(l.sched, i);
    assert l.sched.tasks == l.sched.tasks[..i] + [l.sched.tasks[i]] + l.sched.tasks[i + 1..];
    forall p ensures InOrder(m, p) {
      assert InOrder(l, p);
    }
    forall lane ensures LanesKept(reg, m, lane) {
      assert LanesKept(reg, l, lane);
    }
  }

  lemma ExitKeeps(reg: set<Id>, l: Loop)
    requires LoopInv(reg, l)
    ensures LoopInv(reg, l.(exited := true))
  {
    var m := l.(exited := true);
    forall p ensures InOrder(m, p) {
      assert InOrder(l, p);
    }
    forall lane ensures LanesKept(reg, m, lane) {
      assert LanesKept(reg, l, lane);
    }
  }

  lemma TakeKeeps(reg: set<Id>, l: Loop, b: Branch)
    requires LoopInv(reg, l)
    ensures LoopInv(reg, Take(reg, l, b))
  {
    match b
    case Ticked(items) => TickKeeps(reg, l, items);
    case Joined(i, outcome) =>
      if i < |l.sched.tasks| {
        CompleteKeeps(reg, l, i, outcome);
      }
    case Elsewhere =>
  }

  lemma TopKeeps(reg: set<Id>, l: Loop, order: seq<Id>)
    requires LoopInv(reg, l)
    ensures LoopInv(reg, Top(reg, l, order))
  {
    TopDispatchKeeps(reg, l);
    TopReclusterKeeps(reg, TopDispatch(l), order);
  }

  lemma TurnKeeps(reg: set<Id>, l: Loop, t: Turn)
    requires LoopInv(reg, l)
    ensures LoopInv(reg, DoTurn(reg, l, t))
  {
    if !l.exited {
      TopKeeps(reg, l, t.order);
      var top := Top(reg, l, t.order);
      ExitKeeps(reg, top);
      TakeKeeps(reg, top, t.branch);
    }
  }

  /**
   * In every run of the loop: at most `permits` jobs run and at most one per project; every admitted
   * job is deferred, running or finished, exactly once; each project's jobs start in the order they
   * were admitted; and each lane's jobs were admitted in the order they were submitted.
   */
  lemma {:induction false} LoopConserves(reg: set<Id>, permits: nat, ts: seq<Turn>)
    ensures LoopInv(reg, Turns(reg, Start(permits), ts))
  {
    if ts == [] {
      var l := Start(permits);
      forall p ensures InOrder(l, p) {
      }
      forall lane ensures LanesKept(reg, l, lane) {
      }
    } else {
      var front := ts[..|ts| - 1];
      LoopConserves(reg, permits, front);
      TurnKeeps(reg, Turns(reg, Start(permits), front), ts[|ts| - 1]);
    }
  }

  lemma {:induction false} ThroughOf(jobs: seq<Job>, p: Id, lane: Lane)
    ensures Of(Through(jobs, lane), p) == Through(Of(jobs, p), lane)
  {
    if jobs != [] {
      var h, t := jobs[0], jobs[1..];
      ThroughOf(t, p, lane);
      assert [h][1..] == [];
      OfConcat(if h.lane == Some(lane) then [h] else [], Through(t, lane), p);
      ThroughConcat(if h.project == p then [h] else [], Of(t, p), lane);
    }
  }

  /**
   * For each project and lane, jobs start in submission order: what has started of them, then what
   * is still deferred, is exactly the registered items submitted for them, in order.
   */
  lemma StartsInSubmissionOrder(reg: set<Id>, permits: nat, ts: seq<Turn>, p: Id, lane: Lane)
    ensures var l := Turns(reg, Start(permits), ts);
            Of(JobsOf(reg, LaneItems(l.hist.submitted, lane)), p) ==
            Through(Of(l.hist.started, p), lane) + Through(Of(l.deferred, p), lane)
  {
    var l := Turns(reg, Start(permits), ts);
    LoopConserves(reg, permits, ts);
    assert InOrder(l, p) && LanesKept(reg, l, lane);
    ThroughOf(l.hist.admitted, p, lane);
    ThroughConcat(Of(l.hist.started, p), Of(l.deferred, p), lane);
  }
}
