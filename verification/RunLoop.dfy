/** `PriorityQueue`, `ApplyScheduler` and the run loop's own state, updated in place against LoopSpec. */
module RunLoop {
  import opened Prelude
  import opened Graph
  import Spec = LoopSpec

  class PriorityQueue {
    var manual: seq<Spec.Item>
    var git: seq<Spec.Item>
    var fs: seq<Spec.Item>

    ghost function Model(): Spec.Queue
      reads this
    {
      Spec.Queue(manual, git, fs)
    }

    constructor ()
      ensures Model() == Spec.Queue([], [], [])
    {
      manual, git, fs := [], [], [];
    }

    method Submit(item: Spec.Item)
      modifies this
      ensures Model() == Spec.Submit(old(Model()), item)
    {
      match item.lane
      case Manual => manual := manual + [item];
      case Git => git := git + [item];
      case Fs => fs := fs + [item];
    }

    method Pop() returns (item: Option<Spec.Item>)
      modifies this
      ensures (Model(), item) == Spec.Pop(old(Model()))
    {
      if manual != [] {
        item, manual := Some(manual[0]), manual[1..];
      } else if git != [] {
        item, git := Some(git[0]), git[1..];
      } else if fs != [] {
        item, fs := Some(fs[0]), fs[1..];
      } else {
        item := None;
      }
    }

    method HasProject(id: Id) returns (found: bool)
      ensures found <==> Spec.HasProject(Model(), id)
    {
      var all := manual + git + fs;
      found := false;
      for k := 0 to |all|
        invariant found <==> exists j :: 0 <= j < k && all[j].project == id
      {
        if all[k].project == id { found := true; }
      }
    }
  }

  class ApplyScheduler {
    const permits: nat
    var inflight: set<Id>
    var tasks: seq<Spec.Job>

    ghost function Model(): Spec.Scheduler
      reads this
    {
      Spec.Scheduler(permits, inflight, tasks)
    }

    constructor (permits: nat)
      ensures Model() == Spec.NewScheduler(permits)
    {
      this.permits := if permits < 1 then 1 else permits;
      inflight, tasks := {}, [];
    }

    method Dispatch(jobs: seq<Spec.Job>) returns (deferred: seq<Spec.Job>, ghost started: seq<Spec.Job>)
      modifies this
      ensures Spec.Dispatched(Model(), started, deferred) == Spec.Dispatch(old(Model()), jobs)
    {
      deferred, started := [], [];
      ghost var whole := Spec.Dispatch(Model(), jobs);
      assert [] + whole.started == whole.started && [] + whole.deferred == whole.deferred;
      for k := 0 to |jobs|
        invariant var rest := Spec.Dispatch(Model(), jobs[k..]);
                  whole == Spec.Dispatched(rest.sched, started + rest.started, deferred + rest.deferred)
      {
        var job := jobs[k];
        ghost var before := Model();
        assert jobs[k..][1..] == jobs[k + 1..];
        if |inflight| >= permits || job.project in inflight {
          ghost var rest := Spec.Dispatch(before, jobs[k + 1..]);
          assert deferred + ([job] + rest.deferred) == deferred + [job] + rest.deferred;
          deferred := deferred + [job];
        } else {
          inflight := inflight + {job.project};
          tasks := tasks + [job];
          ghost var rest := Spec.Dispatch(Model(), jobs[k + 1..]);
          assert Model() == Spec.Spawn(before, job);
          assert started + ([job] + rest.started) == started + [job] + rest.started;
          started := started + [job];
        }
      }
      assert started + [] == started && deferred + [] == deferred;
    }

    /** Running job `i` completed. */
    method JoinNext(i: nat) returns (job: Spec.Job)
      requires i < |tasks|
      modifies this
      ensures job == old(tasks)[i] && Model() == Spec.Join(old(Model()), i)
    {
      job := tasks[i];
      tasks := tasks[..i] + tasks[i + 1..];
      inflight := inflight - {job.project};
    }
  }

  class Daemon {
    const queue: PriorityQueue
    const scheduler: ApplyScheduler
    /** The registered project ids, fixed for the loop's life. */
    const registry: set<Id>
    var deferred: seq<Spec.Job>
    var owes: set<Id>
    var exited: bool
    ghost var hist: Spec.History

    ghost function Model(): Spec.Loop
      reads this, queue, scheduler
    {
      Spec.Loop(queue.Model(), scheduler.Model(), deferred, owes, exited, hist)
    }

    constructor (queue: PriorityQueue, scheduler: ApplyScheduler, registry: set<Id>)
      ensures this.queue == queue && this.scheduler == scheduler && this.registry == registry
      ensures Model() == Spec.Loop(queue.Model(), scheduler.Model(), [], {}, false, Spec.History([], [], [], [], []))
    {
      this.queue, this.scheduler, this.registry := queue, scheduler, registry;
      deferred, owes, exited, hist := [], {}, false, Spec.History([], [], [], [], []);
    }

    /** The loop's head: dispatch the backlog, then recluster whoever is quiet. */
    method Top() returns (ghost order: seq<Id>)
      modifies this, queue, scheduler
      ensures NoDup(order) && Elements(order) == old(owes)
      ensures Model() == Spec.Top(registry, old(Model()), order)
    {
      ghost var started: seq<Spec.Job>;
      deferred, started := scheduler.Dispatch(deferred);
      hist := hist.(started := hist.started + started);
      var quiet: seq<Id>;
      quiet, order := QuietOwing();
      var jobs := MakeReclusters(quiet);
      owes := owes - set id | id in quiet;
      var rest: seq<Spec.Job>;
      rest, started := scheduler.Dispatch(jobs);
      deferred := deferred + rest;
      hist := hist.(admitted := hist.admitted + jobs,
                    started := hist.started + started,
                    marks := hist.marks + Spec.MadeMarks(jobs));
    }

    method QuietOwing() returns (quiet: seq<Id>, ghost order: seq<Id>)
      ensures NoDup(order) && Elements(order) == owes
      ensures quiet == Spec.QuietOf(Model(), order)
      ensures NoDup(quiet) && forall id :: id in quiet <==> id in owes && Spec.Quiet(Model(), id)
    {
      quiet, order := [], [];
      var rest := owes;
      while rest != {}
        invariant rest <= owes && NoDup(order) && forall id :: id in order <==> id in owes - rest
        invariant quiet == Spec.QuietOf(Model(), order)
        invariant NoDup(quiet) && forall id :: id in quiet <==> id in owes - rest && Spec.Quiet(Model(), id)
        decreases rest
      {
        var id :| id in rest;
        rest := rest - {id};
        NoDupSnoc(order, id);
        QuietSnoc(Model(), order, id);
        order := order + [id];
        var queued := queue.HasProject(id);
        if !queued && id !in scheduler.inflight && forall j :: j in deferred ==> j.project != id {
          quiet := quiet + [id];
        }
      }
    }

    static lemma {:induction false} QuietSnoc(l: Spec.Loop, order: seq<Id>, id: Id)
      ensures Spec.QuietOf(l, order + [id]) == Spec.QuietOf(l, order) + if Spec.Quiet(l, id) then [id] else []
    {
      if order == [] {
        assert [id][1..] == [];
      } else {
        assert (order + [id])[1..] == order[1..] + [id];
        QuietSnoc(l, order[1..], id);
      }
    }

    method MakeReclusters(ids: seq<Id>) returns (jobs: seq<Spec.Job>)
      ensures jobs == Spec.ReclusterJobs(registry, ids)
    {
      jobs := [];
      ghost var whole := Spec.ReclusterJobs(registry, ids);
      for k := 0 to |ids|
        invariant whole == jobs + Spec.ReclusterJobs(registry, ids[k..])
      {
        assert ids[k..][1..] == ids[k + 1..];
        if ids[k] in registry {
          jobs := jobs + [Spec.Job(ids[k], Spec.Recluster, None)];
        }
      }
    }

    /** Idle shutdown, when the timeout passed with nothing queued, deferred, running or owed. */
    method TryIdleExit(timedOut: bool)
      modifies this`exited
      ensures Model() == if timedOut && Spec.Idle(old(Model())) then old(Model()).(exited := true) else old(Model())
    {
      if timedOut && |queue.manual| + |queue.git| + |queue.fs| == 0 && deferred == []
         && scheduler.inflight == {} && owes == {} {
        exited := true;
      }
    }

    ghost static function ShareOf(registry: set<Id>, item: Spec.Item): seq<Spec.Job> {
      if item.project in registry then [Spec.ToJob(item)] else []
    }

    /** One pop's share of the jobs a drain yields. */
    static lemma JobsOfPop(registry: set<Id>, q: Spec.Queue)
      requires Spec.Pop(q).1.Some?
      ensures var (rest, item) := Spec.Pop(q);
              Spec.JobsOf(registry, Spec.Drained(q)) ==
              ShareOf(registry, item.value) + Spec.JobsOf(registry, Spec.Drained(rest))
    {
      var (rest, item) := Spec.Pop(q);
      assert ([item.value] + Spec.Drained(rest))[1..] == Spec.Drained(rest);
    }

    /** `collect_apply_jobs`, after `routed` was submitted: the queue is popped empty into the backlog. */
    method Collect(ghost routed: seq<Spec.Item>)
      modifies this, queue
      ensures var jobs := Spec.JobsOf(registry, Spec.Drained(old(queue.Model())));
              Model() == old(Model()).(queue := Spec.Emptied(old(queue.Model())),
                                       deferred := old(deferred) + jobs,
                                       hist := old(hist).(submitted := old(hist).submitted + routed,
                                                          admitted := old(hist).admitted + jobs))
    {
      ghost var jobs := PopAll();
      hist := hist.(submitted := hist.submitted + routed, admitted := hist.admitted + jobs);
    }

    method PopAll() returns (ghost jobs: seq<Spec.Job>)
      modifies this`deferred, queue
      ensures jobs == Spec.JobsOf(registry, Spec.Drained(old(queue.Model())))
      ensures deferred == old(deferred) + jobs && queue.Model() == Spec.Emptied(old(queue.Model()))
    {
      jobs := [];
      ghost var all, end := Spec.JobsOf(registry, Spec.Drained(queue.Model())), Spec.Emptied(queue.Model());
      ghost var rest := all;
      assert [] + rest == rest;
      var item := queue.Pop();
      while item.Some?
        invariant deferred == old(deferred) + jobs && all == jobs + rest
        invariant item.Some? ==> rest == ShareOf(registry, item.value) + Spec.JobsOf(registry, Spec.Drained(queue.Model()))
        invariant item.None? ==> rest == [] && queue.Model() == end
        invariant end == Spec.Emptied(queue.Model())
        decreases item.Some?, Spec.QueueLen(queue.Model())
      {
        ghost var share, before := ShareOf(registry, item.value), queue.Model();
        rest := Spec.JobsOf(registry, Spec.Drained(before));
        Assoc(jobs, share, rest);
        jobs := jobs + share;
        if item.value.project in registry {
          deferred := deferred + [Spec.ToJob(item.value)];
        }
        item := queue.Pop();
        if item.Some? {
          JobsOfPop(registry, before);
        }
      }
      assert jobs + [] == jobs;
    }

    /** `drain`: wait for every running job, in whatever order they finish. */
    method Drain(outcome: Spec.Job -> Spec.Outcome) returns (ghost picks: seq<nat>)
      modifies this, scheduler
      ensures scheduler.tasks == [] && |picks| == |old(scheduler.tasks)|
      ensures Model() == Spec.DrainBy(old(Model()), picks, outcome)
    {
      picks := [];
      ghost var start := Model();
      while scheduler.tasks != []
        invariant |picks| + |scheduler.tasks| == |old(scheduler.tasks)|
        invariant Model() == Spec.DrainBy(start, picks, outcome)
        decreases |scheduler.tasks|
      {
        var i: nat :| i < |scheduler.tasks|;
        DrainMore(start, picks, i, outcome);
        picks := picks + [i];
        Complete(i, outcome(scheduler.tasks[i]));
      }
    }

    static lemma {:induction false} DrainMore(l: Spec.Loop, picks: seq<nat>, i: nat, outcome: Spec.Job -> Spec.Outcome)
      requires i < |Spec.DrainBy(l, picks, outcome).sched.tasks|
      requires |picks| + |Spec.DrainBy(l, picks, outcome).sched.tasks| == |l.sched.tasks|
      ensures var m := Spec.DrainBy(l, picks, outcome);
              Spec.DrainBy(l, picks + [i], outcome) == Spec.Complete(m, i, outcome(m.sched.tasks[i]))
      decreases |picks|
    {
      if picks != [] {
        assert (picks + [i])[1..] == picks[1..] + [i];
        DrainMore(Spec.Complete(l, picks[0], outcome(l.sched.tasks[picks[0]])), picks[1..], i, outcome);
      }
    }

    /**
     * The end of a forced exit: running jobs finish, then every project still owing is reclustered.
     * A recluster that errors is logged; what is deferred is dropped.
     */
    method ForcedExit(outcome: Spec.Job -> Spec.Outcome, failing: set<Id>)
      returns (ghost picks: seq<nat>, ghost order: seq<Id>)
      modifies this, scheduler
      ensures |picks| == |old(scheduler.tasks)| && scheduler.tasks == []
      ensures var drained := Spec.DrainBy(old(Model()), picks, outcome);
              && NoDup(order) && Elements(order) == drained.owes
              && Model() == Spec.SettleDebts(registry, drained, order, failing)
    {
      picks := Drain(outcome);
      order := [];
      ghost var drained := Model();
      while owes != {}
        invariant owes <= drained.owes && NoDup(order) && forall id :: id in order <==> id in drained.owes - owes
        invariant Model() == drained.(owes := owes, hist := drained.hist.(marks := hist.marks))
        invariant hist.marks == drained.hist.marks + Spec.SettlingMarks(registry, order, failing)
        decreases owes
      {
        var id :| id in owes;
        owes := owes - {id};
        NoDupSnoc(order, id);
        assert (order + [id])[..|order|] == order;
        order := order + [id];
        if id in registry {
          hist := hist.(marks := hist.marks + [if id in failing then Spec.Errored(id) else Spec.Reclustered(id)]);
        }
      }
    }

    /** Running job `i` finished with `outcome`. */
    method Complete(i: nat, outcome: Spec.Outcome)
      requires i < |scheduler.tasks|
      modifies this, scheduler
      ensures Model() == Spec.Complete(old(Model()), i, outcome)
    {
      var job := scheduler.JoinNext(i);
      if outcome.Applied? && outcome.changed > 0 && !job.op.Recluster? {
        owes := owes + {job.project};
      }
      hist := hist.(finished := hist.finished + [job], marks := hist.marks + Spec.FinishMarks(job, outcome));
    }
  }
}
