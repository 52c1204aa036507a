/** The run loop on values: queue, scheduler, backlog and recluster debts, one turn at a time. */
module LoopSpec {
  import opened Prelude
  import opened Graph

  datatype Lane = Manual | Git | Fs

  /** What a job does; a changeset is known by number. */
  datatype Op = Apply(changeset: nat) | ApplyExact(changeset: nat) | Reconcile(deep: bool) | Recluster

  datatype Item = Item(project: Id, op: Op, lane: Lane)

  /** A dispatchable job; `lane` remembers the queue lane it came through, if any. */
  datatype Job = Job(project: Id, op: Op, lane: Option<Lane>)

  datatype Queue = Queue(manual: seq<Item>, git: seq<Item>, fs: seq<Item>)

  function Submit(q: Queue, item: Item): Queue {
    match item.lane
    case Manual => q.(manual := q.manual + [item])
    case Git => q.(git := q.git + [item])
    case Fs => q.(fs := q.fs + [item])
  }

  function SubmitAll(q: Queue, items: seq<Item>): Queue
    decreases |items|
  {
    if items == [] then q else SubmitAll(Submit(q, items[0]), items[1..])
  }

  function Pop(q: Queue): (Queue, Option<Item>) {
    if q.manual != [] then (q.(manual := q.manual[1..]), Some(q.manual[0]))
    else if q.git != [] then (q.(git := q.git[1..]), Some(q.git[0]))
    else if q.fs != [] then (q.(fs := q.fs[1..]), Some(q.fs[0]))
    else (q, None)
  }

  predicate HasProject(q: Queue, id: Id) {
    exists i :: i in q.manual + q.git + q.fs && i.project == id
  }

  function QueueLen(q: Queue): nat {
    |q.manual| + |q.git| + |q.fs|
  }

  // ---- the scheduler -------------------------------------------------------

  /** `tasks` are the jobs running on the pool, in the order they were spawned. */
  datatype Scheduler = Scheduler(permits: nat, inflight: set<Id>, tasks: seq<Job>)

  function NewScheduler(permits: nat): Scheduler {
    Scheduler(if permits < 1 then 1 else permits, {}, [])
  }

  predicate Blocked(s: Scheduler, id: Id) {
    |s.inflight| >= s.permits || id in s.inflight
  }

  function Spawn(s: Scheduler, job: Job): Scheduler {
    s.(inflight := s.inflight + {job.project}, tasks := s.tasks + [job])
  }

  datatype Dispatched = Dispatched(sched: Scheduler, started: seq<Job>, deferred: seq<Job>)

  function Dispatch(s: Scheduler, jobs: seq<Job>): Dispatched
    decreases |jobs|
  {
    if jobs == [] then Dispatched(s, [], [])
    else if Blocked(s, jobs[0].project) then
      var r := Dispatch(s, jobs[1..]);
      r.(deferred := [jobs[0]] + r.deferred)
    else
      var r := Dispatch(Spawn(s, jobs[0]), jobs[1..]);
      r.(started := [jobs[0]] + r.started)
  }

  function Join(s: Scheduler, i: nat): Scheduler
    requires i < |s.tasks|
  {
    s.(inflight := s.inflight - {s.tasks[i].project}, tasks := s.tasks[..i] + s.tasks[i + 1..])
  }

  // ---- the loop ------------------------------------------------------------

  /** How a job ended: with so many files changed, or with an error. */
  datatype Outcome = Applied(changed: nat) | Failed

  /** Every job of the loop is on the producer lane, so an apply that changed something owes a recluster. */
  predicate Owes(job: Job, outcome: Outcome) {
    outcome.Applied? && outcome.changed > 0 && !job.op.Recluster?
  }

  datatype Mark = Owed(id: Id) | Made(id: Id) | Reclustered(id: Id) | Errored(id: Id)

  /** What happened so far: items submitted, jobs admitted, started and finished, and the debt marks. */
  datatype History = History(
    submitted: seq<Item>, admitted: seq<Job>, started: seq<Job>, finished: seq<Job>, marks: seq<Mark>)

  datatype Loop = Loop(
    queue: Queue, sched: Scheduler, deferred: seq<Job>, owes: set<Id>, exited: bool, hist: History)

  function Start(permits: nat): Loop {
    Loop(Queue([], [], []), NewScheduler(permits), [], {}, false, History([], [], [], [], []))
  }

  predicate Quiet(l: Loop, id: Id) {
    && !HasProject(l.queue, id)
    && id !in l.sched.inflight
    && forall j :: j in l.deferred ==> j.project != id
  }

  /** The owing projects that are quiet, in the order the debt set is walked. */
  function QuietOf(l: Loop, order: seq<Id>): seq<Id> {
    if order == [] then []
    else (if Quiet(l, order[0]) then [order[0]] else []) + QuietOf(l, order[1..])
  }

  function ReclusterJobs(reg: set<Id>, ids: seq<Id>): seq<Job> {
    if ids == [] then []
    else (if ids[0] in reg then [Job(ids[0], Recluster, None)] else []) + ReclusterJobs(reg, ids[1..])
  }

  function MadeMarks(jobs: seq<Job>): seq<Mark> {
    if jobs == [] then [] else [Made(jobs[0].project)] + MadeMarks(jobs[1..])
  }

  /** Dispatch the backlog. */
  function TopDispatch(l: Loop): Loop {
    var r := Dispatch(l.sched, l.deferred);
    l.(sched := r.sched, deferred := r.deferred, hist := l.hist.(started := l.hist.started + r.started))
  }

  /** Turn the debts of quiet projects into Recluster jobs and dispatch those. */
  function TopRecluster(reg: set<Id>, l: Loop, order: seq<Id>): Loop {
    var quiet := QuietOf(l, order);
    var jobs := ReclusterJobs(reg, quiet);
    var r := Dispatch(l.sched, jobs);
    l.(sched := r.sched,
       deferred := l.deferred + r.deferred,
       owes := l.owes - (set id | id in quiet),
       hist := l.hist.(admitted := l.hist.admitted + jobs,
                       started := l.hist.started + r.started,
                       marks := l.hist.marks + MadeMarks(jobs)))
  }

  function Top(reg: set<Id>, l: Loop, order: seq<Id>): Loop {
    TopRecluster(reg, TopDispatch(l), order)
  }

  predicate Idle(l: Loop) {
    QueueLen(l.queue) == 0 && l.deferred == [] && l.sched.inflight == {} && l.owes == {}
  }

  function ToJob(item: Item): Job {
    Job(item.project, item.op, Some(item.lane))
  }

  /** The jobs of the registered items, in order; an unregistered item is logged and skipped. */
  function JobsOf(reg: set<Id>, items: seq<Item>): seq<Job> {
    if items == [] then []
    else (if items[0].project in reg then [ToJob(items[0])] else []) + JobsOf(reg, items[1..])
  }

  /** Everything the queue holds, in the order popping yields it. */
  function Drained(q: Queue): seq<Item>
    decreases QueueLen(q)
  {
    var (rest, item) := Pop(q);
    if item.None? then [] else [item.value] + Drained(rest)
  }

  function Emptied(q: Queue): Queue
    decreases QueueLen(q)
  {
    var (rest, item) := Pop(q);
    if item.None? then q else Emptied(rest)
  }

  /** The drain tick: route the producers' items into the queue, then collect all of it. */
  function Tick(reg: set<Id>, l: Loop, items: seq<Item>): Loop {
    var q := SubmitAll(l.queue, items);
    var jobs := JobsOf(reg, Drained(q));
    l.(queue := Emptied(q),
       deferred := l.deferred + jobs,
       hist := l.hist.(submitted := l.hist.submitted + items, admitted := l.hist.admitted + jobs))
  }

  function FinishMarks(job: Job, outcome: Outcome): seq<Mark> {
    if job.op.Recluster? then [if outcome.Applied? then Reclustered(job.project) else Errored(job.project)]
    else if Owes(job, outcome) then [Owed(job.project)]
    else []
  }

  /** A job finished: its slot is freed and a change-making apply leaves a debt. */
  function Complete(l: Loop, i: nat, outcome: Outcome): Loop
    requires i < |l.sched.tasks|
  {
    var job := l.sched.tasks[i];
    l.(sched := Join(l.sched, i),
       owes := if Owes(job, outcome) then l.owes + {job.project} else l.owes,
       hist := l.hist.(finished := l.hist.finished + [job],
                       marks := l.hist.marks + FinishMarks(job, outcome)))
  }

  /** The running jobs complete one by one, in the order the picks name them. */
  function DrainBy(l: Loop, picks: seq<nat>, outcome: Job -> Outcome): Loop
    decreases |picks|
  {
    if picks == [] then l
    else if picks[0] < |l.sched.tasks| then
      DrainBy(Complete(l, picks[0], outcome(l.sched.tasks[picks[0]])), picks[1..], outcome)
    else l
  }

  /** The marks of the reclusters of `order`, those of `failing` projects erroring. */
  function SettlingMarks(reg: set<Id>, order: seq<Id>, failing: set<Id>): seq<Mark> {
    if order == [] then []
    else
      var id := order[|order| - 1];
      SettlingMarks(reg, order[..|order| - 1], failing)
      + (if id !in reg then [] else if id in failing then [Errored(id)] else [Reclustered(id)])
  }

  /** The reclusters a shutdown still runs, one after the other, before the backlog is dropped. */
  function SettleDebts(reg: set<Id>, l: Loop, order: seq<Id>, failing: set<Id>): Loop {
    l.(owes := {}, hist := l.hist.(marks := l.hist.marks + SettlingMarks(reg, order, failing)))
  }

  datatype Branch = Ticked(items: seq<Item>) | Joined(i: nat, outcome: Outcome) | Elsewhere

  function Take(reg: set<Id>, l: Loop, b: Branch): Loop {
    match b
    case Ticked(items) => Tick(reg, l, items)
    case Joined(i, outcome) => if i < |l.sched.tasks| then Complete(l, i, outcome) else l
    case Elsewhere => l
  }

  /** One turn of the loop: the walk order of the debts, whether the idle timeout passed, the branch. */
  datatype Turn = Turn(order: seq<Id>, timedOut: bool, branch: Branch)

  function DoTurn(reg: set<Id>, l: Loop, t: Turn): Loop {
    if l.exited then l
    else
      var top := Top(reg, l, t.order);
      if t.timedOut && Idle(top) then top.(exited := true) else Take(reg, top, t.branch)
  }

  function Turns(reg: set<Id>, l: Loop, ts: seq<Turn>): Loop {
    if ts == [] then l else DoTurn(reg, Turns(reg, l, ts[..|ts| - 1]), ts[|ts| - 1])
  }

  /** The walk order lists the debt set, each id once. */
  ghost predicate Walks(l: Loop, t: Turn) {
    NoDup(t.order) && forall id :: id in t.order <==> id in l.owes
  }

  ghost predicate AllWalk(reg: set<Id>, l: Loop, ts: seq<Turn>) {
    ts != [] ==>
      var front := ts[..|ts| - 1];
      AllWalk(reg, l, front) && Walks(Turns(reg, l, front), ts[|ts| - 1])
  }
}
