/** Recluster debts: where each need of a recluster is recorded, over every run of the loop. */
module LoopDebt {
  import opened Prelude
  import opened Graph
  import opened LoopSpec
  import opened LoopOrder

  /** A change-making apply of `id` completed after its last completed recluster. */
  function Needs(marks: seq<Mark>, id: Id): bool {
    if marks == [] then false
    else
      match marks[|marks| - 1]
      case Owed(x) => x == id || Needs(marks[..|marks| - 1], id)
      case Reclustered(x) => x != id && Needs(marks[..|marks| - 1], id)
      case _ => Needs(marks[..|marks| - 1], id)
  }

  /** A change-making apply of `id` completed after its last Recluster job was made. */
  function OwedSinceMade(marks: seq<Mark>, id: Id): bool {
    if marks == [] then false
    else
      match marks[|marks| - 1]
      case Owed(x) => x == id || OwedSinceMade(marks[..|marks| - 1], id)
      case Made(x) => x != id && OwedSinceMade(marks[..|marks| - 1], id)
      case _ => OwedSinceMade(marks[..|marks| - 1], id)
  }

  /** A recluster of `id` errored, and no apply of it has changed anything since. */
  function ErroredLast(marks: seq<Mark>, id: Id): bool {
    if marks == [] then false
    else
      match marks[|marks| - 1]
      case Owed(x) => x != id && ErroredLast(marks[..|marks| - 1], id)
      case Errored(x) => x == id || ErroredLast(marks[..|marks| - 1], id)
      case _ => ErroredLast(marks[..|marks| - 1], id)
  }

  /** Every Recluster job was made with such an apply since the one before. */
  ghost predicate Alternates(marks: seq<Mark>) {
    marks != [] ==>
      var front, m := marks[..|marks| - 1], marks[|marks| - 1];
      Alternates(front) && (m.Made? ==> OwedSinceMade(front, m.id))
  }

  predicate IsRecluster(j: Job, id: Id) {
    j.project == id && j.op.Recluster?
  }

  /** A Recluster job for `id` is deferred or running. */
  ghost predicate Pending(l: Loop, id: Id) {
    exists j :: (j in l.deferred || j in l.sched.tasks) && IsRecluster(j, id)
  }

  // ---- a project's line: its running job, then its deferred ones -----------

  function Line(l: Loop, id: Id): seq<Job> {
    Of(l.sched.tasks, id) + Of(l.deferred, id)
  }

  predicate HeadReclusters(line: seq<Job>) {
    line != [] && line[0].op.Recluster?
  }

  /** Nothing behind the head of a line is a Recluster job. */
  ghost predicate PlainTail(line: seq<Job>) {
    forall k :: 0 < k < |line| ==> !line[k].op.Recluster?
  }

  lemma {:induction false} OfMembers(jobs: seq<Job>, id: Id)
    ensures forall j :: j in Of(jobs, id) <==> j in jobs && j.project == id
  {
    if jobs != [] {
      OfMembers(jobs[1..], id);
      assert forall j :: j in jobs <==> j == jobs[0] || j in jobs[1..];
    }
  }

  lemma PendingIsHead(l: Loop, id: Id)
    requires PlainTail(Line(l, id))
    ensures Pending(l, id) <==> HeadReclusters(Line(l, id))
  {
    OfMembers(l.sched.tasks, id);
    OfMembers(l.deferred, id);
    var line := Line(l, id);
    assert forall j :: j in line <==> (j in l.sched.tasks || j in l.deferred) && j.project == id;
    if HeadReclusters(line) {
      assert line[0] in line && IsRecluster(line[0], id);
    }
    if Pending(l, id) {
      var j :| (j in l.deferred || j in l.sched.tasks) && IsRecluster(j, id);
      var k :| 0 <= k < |line| && line[k] == j;
    }
  }

  /** Where the need of `id` is recorded: the debt set, the head of its line, or nowhere after an error. */
  ghost predicate Recorded(l: Loop, id: Id) {
    var line, marks := Line(l, id), l.hist.marks;
    && PlainTail(line)
    && (id in l.owes <==> OwedSinceMade(marks, id))
    && (Needs(marks, id) <==> id in l.owes || HeadReclusters(line) || ErroredLast(marks, id))
    && !(id in l.owes && HeadReclusters(line))
    && (ErroredLast(marks, id) ==> id !in l.owes && !HeadReclusters(line))
  }

  ghost predicate AllRecorded(l: Loop) {
    forall id :: Recorded(l, id)
  }

  ghost predicate DebtInv(reg: set<Id>, l: Loop) {
    l.owes <= reg && Alternates(l.hist.marks) && AllRecorded(l)
  }

  // ---- the loop's head -----------------------------------------------------

  lemma TopDispatchLine(l: Loop, id: Id)
    ensures Line(TopDispatch(l), id) == Line(l, id)
  {
    var r := Dispatch(l.sched, l.deferred);
    DispatchTasks(l.sched, l.deferred);
    DispatchKeepsOrder(l.sched, l.deferred, id);
    OfConcat(l.sched.tasks, r.started, id);
    Assoc(Of(l.sched.tasks, id), Of(r.started, id), Of(r.deferred, id));
  }

  lemma TopDispatchDebt(reg: set<Id>, l: Loop)
    requires DebtInv(reg, l)
    ensures DebtInv(reg, TopDispatch(l))
  {
    forall id ensures Recorded(TopDispatch(l), id) {
      assert Recorded(l, id);
      TopDispatchLine(l, id);
    }
  }

  lemma {:induction false} QuietListed(l: Loop, order: seq<Id>)
    requires NoDup(order)
    ensures NoDup(QuietOf(l, order))
    ensures forall id :: id in QuietOf(l, order) <==> id in order && Quiet(l, id)
  {
    if order != [] {
      var h, t := order[0], order[1..];
      QuietListed(l, t);
      NoDupCons(h, QuietOf(l, t));
      assert forall id :: id in order <==> id == h || id in t;
      if !Quiet(l, h) {
        assert QuietOf(l, order) == QuietOf(l, t);
      }
    }
  }

  lemma {:induction false} ReclustersListed(reg: set<Id>, ids: seq<Id>)
    requires NoDup(ids) && forall id :: id in ids ==> id in reg
    ensures |ReclusterJobs(reg, ids)| == |ids|
    ensures forall i :: 0 <= i < |ids| ==> ReclusterJobs(reg, ids)[i] == Job(ids[i], Recluster, None)
  {
    if ids != [] {
      ReclustersListed(reg, ids[1..]);
    }
  }

  /** A list of distinct projects makes one Recluster job for each registered one. */
  lemma {:induction false} ReclustersOf(reg: set<Id>, ids: seq<Id>, id: Id)
    requires NoDup(ids)
    ensures Of(ReclusterJobs(reg, ids), id) == if id in ids && id in reg then [Job(id, Recluster, None)] else []
  {
    if ids != [] {
      var h, t := ids[0], ids[1..];
      assert h !in t;
      ReclustersOf(reg, t, id);
      var made := if h in reg then [Job(h, Recluster, None)] else [];
      OfConcat(made, ReclusterJobs(reg, t), id);
      assert made != [] ==> made[1..] == [];
    }
  }

  lemma QuietLineIsEmpty(l: Loop, id: Id)
    requires SchedInv(l.sched) && Quiet(l, id)
    ensures Line(l, id) == []
  {
    OfNone(l.sched.tasks, id);
    OfNone(l.deferred, id);
  }

  /** Recluster jobs join the line of their project, which is empty when one is made. */
  lemma TopReclusterLine(reg: set<Id>, l: Loop, order: seq<Id>, id: Id)
    requires SchedInv(l.sched) && NoDup(order)
    ensures var made := id in QuietOf(l, order) && id in reg;
            && (made ==> Line(l, id) == [])
            && Line(TopRecluster(reg, l, order), id) == if made then [Job(id, Recluster, None)] else Line(l, id)
  {
    var quiet := QuietOf(l, order);
    var jobs := ReclusterJobs(reg, quiet);
    var r := Dispatch(l.sched, jobs);
    QuietListed(l, order);
    ReclustersOf(reg, quiet, id);
    DispatchTasks(l.sched, jobs);
    DispatchKeepsOrder(l.sched, jobs, id);
    OfConcat(l.sched.tasks, r.started, id);
    OfConcat(l.deferred, r.deferred, id);
    if id in quiet {
      QuietLineIsEmpty(l, id);
    }
    Merged(Of(l.sched.tasks, id), Of(r.started, id), Of(l.deferred, id), Of(r.deferred, id));
  }

  lemma Merged<T>(tasks: seq<T>, started: seq<T>, deferred: seq<T>, rest: seq<T>)
    requires tasks + deferred == [] || started + rest == []
    ensures (tasks + started) + (deferred + rest) == if tasks + deferred == [] then started + rest else tasks + deferred
  {
    if tasks + deferred == [] {
      assert |tasks + deferred| == 0;
      assert tasks == [] && deferred == [];
    } else {
      assert |started + rest| == 0;
      assert started == [] && rest == [];
    }
  }

  /** Marking jobs as made pays the debts of their projects and moves nothing else. */
  lemma {:induction false} MadeMarksAt(marks: seq<Mark>, jobs: seq<Job>, id: Id)
    ensures var all := marks + MadeMarks(jobs);
            && Needs(all, id) == Needs(marks, id) && ErroredLast(all, id) == ErroredLast(marks, id)
            && OwedSinceMade(all, id) == (OwedSinceMade(marks, id) && Of(jobs, id) == [])
    decreases |jobs|
  {
    if jobs == [] {
      assert marks + [] == marks;
    } else {
      var first := marks + [Made(jobs[0].project)];
      assert first[..|first| - 1] == marks;
      MadeMarksAt(first, jobs[1..], id);
      assert marks + MadeMarks(jobs) == first + MadeMarks(jobs[1..]);
    }
  }

  lemma {:induction false} MadeMarksSnoc(jobs: seq<Job>, j: Job)
    ensures MadeMarks(jobs + [j]) == MadeMarks(jobs) + [Made(j.project)]
  {
    if jobs == [] {
      assert (jobs + [j])[1..] == [];
    } else {
      assert (jobs + [j])[1..] == jobs[1..] + [j];
      MadeMarksSnoc(jobs[1..], j);
    }
  }

  lemma {:induction false} MadeMarksAlternate(marks: seq<Mark>, jobs: seq<Job>)
    requires Alternates(marks)
    requires forall i, j :: 0 <= i < j < |jobs| ==> jobs[i].project != jobs[j].project
    requires forall i :: 0 <= i < |jobs| ==> OwedSinceMade(marks, jobs[i].project)
    ensures Alternates(marks + MadeMarks(jobs))
  {
    if jobs == [] {
      assert marks + [] == marks;
    } else {
      var n := |jobs| - 1;
      var front := marks + MadeMarks(jobs[..n]);
      MadeMarksAlternate(marks, jobs[..n]);
      MadeMarksSnoc(jobs[..n], jobs[n]);
      OfNone(jobs[..n], jobs[n].project);
      MadeMarksAt(marks, jobs[..n], jobs[n].project);
      assert jobs == jobs[..n] + [jobs[n]];
      assert marks + MadeMarks(jobs) == front + [Made(jobs[n].project)];
      assert (front + [Made(jobs[n].project)])[..|front|] == front;
    }
  }

  lemma TopReclusterRecorded(reg: set<Id>, l: Loop, order: seq<Id>, id: Id)
    requires SchedInv(l.sched) && Recorded(l, id) && l.owes <= reg
    requires NoDup(order) && forall x :: x in order <==> x in l.owes
    ensures Recorded(TopRecluster(reg, l, order), id)
  {
    var quiet := QuietOf(l, order);
    QuietListed(l, order);
    ReclustersOf(reg, quiet, id);
    TopReclusterLine(reg, l, order, id);
    MadeMarksAt(l.hist.marks, ReclusterJobs(reg, quiet), id);
  }

  lemma TopReclusterDebt(reg: set<Id>, l: Loop, order: seq<Id>)
    requires SchedInv(l.sched) && DebtInv(reg, l) && NoDup(order) && forall id :: id in order <==> id in l.owes
    ensures DebtInv(reg, TopRecluster(reg, l, order))
  {
    var quiet := QuietOf(l, order);
    QuietListed(l, order);
    ReclustersListed(reg, quiet);
    forall id ensures Recorded(TopRecluster(reg, l, order), id) {
      assert Recorded(l, id);
      TopReclusterRecorded(reg, l, order, id);
    }
    forall i | 0 <= i < |quiet| ensures OwedSinceMade(l.hist.marks, quiet[i]) {
      assert Recorded(l, quiet[i]);
    }
    MadeMarksAlternate(l.hist.marks, ReclusterJobs(reg, quiet));
  }

  lemma TopDebt(reg: set<Id>, l: Loop, order: seq<Id>)
    requires LoopInv(reg, l) && DebtInv(reg, l) && NoDup(order) && forall id :: id in order <==> id in l.owes
    ensures DebtInv(reg, Top(reg, l, order))
  {
    TopDispatchDebt(reg, l);
    TopDispatchKeeps(reg, l);
    TopReclusterDebt(reg, TopDispatch(l), order);
  }

  // ---- the branches --------------------------------------------------------

  /** Producers say nothing that asks for a recluster; only the loop makes those. */
  ghost predicate ProducersOnly(items: seq<Item>) {
    forall i :: 0 <= i < |items| ==> !items[i].op.Recluster?
  }

  lemma {:induction false} JobsPlain(reg: set<Id>, items: seq<Item>)
    requires ProducersOnly(items)
    ensures forall j :: j in JobsOf(reg, items) ==> !j.op.Recluster?
  {
    if items != [] {
      JobsPlain(reg, items[1..]);
    }
  }

  lemma {:induction false} LanePlain(items: seq<Item>, lane: Lane)
    requires ProducersOnly(items)
    ensures ProducersOnly(LaneItems(items, lane))
  {
    if items != [] {
      LanePlain(items[1..], lane);
    }
  }

  lemma DrainedPlain(items: seq<Item>)
    requires ProducersOnly(items)
    ensures ProducersOnly(Drained(SubmitAll(Queue([], [], []), items)))
  {
    var none := Queue([], [], []);
    SubmitAllShape(none, items);
    DrainedIs(SubmitAll(none, items));
    LanePlain(items, Manual);
    LanePlain(items, Git);
    LanePlain(items, Fs);
  }

  lemma TickDebt(reg: set<Id>, l: Loop, items: seq<Item>)
    requires l.queue == Queue([], [], []) && DebtInv(reg, l) && ProducersOnly(items)
    ensures DebtInv(reg, Tick(reg, l, items))
  {
    var jobs := JobsOf(reg, Drained(SubmitAll(l.queue, items)));
    DrainedPlain(items);
    JobsPlain(reg, Drained(SubmitAll(l.queue, items)));
    forall id ensures Recorded(Tick(reg, l, items), id) {
      assert Recorded(l, id);
      OfConcat(l.deferred, jobs, id);
      Assoc(Of(l.sched.tasks, id), Of(l.deferred, id), Of(jobs, id));
      OfMembers(jobs, id);
      LineGrows(Line(l, id), Of(jobs, id));
    }
  }

  /** Jobs that are not Recluster jobs, behind a line, keep it and its head. */
  lemma LineGrows(line: seq<Job>, jobs: seq<Job>)
    requires PlainTail(line) && forall j :: j in jobs ==> !j.op.Recluster?
    ensures PlainTail(line + jobs) && (HeadReclusters(line + jobs) <==> HeadReclusters(line))
  {
  }

  /** The job that finishes was the head of its project's line, and nobody else's line moves. */
  lemma CompleteLine(l: Loop, i: nat, outcome: Outcome, id: Id)
    requires SchedInv(l.sched) && i < |l.sched.tasks|
    ensures var job, line := l.sched.tasks[i], Line(Complete(l, i, outcome), id);
            Line(l, id) == if job.project == id then [job] + line else line
  {
    var job, a, b := l.sched.tasks[i], l.sched.tasks[..i], l.sched.tasks[i + 1..];
    OfSplit(l.sched.tasks, i, id);
    if job.project == id {
      OfNone(a, id);
      OfNone(b, id);
      HeadComesOff(job, Of(l.deferred, id));
    } else {
      assert Of(a, id) + [] + Of(b, id) == Of(a, id) + Of(b, id);
    }
  }

  lemma HeadComesOff(job: Job, rest: seq<Job>)
    ensures [] + [job] + [] + rest == [job] + ([] + [] + rest)
  {
  }

  lemma OfSplit(jobs: seq<Job>, i: nat, id: Id)
    requires i < |jobs|
    ensures Of(jobs, id) == Of(jobs[..i], id) + (if jobs[i].project == id then [jobs[i]] else []) + Of(jobs[i + 1..], id)
    ensures Of(jobs[..i] + jobs[i + 1..], id) == Of(jobs[..i], id) + Of(jobs[i + 1..], id)
  {
    OfConcat(jobs[..i], jobs[i + 1..], id);
    assert jobs == jobs[..i] + jobs[i..];
    OfConcat(jobs[..i], jobs[i..], id);
    assert jobs[i..][1..] == jobs[i + 1..];
    Assoc(Of(jobs[..i], id), if jobs[i].project == id then [jobs[i]] else [], Of(jobs[i + 1..], id));
  }

  lemma MarkStep(marks: seq<Mark>, m: Mark, id: Id)
    ensures var all := marks + [m];
            && Needs(all, id) == (m == Owed(id) || (m != Reclustered(id) && Needs(marks, id)))
            && OwedSinceMade(all, id) == (m == Owed(id) || (m != Made(id) && OwedSinceMade(marks, id)))
            && ErroredLast(all, id) == (m == Errored(id) || (m != Owed(id) && ErroredLast(marks, id)))
  {
    assert (marks + [m])[..|marks|] == marks;
  }

  lemma CompleteRecorded(l: Loop, i: nat, outcome: Outcome, id: Id)
    requires SchedInv(l.sched) && i < |l.sched.tasks| && Recorded(l, id)
    ensures Recorded(Complete(l, i, outcome), id)
  {
    CompleteLine(l, i, outcome, id);
    FinishMarksAt(l.hist.marks, l.sched.tasks[i], outcome, id);
    if l.sched.tasks[i].project == id {
      TailIsPlain(l.sched.tasks[i], Line(Complete(l, i, outcome), id));
    }
  }

  lemma TailIsPlain(job: Job, line: seq<Job>)
    requires PlainTail([job] + line)
    ensures PlainTail(line) && !HeadReclusters(line)
  {
    assert forall k :: 0 <= k < |line| ==> ([job] + line)[k + 1] == line[k];
  }

  /** What the marks of a finished job say of `id`. */
  lemma FinishMarksAt(marks: seq<Mark>, job: Job, outcome: Outcome, id: Id)
    ensures var all := marks + FinishMarks(job, outcome);
            var own := job.project == id;
            var owed, done := own && Owes(job, outcome), own && job.op.Recluster? && outcome.Applied?;
            && Needs(all, id) == (owed || (!done && Needs(marks, id)))
            && OwedSinceMade(all, id) == (owed || OwedSinceMade(marks, id))
            && ErroredLast(all, id) ==
               ((own && job.op.Recluster? && outcome.Failed?) || (!owed && ErroredLast(marks, id)))
  {
    var fm := FinishMarks(job, outcome);
    if fm == [] {
      assert marks + fm == marks;
    } else {
      MarkStep(marks, fm[0], id);
      assert fm == [fm[0]];
    }
  }

  lemma CompleteDebt(reg: set<Id>, l: Loop, i: nat, outcome: Outcome)
    requires SchedInv(l.sched) && DebtInv(reg, l) && i < |l.sched.tasks| && l.sched.tasks[i].project in reg
    ensures DebtInv(reg, Complete(l, i, outcome))
  {
    CompleteAllRecorded(l, i, outcome);
    CompleteAlternates(reg, l, i, outcome);
  }

  lemma CompleteAlternates(reg: set<Id>, l: Loop, i: nat, outcome: Outcome)
    requires i < |l.sched.tasks| && l.sched.tasks[i].project in reg && l.owes <= reg && Alternates(l.hist.marks)
    ensures Complete(l, i, outcome).owes <= reg && Alternates(Complete(l, i, outcome).hist.marks)
  {
    FinishAlternates(l.hist.marks, l.sched.tasks[i], outcome);
  }

  lemma CompleteAllRecorded(l: Loop, i: nat, outcome: Outcome)
    requires SchedInv(l.sched) && AllRecorded(l) && i < |l.sched.tasks|
    ensures AllRecorded(Complete(l, i, outcome))
  {
    forall id ensures Recorded(Complete(l, i, outcome), id) {
      assert Recorded(l, id);
      CompleteRecorded(l, i, outcome, id);
    }
  }

  lemma FinishAlternates(marks: seq<Mark>, job: Job, outcome: Outcome)
    requires Alternates(marks)
    ensures Alternates(marks + FinishMarks(job, outcome))
  {
    var all := marks + FinishMarks(job, outcome);
    if FinishMarks(job, outcome) == [] {
      assert all == marks;
    } else {
      assert all[..|all| - 1] == marks;
    }
  }

  // ---- every run -----------------------------------------------------------

  /** Only registered projects have jobs. */
  ghost predicate Known(reg: set<Id>, l: Loop) {
    && l.owes <= reg
    && (forall j :: j in l.deferred ==> j.project in reg)
    && (forall j :: j in l.sched.tasks ==> j.project in reg)
  }

  lemma {:induction false} DispatchMembers(s: Scheduler, jobs: seq<Job>, j: Job)
    ensures var r := Dispatch(s, jobs);
            j in jobs <==> j in r.started || j in r.deferred
    decreases |jobs|
  {
    if jobs != [] {
      if Blocked(s, jobs[0].project) {
        DispatchMembers(s, jobs[1..], j);
      } else {
        DispatchMembers(Spawn(s, jobs[0]), jobs[1..], j);
      }
    }
  }

  lemma {:induction false} JobsRegistered(reg: set<Id>, items: seq<Item>)
    ensures forall j :: j in JobsOf(reg, items) ==> j.project in reg
  {
    if items != [] {
      JobsRegistered(reg, items[1..]);
    }
  }

  lemma CompleteKnown(reg: set<Id>, l: Loop, i: nat, outcome: Outcome)
    requires Known(reg, l) && i < |l.sched.tasks|
    ensures Known(reg, Complete(l, i, outcome))
  {
    var m := Complete(l, i, outcome);
    assert l.sched.tasks[i] in l.sched.tasks;
    forall j | j in m.sched.tasks ensures j in l.sched.tasks {
    }
  }

  lemma TopKnown(reg: set<Id>, l: Loop, order: seq<Id>)
    requires Known(reg, l)
    ensures Known(reg, Top(reg, l, order))
  {
    var d := TopDispatch(l);
    DispatchTasks(l.sched, l.deferred);
    forall j ensures j in d.deferred || j in d.sched.tasks <==> j in l.deferred || j in l.sched.tasks {
      DispatchMembers(l.sched, l.deferred, j);
    }
    var jobs, m := ReclusterJobs(reg, QuietOf(d, order)), Top(reg, l, order);
    ReclustersAreQuiet(reg, d, order);
    DispatchTasks(d.sched, jobs);
    forall j ensures j in m.deferred || j in m.sched.tasks <==> j in d.deferred || j in d.sched.tasks || j in jobs {
      DispatchMembers(d.sched, jobs, j);
    }
  }

  lemma TakeKnown(reg: set<Id>, l: Loop, b: Branch)
    requires Known(reg, l)
    ensures Known(reg, Take(reg, l, b))
  {
    match b
    case Ticked(items) => JobsRegistered(reg, Drained(SubmitAll(l.queue, items)));
    case Joined(i, outcome) =>
      if i < |l.sched.tasks| {
        CompleteKnown(reg, l, i, outcome);
      }
    case Elsewhere =>
  }

  ghost predicate AllProduced(ts: seq<Turn>) {
    forall i :: 0 <= i < |ts| && ts[i].branch.Ticked? ==> ProducersOnly(ts[i].branch.items)
  }

  lemma SameDebt(reg: set<Id>, l: Loop)
    requires DebtInv(reg, l)
    ensures DebtInv(reg, l.(exited := true))
  {
    forall id ensures Recorded(l.(exited := true), id) {
      assert Recorded(l, id);
    }
  }

  lemma TakeDebt(reg: set<Id>, l: Loop, b: Branch)
    requires LoopInv(reg, l) && DebtInv(reg, l) && Known(reg, l) && (b.Ticked? ==> ProducersOnly(b.items))
    ensures DebtInv(reg, Take(reg, l, b))
  {
    match b
    case Ticked(items) => TickDebt(reg, l, items);
    case Joined(i, outcome) =>
      if i < |l.sched.tasks| {
        assert l.sched.tasks[i] in l.sched.tasks;
        CompleteDebt(reg, l, i, outcome);
      }
    case Elsewhere =>
  }

  lemma TurnDebt(reg: set<Id>, l: Loop, t: Turn)
    requires LoopInv(reg, l) && DebtInv(reg, l) && Known(reg, l) && Walks(l, t)
    requires t.branch.Ticked? ==> ProducersOnly(t.branch.items)
    ensures DebtInv(reg, DoTurn(reg, l, t)) && Known(reg, DoTurn(reg, l, t))
  {
    if !l.exited {
      var top := Top(reg, l, t.order);
      TopDebt(reg, l, t.order);
      TopKeeps(reg, l, t.order);
      TopKnown(reg, l, t.order);
      SameDebt(reg, top);
      TakeDebt(reg, top, t.branch);
      TakeKnown(reg, top, t.branch);
    }
  }

  lemma {:induction false} DebtHolds(reg: set<Id>, permits: nat, ts: seq<Turn>)
    requires AllWalk(reg, Start(permits), ts) && AllProduced(ts)
    ensures var l := Turns(reg, Start(permits), ts);
            LoopInv(reg, l) && DebtInv(reg, l) && Known(reg, l)
  {
    LoopConserves(reg, permits, ts);
    if ts == [] {
      forall id ensures Recorded(Start(permits), id) {
      }
    } else {
      var n := |ts| - 1;
      assert AllProduced(ts[..n]);
      DebtHolds(reg, permits, ts[..n]);
      TurnDebt(reg, Turns(reg, Start(permits), ts[..n]), ts[n]);
    }
  }

  /**
   * Where every debt is, after any run of the loop, whatever fails: a project whose last change-making
   * apply is newer than its last completed recluster is owing, or its Recluster job is deferred or
   * running, or its recluster errored with no change-making apply since; never two of these.
   */
  lemma DebtIsExact(reg: set<Id>, permits: nat, ts: seq<Turn>, id: Id)
    requires AllWalk(reg, Start(permits), ts) && AllProduced(ts)
    ensures var l := Turns(reg, Start(permits), ts);
            var errored := ErroredLast(l.hist.marks, id);
            && (Needs(l.hist.marks, id) <==> id in l.owes || Pending(l, id) || errored)
            && !(id in l.owes && Pending(l, id)) && !(id in l.owes && errored) && !(Pending(l, id) && errored)
  {
    var l := Turns(reg, Start(permits), ts);
    DebtHolds(reg, permits, ts);
    assert Recorded(l, id);
    PendingIsHead(l, id);
  }

  lemma {:induction false} NeverErrored(marks: seq<Mark>, id: Id)
    requires Errored(id) !in marks
    ensures !ErroredLast(marks, id)
  {
    if marks != [] {
      NeverErrored(marks[..|marks| - 1], id);
    }
  }

  /** So a debt is never forgotten while no recluster of the project errors. */
  lemma DebtNeverForgotten(reg: set<Id>, permits: nat, ts: seq<Turn>, id: Id)
    requires AllWalk(reg, Start(permits), ts) && AllProduced(ts)
    requires Errored(id) !in Turns(reg, Start(permits), ts).hist.marks
    ensures var l := Turns(reg, Start(permits), ts);
            Needs(l.hist.marks, id) <==> id in l.owes || Pending(l, id)
  {
    DebtIsExact(reg, permits, ts, id);
    NeverErrored(Turns(reg, Start(permits), ts).hist.marks, id);
  }

  /**
   * One completion forgets a debt that was on record exactly when it is the project's own recluster,
   * and errors.
   */
  lemma CompletionForgetsExactly(reg: set<Id>, l: Loop, i: nat, outcome: Outcome, id: Id)
    requires LoopInv(reg, l) && DebtInv(reg, l) && i < |l.sched.tasks|
    requires id in l.owes || Pending(l, id)
    ensures var m := Complete(l, i, outcome);
            Needs(m.hist.marks, id) && id !in m.owes && !Pending(m, id) <==>
            IsRecluster(l.sched.tasks[i], id) && outcome.Failed?
  {
    var m := Complete(l, i, outcome);
    assert Recorded(l, id);
    CompleteRecorded(l, i, outcome, id);
    CompleteLine(l, i, outcome, id);
    PendingIsHead(l, id);
    PendingIsHead(m, id);
    FinishMarksAt(l.hist.marks, l.sched.tasks[i], outcome, id);
  }

  // ---- the alternation -----------------------------------------------------

  lemma {:induction false} OwedIsLater(marks: seq<Mark>, id: Id, i: nat)
    requires OwedSinceMade(marks, id) && i < |marks| && marks[i] == Made(id)
    ensures exists k :: i < k < |marks| && marks[k] == Owed(id)
    decreases |marks|
  {
    var n := |marks| - 1;
    if marks[n] != Owed(id) {
      assert i < n;
      OwedIsLater(marks[..n], id, i);
      var k :| i < k < n && marks[..n][k] == Owed(id);
      assert marks[k] == Owed(id);
    }
  }

  lemma {:induction false} AlternatesAt(marks: seq<Mark>, id: Id, i: nat, j: nat)
    requires Alternates(marks) && i < j < |marks| && marks[i] == Made(id) && marks[j] == Made(id)
    ensures exists k :: i < k < j && marks[k] == Owed(id)
    decreases |marks|
  {
    var n := |marks| - 1;
    if j == n {
      OwedIsLater(marks[..n], id, i);
      var k :| i < k < n && marks[..n][k] == Owed(id);
      assert marks[k] == Owed(id);
    } else {
      AlternatesAt(marks[..n], id, i, j);
      var k :| i < k < j && marks[..n][k] == Owed(id);
      assert marks[k] == Owed(id);
    }
  }

  /** One recluster per burst: between two Recluster jobs of a project a change-making apply completes. */
  lemma ReclustersAlternate(reg: set<Id>, permits: nat, ts: seq<Turn>, id: Id, i: nat, j: nat)
    requires AllWalk(reg, Start(permits), ts) && AllProduced(ts)
    requires var marks := Turns(reg, Start(permits), ts).hist.marks;
             i < j < |marks| && marks[i] == Made(id) && marks[j] == Made(id)
    ensures exists k :: i < k < j && Turns(reg, Start(permits), ts).hist.marks[k] == Owed(id)
  {
    DebtHolds(reg, permits, ts);
    AlternatesAt(Turns(reg, Start(permits), ts).hist.marks, id, i, j);
  }
}
