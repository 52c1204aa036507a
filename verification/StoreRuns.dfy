/** Whole runs of the store: it behaves as one plain map from project to latest state. */
module StoreRuns {
  import opened Prelude
  import opened Graph
  import opened CacheSpec
  import opened FlushSpec
  import opened StoreSteps
  import opened StoreOps

  /** One public call, atomic; a scheduled or shutdown flush lists the ids it visits in order. */
  datatype Action =
    | Read(p: Project)
    | Record(p: Project, merged: GraphState, lane: Persistence)
    | FlushOne(id: Id)
    | FlushMany(ids: seq<Id>)
    | Advance(elapsed: Time)
    | ServeView(id: Id)
    | Publish(id: Id, of: Arc, view: GraphView)

  /** A call, and the projects whose store I/O fails during it. */
  datatype Event = Event(action: Action, faults: set<Id>)

  datatype Reply =
    | StateReply(state: Result<Arc, Error>)
    | DoneReply(done: Result<(), Error>)
    | FlushReply(wrote: Result<bool, Error>)
    | FailuresReply(failures: seq<(Id, Error)>)
    | ViewReply(view: Option<GraphView>)
    | PublishReply(installed: bool)
    | NoReply

  function Step(s: Store, e: Event): (Store, Reply) {
    match e.action
    case Read(p) => var (t, r) := StateOf(s, p, e.faults); (t, StateReply(r))
    case Record(p, merged, lane) => var (t, r) := RecordApply(s, p, merged, lane, e.faults); (t, DoneReply(r))
    case FlushOne(id) => var (t, r) := FlushProject(s, id, e.faults); (t, FlushReply(r))
    case FlushMany(ids) => var (t, f) := FlushEach(s, ids, e.faults); (t, FailuresReply(f))
    case Advance(elapsed) => (s.(now := s.now + elapsed), NoReply)
    case ServeView(id) => var (c, v) := View(s.cache, id); (s.(cache := c), ViewReply(v))
    case Publish(id, of, view) =>
      var (c, b) := InstallView(s.cache, id, of, view); (s.(cache := c), PublishReply(b))
  }

  /** Runs grow at the end, so that a prefix of a run is a run. */
  function Run(s: Store, es: seq<Event>): Store {
    if es == [] then s else Step(Run(s, es[..|es| - 1]), es[|es| - 1]).0
  }

  /**
   * Callers pass registered projects, and publish a view under the state object it was built from,
   * one this cache made.
   */
  predicate Legal(s: Store, reg: Registry, e: Event) {
    match e.action
    case Read(p) => Registered(reg, p)
    case Record(p, _, _) => Registered(reg, p)
    case Publish(_, of, view) => view.of == of && Genuine(s.cache, of)
    case _ => true
  }

  ghost predicate AllLegal(s: Store, reg: Registry, es: seq<Event>) {
    es != [] ==>
      var front := es[..|es| - 1];
      AllLegal(s, reg, front) && Legal(Run(s, front), reg, es[|es| - 1])
  }

  /** The dirty project this call pages out while failing to write it back. */
  function Loses(s: Store, e: Event): Option<Id> {
    match e.action
    case Read(p) => if ReadLoses(s, p, e.faults) then Victim(s.cache, p.id) else None
    case Record(p, _, lane) =>
      if TakesUp(p, lane, e.faults) && LosesVictim(s, p.id, e.faults) then Victim(s.cache, p.id) else None
    case _ => None
  }

  /** No call of the run loses an eviction's write-back; every other write may fail. */
  ghost predicate Reliable(s: Store, es: seq<Event>) {
    es != [] ==>
      var front := es[..|es| - 1];
      Reliable(s, front) && Loses(Run(s, front), es[|es| - 1]).None?
  }

  // ---- the plain map -------------------------------------------------------

  type Plain = map<Id, GraphState>

  function PlainStep(m: Plain, e: Event): Plain {
    match e.action
    case Record(p, merged, lane) => if TakesUp(p, lane, e.faults) then m[p.id := merged] else m
    case _ => m
  }

  function PlainRun(m: Plain, es: seq<Event>): Plain {
    if es == [] then m else PlainStep(PlainRun(m, es[..|es| - 1]), es[|es| - 1])
  }

  ghost predicate Refines(s: Store, reg: Registry, m: Plain) {
    m.Keys == reg.Keys && forall x :: x in reg ==> Agrees(Latest(s, reg, x), m[x])
  }

  /** A daemon's store at start: nothing resident, nothing known, the checkpoints on disk. */
  function Fresh(capacity: nat, cfg: FlushConfig, now: Time, disk: map<Dir, GraphState>): Store {
    Store(New(capacity), map[], map[], map[], 0, now, cfg, disk)
  }

  function Checkpoints(reg: Registry, disk: map<Dir, GraphState>): Plain {
    map x | x in reg :: Load(disk, reg[x])
  }

  lemma FreshInv(reg: Registry, capacity: nat, cfg: FlushConfig, now: Time, disk: map<Dir, GraphState>)
    requires Injective(reg) && forall d :: d in disk ==> Erase(disk[d]) == disk[d]
    ensures StoreInv(Fresh(capacity, cfg, now, disk), reg)
    ensures Refines(Fresh(capacity, cfg, now, disk), reg, Checkpoints(reg, disk))
  {
    var s := Fresh(capacity, cfg, now, disk);
    forall x ensures Settled(s, reg, x) {
    }
  }

  // ---- one step ------------------------------------------------------------

  lemma {:induction false} FlushEachKeeps(s: Store, reg: Registry, ids: seq<Id>, faults: set<Id>)
    requires StoreInv(s, reg)
    ensures var t := FlushEach(s, ids, faults).0;
            StoreInv(t, reg) && forall x :: x in reg ==> Latest(t, reg, x) == Latest(s, reg, x)
    decreases |ids|
  {
    if ids != [] {
      FlushKeeps(s, reg, ids[0], faults);
      forall x | x in reg {
        FlushLatest(s, reg, ids[0], faults, x);
      }
      FlushEachKeeps(FlushProject(s, ids[0], faults).0, reg, ids[1..], faults);
    }
  }

  /** The same state objects and dirty flags resident, perhaps in another order or with other views. */
  ghost predicate SameStates(c: Cache, d: Cache) {
    && d.graphs.Keys == c.graphs.Keys && d.dirty == c.dirty
    && forall x :: x in c.graphs ==> d.graphs[x].state == c.graphs[x].state
  }

  lemma SameStatesKeep(s: Store, reg: Registry, d: Cache)
    requires StoreInv(s, reg) && CacheInv(d) && SameStates(s.cache, d)
    ensures StoreInv(s.(cache := d), reg)
    ensures forall x :: x in reg ==> Latest(s.(cache := d), reg, x) == Latest(s, reg, x)
  {
    var t := s.(cache := d);
    forall x ensures Settled(t, reg, x) {
      SameStatesSettled(s, reg, d, x);
    }
  }

  lemma SameStatesSettled(s: Store, reg: Registry, d: Cache, x: Id)
    requires Settled(s, reg, x) && SameStates(s.cache, d)
    ensures Settled(s.(cache := d), reg, x)
  {
  }

  lemma ViewKeepsInv(c: Cache, id: Id)
    requires CacheInv(c)
    ensures CacheInv(View(c, id).0) && SameStates(c, View(c, id).0)
  {
    if id in c.graphs {
      TouchKeepsInv(c, id);
    }
  }

  lemma PublishKeepsStates(c: Cache, id: Id, of: Arc, view: GraphView)
    ensures SameStates(c, InstallView(c, id, of, view).0)
  {
  }

  lemma ViewStepKeeps(s: Store, reg: Registry, e: Event)
    requires StoreInv(s, reg) && Legal(s, reg, e)
    requires e.action.ServeView? || e.action.Publish? || e.action.Advance?
    ensures StoreInv(Step(s, e).0, reg)
    ensures forall x :: x in reg ==> Latest(Step(s, e).0, reg, x) == Latest(s, reg, x)
  {
    match e.action
    case ServeView(id) =>
      ViewKeepsInv(s.cache, id);
      SameStatesKeep(s, reg, View(s.cache, id).0);
    case Publish(id, of, view) =>
      InstallKeepsInv(s.cache, id, of, view);
      PublishKeepsStates(s.cache, id, of, view);
      SameStatesKeep(s, reg, InstallView(s.cache, id, of, view).0);
    case Advance(elapsed) =>
      var t := Step(s, e).0;
      forall x ensures Settled(t, reg, x) {
        assert Settled(s, reg, x);
      }
  }

  lemma StepKeepsInv(s: Store, reg: Registry, e: Event)
    requires StoreInv(s, reg) && Legal(s, reg, e)
    ensures StoreInv(Step(s, e).0, reg)
  {
    match e.action
    case Read(p) => StateOfKeeps(s, reg, p, e.faults);
    case Record(p, merged, lane) => RecordKeeps(s, reg, p, merged, lane, e.faults);
    case FlushOne(id) => FlushKeeps(s, reg, id, e.faults);
    case FlushMany(ids) => FlushEachKeeps(s, reg, ids, e.faults);
    case _ => ViewStepKeeps(s, reg, e);
  }

  /** One call's whole effect on one project's latest state. */
  lemma StepLatest(s: Store, reg: Registry, e: Event, x: Id)
    requires StoreInv(s, reg) && Legal(s, reg, e) && x in reg
    ensures var t := Step(s, e).0;
            if Loses(s, e) == Some(x) then Latest(t, reg, x) == Load(s.disk, reg[x])
            else if e.action.Record? && TakesUp(e.action.p, e.action.lane, e.faults) && e.action.p.id == x
            then Latest(t, reg, x) == e.action.merged
            else Kept(s, t, reg, x)
  {
    match e.action
    case Read(p) => StateOfLatest(s, reg, p, e.faults, x);
    case Record(p, merged, lane) =>
      RecordLatest(s, reg, p, merged, lane, e.faults, x);
      InsertEvicts(s.cache, p.id, merged, false);
    case FlushOne(id) => FlushLatest(s, reg, id, e.faults, x);
    case FlushMany(ids) => FlushEachKeeps(s, reg, ids, e.faults);
    case _ => ViewStepKeeps(s, reg, e);
  }

  lemma StepRefines(s: Store, reg: Registry, m: Plain, e: Event)
    requires StoreInv(s, reg) && Legal(s, reg, e) && Refines(s, reg, m) && Loses(s, e).None?
    ensures Refines(Step(s, e).0, reg, PlainStep(m, e))
  {
    var t, m' := Step(s, e).0, PlainStep(m, e);
    assert m'.Keys == reg.Keys;
    forall x | x in reg ensures Agrees(Latest(t, reg, x), m'[x]) {
      StepLatest(s, reg, e, x);
    }
  }

  // ---- every run -----------------------------------------------------------

  /** The cross-structure invariant holds after every run, whichever writes fail. */
  lemma {:induction false} RunKeepsInv(s: Store, reg: Registry, es: seq<Event>)
    requires StoreInv(s, reg) && AllLegal(s, reg, es)
    ensures StoreInv(Run(s, es), reg)
  {
    if es != [] {
      var n := |es| - 1;
      RunKeepsInv(s, reg, es[..n]);
      StepKeepsInv(Run(s, es[..n]), reg, es[n]);
    }
  }

  /** The paged write-behind store refines the plain map, whatever the capacity and cadence. */
  lemma {:induction false} RunRefines(s: Store, reg: Registry, m: Plain, es: seq<Event>)
    requires StoreInv(s, reg) && AllLegal(s, reg, es) && Refines(s, reg, m) && Reliable(s, es)
    ensures Refines(Run(s, es), reg, PlainRun(m, es))
  {
    if es != [] {
      var n := |es| - 1;
      var front := es[..n];
      RunKeepsInv(s, reg, front);
      RunRefines(s, reg, m, front);
      StepRefines(Run(s, front), reg, PlainRun(m, front), es[n]);
    }
  }

  /**
   * After any run from start-up, a read answers the last state taken up for that project, or the
   * initial checkpoint when there was none, up to the facets a checkpoint drops; it fails only when
   * its own load or its eviction's write-back does.
   */
  lemma ReadAnswersLatest(reg: Registry, capacity: nat, cfg: FlushConfig, now: Time, disk: map<Dir, GraphState>,
                          es: seq<Event>, p: Project, faults: set<Id>)
    requires Injective(reg) && (forall d :: d in disk ==> Erase(disk[d]) == disk[d])
    requires AllLegal(Fresh(capacity, cfg, now, disk), reg, es) && Registered(reg, p)
    requires Reliable(Fresh(capacity, cfg, now, disk), es)
    ensures var t := Run(Fresh(capacity, cfg, now, disk), es);
            var r := StateOf(t, p, faults).1;
            && (r.Ok? ==> p.id in PlainRun(Checkpoints(reg, disk), es)
                          && Agrees(r.value.value, PlainRun(Checkpoints(reg, disk), es)[p.id]))
            && (r.Err? <==> p.id !in t.cache.graphs && (p.id in faults || LosesVictim(t, p.id, faults)))
  {
    var s := Fresh(capacity, cfg, now, disk);
    FreshInv(reg, capacity, cfg, now, disk);
    RunKeepsInv(s, reg, es);
    RunRefines(s, reg, Checkpoints(reg, disk), es);
    StateOfKeeps(Run(s, es), reg, p, faults);
  }

  // ---- the failures that cannot happen -------------------------------------

  predicate OnlyIo<T>(r: Result<T, Error>, faults: set<Id>) {
    r.Err? ==> r.error == Io && faults != {}
  }

  lemma {:induction false} FlushEachFailures(s: Store, reg: Registry, ids: seq<Id>, faults: set<Id>)
    requires StoreInv(s, reg)
    ensures forall f :: f in FlushEach(s, ids, faults).1 ==> f.1 == Io && f.0 in ids && f.0 in s.dirty && f.0 in faults
    ensures forall id :: id in ids && id in s.dirty && id in faults ==> (id, Io) in FlushEach(s, ids, faults).1
    decreases |ids|
  {
    if ids != [] {
      var h, t := ids[0], FlushProject(s, ids[0], faults).0;
      FlushIs(s, reg, h, faults);
      FlushKeeps(s, reg, h, faults);
      FlushEachFailures(t, reg, ids[1..], faults);
      assert forall id :: id in ids <==> id == h || id in ids[1..];
      assert forall f :: f in FlushEach(s, ids, faults).1 <==>
                           (h in s.dirty && h in faults && f == (h, Io)) || f in FlushEach(t, ids[1..], faults).1;
    }
  }

  /** In a reachable store no call answers "not resident", "unknown output directory" or "vanished". */
  lemma OnlyIoFails(s: Store, reg: Registry, e: Event)
    requires StoreInv(s, reg) && Legal(s, reg, e)
    ensures match Step(s, e).1
            case StateReply(r) => OnlyIo(r, e.faults)
            case DoneReply(r) => OnlyIo(r, e.faults)
            case FlushReply(r) => OnlyIo(r, e.faults)
            case FailuresReply(f) => forall i :: 0 <= i < |f| ==> f[i].1 == Io && f[i].0 in e.faults
            case _ => true
  {
    match e.action
    case Read(p) => StateOfKeeps(s, reg, p, e.faults);
    case Record(p, merged, lane) => RecordKeeps(s, reg, p, merged, lane, e.faults);
    case FlushOne(id) => FlushIs(s, reg, id, e.faults);
    case FlushMany(ids) => FlushEachFailures(s, reg, ids, e.faults);
    case _ =>
  }
}
