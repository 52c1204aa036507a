/** Concurrent applies under the per-project locks, interleaved with flushes and unlocked reads. */
module Serial {
  import opened Prelude
  import opened Graph
  import opened CacheSpec
  import opened FlushSpec
  import opened StoreSteps
  import opened StoreOps
  import opened StoreRuns
  import opened Locks

  type Tid = nat

  /** What update number `job` makes of a prior state; `None` when the pipeline applied nothing. */
  type Updates = (nat, GraphState) -> Option<GraphState>

  /** An apply holds the project's lock, then also the prior state it read. */
  datatype Phase =
    | Holding(p: Project, job: nat, lane: Persistence, ticket: nat)
    | Primed(p: Project, job: nat, lane: Persistence, ticket: nat, prior: GraphState)

  /** One finished update: its place in lock order, the prior it ran on, and its result. */
  datatype Commit = Commit(id: Id, job: nat, ticket: nat, prior: GraphState, result: Option<GraphState>)

  datatype World = World(
    store: Store,
    plain: Plain,
    table: Table,
    owner: map<Handle, Tid>,
    threads: map<Tid, Phase>,
    tickets: nat,
    log: seq<Commit>)

  /** A thread's next step, or somebody else's call on the store. */
  datatype Move =
    | Begin(t: Tid, p: Project, job: nat, lane: Persistence)
    | Prime(t: Tid, faults: set<Id>)
    | Finish(t: Tid, faults: set<Id>)
    | Abort(t: Tid)
    | Other(e: Event)

  function Release(w: World, t: Tid): World
    requires t in w.threads
  {
    var id := w.threads[t].p.id;
    w.(threads := w.threads - {t}, owner := if id in w.table then w.owner - {w.table[id]} else w.owner)
  }

  /** `lock_for` then `lock`: blocked while another thread owns the handle. */
  function DoBegin(w: World, t: Tid, p: Project, job: nat, lane: Persistence): World {
    var (table, h) := HandleFor(w.table, p.id);
    if t in w.threads || h in w.owner then w.(table := table)
    else
      w.(table := table,
         owner := w.owner[h := t],
         threads := w.threads[t := Holding(p, job, lane, w.tickets)],
         tickets := w.tickets + 1)
  }

  function DoPrime(w: World, t: Tid, faults: set<Id>): World {
    if t !in w.threads || !w.threads[t].Holding? then w
    else
      var Holding(p, job, lane, ticket) := w.threads[t];
      var (store, r) := StateOf(w.store, p, faults);
      var w1 := w.(store := store);
      if r.Ok? then w1.(threads := w.threads[t := Primed(p, job, lane, ticket, r.value.value)])
      else Release(w1, t)
  }

  function DoFinish(f: Updates, w: World, t: Tid, faults: set<Id>): World {
    if t !in w.threads || !w.threads[t].Primed? then w
    else
      var Primed(p, job, lane, ticket, prior) := w.threads[t];
      var merged := f(job, prior);
      var logged := w.(log := w.log + [Commit(p.id, job, ticket, prior, merged)]);
      if merged.None? then Release(logged, t)
      else
        var store := RecordApply(w.store, p, merged.value, lane, faults).0;
        if TakesUp(p, lane, faults)
        then Release(logged.(store := store, plain := w.plain[p.id := merged.value]), t)
        else Release(w.(store := store), t)
  }

  /** The projects whose locks a call waits for before it runs. */
  function Waits(e: Event): set<Id> {
    match e.action
    case FlushOne(id) => {id}
    case FlushMany(ids) => set id | id in ids
    case _ => {}
  }

  predicate Locked(w: World, id: Id) {
    id in w.table && w.table[id] in w.owner
  }

  /** A flush runs when its locks are free; applies go through `Begin` and never here. */
  predicate CanRun(w: World, e: Event) {
    !e.action.Record? && forall id :: id in Waits(e) ==> !Locked(w, id)
  }

  function Next(f: Updates, w: World, m: Move): World {
    match m
    case Begin(t, p, job, lane) => DoBegin(w, t, p, job, lane)
    case Prime(t, faults) => DoPrime(w, t, faults)
    case Finish(t, faults) => DoFinish(f, w, t, faults)
    case Abort(t) => if t in w.threads then Release(w, t) else w
    case Other(e) => if CanRun(w, e) then w.(store := Step(w.store, e).0) else w
  }

  function After(f: Updates, w: World, ms: seq<Move>): World {
    if ms == [] then w else Next(f, After(f, w, ms[..|ms| - 1]), ms[|ms| - 1])
  }

  /** The store call a move makes, if any. */
  function CallOf(f: Updates, w: World, m: Move): Option<Event> {
    match m
    case Prime(t, faults) =>
      if t in w.threads && w.threads[t].Holding? then Some(Event(Read(w.threads[t].p), faults)) else None
    case Finish(t, faults) =>
      if t in w.threads && w.threads[t].Primed? && f(w.threads[t].job, w.threads[t].prior).Some?
      then Some(Event(Record(w.threads[t].p, f(w.threads[t].job, w.threads[t].prior).value, w.threads[t].lane), faults))
      else None
    case Other(e) => if CanRun(w, e) then Some(e) else None
    case _ => None
  }

  /** Registered projects, genuine publications, and no lost eviction write-back. */
  ghost predicate Sound(f: Updates, reg: Registry, w: World, m: Move) {
    && (m.Begin? ==> Registered(reg, m.p))
    && var call := CallOf(f, w, m);
       call.Some? ==> Legal(w.store, reg, call.value) && Loses(w.store, call.value).None?
  }

  ghost predicate AllSound(f: Updates, reg: Registry, w: World, ms: seq<Move>) {
    ms != [] ==>
      var front := ms[..|ms| - 1];
      AllSound(f, reg, w, front) && Sound(f, reg, After(f, w, front), ms[|ms| - 1])
  }

  // ---- what the log says ---------------------------------------------------

  /** The state of `id` after the logged updates, from its initial one. */
  function Result(log: seq<Commit>, init: Plain, id: Id): GraphState
    requires id in init
  {
    if log == [] then init[id]
    else
      var c := log[|log| - 1];
      if c.id == id && c.result.Some? then c.result.value else Result(log[..|log| - 1], init, id)
  }

  /** Each update ran on the result of the one before it for its project, up to the unsaved facets. */
  ghost predicate Chained(f: Updates, log: seq<Commit>, init: Plain) {
    log != [] ==>
      var front, c := log[..|log| - 1], log[|log| - 1];
      && Chained(f, front, init)
      && c.id in init && Agrees(c.prior, Result(front, init, c.id)) && c.result == f(c.job, c.prior)
  }

  /** Updates of one project are logged in the order its lock was granted. */
  ghost predicate InLockOrder(log: seq<Commit>) {
    forall i, j :: 0 <= i < j < |log| && log[i].id == log[j].id ==> log[i].ticket < log[j].ticket
  }

  ghost predicate ThreadInv(w: World, reg: Registry, t: Tid)
    requires t in w.threads
  {
    var ph := w.threads[t];
    && Registered(reg, ph.p) && ph.p.id in w.table
    && w.table[ph.p.id] in w.owner && w.owner[w.table[ph.p.id]] == t
    && ph.ticket < w.tickets
    && (forall i :: 0 <= i < |w.log| && w.log[i].id == ph.p.id ==> w.log[i].ticket < ph.ticket)
    && (ph.Primed? ==> ph.p.id in w.plain && Agrees(ph.prior, w.plain[ph.p.id]))
  }

  ghost predicate LogInv(f: Updates, w: World, init: Plain) {
    && Chained(f, w.log, init) && InLockOrder(w.log)
    && (forall i :: 0 <= i < |w.log| ==> w.log[i].ticket < w.tickets)
    && w.plain.Keys == init.Keys && forall id :: id in init ==> w.plain[id] == Result(w.log, init, id)
  }

  ghost predicate WorldInv(f: Updates, w: World, reg: Registry, init: Plain) {
    && StoreInv(w.store, reg) && Refines(w.store, reg, w.plain) && Distinct(w.table)
    && LogInv(f, w, init)
    && ThreadsInv(w, reg)
  }

  // ---- each move -----------------------------------------------------------

  lemma ReleaseKeeps(w: World, reg: Registry, t: Tid)
    requires t in w.threads && Distinct(w.table) && ThreadsInv(w, reg)
    ensures ThreadsInv(Release(w, t), reg)
  {
    var v := Release(w, t);
    forall u | u in v.threads ensures ThreadInv(v, reg, u) {
      assert ThreadInv(w, reg, u) && ThreadInv(w, reg, t);
      assert w.table[w.threads[u].p.id] != w.table[w.threads[t].p.id];
    }
  }

  ghost predicate ThreadsInv(w: World, reg: Registry) {
    forall t :: t in w.threads ==> ThreadInv(w, reg, t)
  }

  lemma BeginThreads(w: World, reg: Registry, t: Tid, p: Project, job: nat, lane: Persistence)
    requires Distinct(w.table) && ThreadsInv(w, reg) && Registered(reg, p)
    requires forall i :: 0 <= i < |w.log| ==> w.log[i].ticket < w.tickets
    ensures ThreadsInv(DoBegin(w, t, p, job, lane), reg)
  {
    HandleForKeeps(w.table, p.id);
    var v := DoBegin(w, t, p, job, lane);
    forall u | u in v.threads ensures ThreadInv(v, reg, u) {
      if u in w.threads {
        assert ThreadInv(w, reg, u);
      }
    }
  }

  lemma BeginKeeps(f: Updates, w: World, reg: Registry, init: Plain, t: Tid, p: Project, job: nat, lane: Persistence)
    requires WorldInv(f, w, reg, init) && Registered(reg, p)
    ensures WorldInv(f, DoBegin(w, t, p, job, lane), reg, init)
  {
    assert ThreadsInv(w, reg);
    BeginThreads(w, reg, t, p, job, lane);
    HandleForKeeps(w.table, p.id);
  }

  lemma PrimeThreads(w: World, reg: Registry, t: Tid, prior: GraphState)
    requires ThreadsInv(w, reg) && t in w.threads && w.threads[t].p.id in w.plain && w.threads[t].Holding?
    requires Agrees(prior, w.plain[w.threads[t].p.id])
    ensures var Holding(p, job, lane, ticket) := w.threads[t];
            ThreadsInv(w.(threads := w.threads[t := Primed(p, job, lane, ticket, prior)]), reg)
  {
    var Holding(p, job, lane, ticket) := w.threads[t];
    var v := w.(threads := w.threads[t := Primed(p, job, lane, ticket, prior)]);
    forall u | u in v.threads ensures ThreadInv(v, reg, u) {
      assert ThreadInv(w, reg, u);
    }
  }

  lemma SameThreads(w: World, reg: Registry, store: Store)
    requires ThreadsInv(w, reg)
    ensures ThreadsInv(w.(store := store), reg)
  {
    var v := w.(store := store);
    forall u | u in v.threads ensures ThreadInv(v, reg, u) {
      assert ThreadInv(w, reg, u);
    }
  }

  lemma PrimeKeeps(f: Updates, w: World, reg: Registry, init: Plain, t: Tid, faults: set<Id>)
    requires WorldInv(f, w, reg, init) && t in w.threads && w.threads[t].Holding?
    requires Loses(w.store, Event(Read(w.threads[t].p), faults)).None?
    ensures WorldInv(f, DoPrime(w, t, faults), reg, init)
  {
    assert ThreadInv(w, reg, t);
    var p := w.threads[t].p;
    var (store, r) := StateOf(w.store, p, faults);
    StateOfKeeps(w.store, reg, p, faults);
    assert Refines(store, reg, w.plain) by {
      StepRefines(w.store, reg, w.plain, Event(Read(p), faults));
    }
    SameThreads(w, reg, store);
    if r.Ok? {
      PrimeThreads(w.(store := store), reg, t, r.value.value);
    } else {
      ReleaseKeeps(w.(store := store), reg, t);
    }
  }

  lemma LogGrows(f: Updates, w: World, init: Plain, c: Commit)
    requires LogInv(f, w, init) && c.id in init && c.ticket < w.tickets
    requires Agrees(c.prior, w.plain[c.id]) && c.result == f(c.job, c.prior)
    requires forall i :: 0 <= i < |w.log| && w.log[i].id == c.id ==> w.log[i].ticket < c.ticket
    ensures var plain := if c.result.Some? then w.plain[c.id := c.result.value] else w.plain;
            LogInv(f, w.(log := w.log + [c], plain := plain), init)
  {
    var log := w.log + [c];
    assert log[..|log| - 1] == w.log;
    forall i, j | 0 <= i < j < |log| && log[i].id == log[j].id ensures log[i].ticket < log[j].ticket {
      if j < |w.log| {
        assert w.log[i].ticket < w.log[j].ticket;
      }
    }
  }

  /** The log after `t`'s update, with `t` still holding its lock: everybody else's claims stand. */
  lemma CommitKeepsThreads(w: World, v: World, reg: Registry, t: Tid, c: Commit)
    requires Distinct(w.table) && ThreadsInv(w, reg) && t in w.threads
    requires v.table == w.table && v.owner == w.owner && v.threads == w.threads && v.tickets == w.tickets
    requires v.log == w.log + [c] && c.id == w.threads[t].p.id
    requires v.plain.Keys == w.plain.Keys && forall x :: x in w.plain && x != c.id ==> v.plain[x] == w.plain[x]
    ensures ThreadsInv(Release(v, t), reg)
  {
    var z := Release(v, t);
    forall u | u in z.threads ensures ThreadInv(z, reg, u) {
      assert ThreadInv(w, reg, u) && ThreadInv(w, reg, t);
      assert w.table[w.threads[u].p.id] != w.table[w.threads[t].p.id];
      assert w.threads[u].p.id != c.id;
    }
  }

  lemma FinishKeeps(f: Updates, w: World, reg: Registry, init: Plain, t: Tid, faults: set<Id>)
    requires WorldInv(f, w, reg, init) && t in w.threads && w.threads[t].Primed?
    requires Sound(f, reg, w, Finish(t, faults))
    ensures WorldInv(f, DoFinish(f, w, t, faults), reg, init)
  {
    assert ThreadInv(w, reg, t);
    var Primed(p, job, lane, ticket, prior) := w.threads[t];
    var merged := f(job, prior);
    var c := Commit(p.id, job, ticket, prior, merged);
    LogGrows(f, w, init, c);
    if merged.None? {
      CommitKeepsThreads(w, w.(log := w.log + [c]), reg, t, c);
    } else {
      var e := Event(Record(p, merged.value, lane), faults);
      StepKeepsInv(w.store, reg, e);
      StepRefines(w.store, reg, w.plain, e);
      var store := RecordApply(w.store, p, merged.value, lane, faults).0;
      if TakesUp(p, lane, faults) {
        CommitKeepsThreads(w, w.(log := w.log + [c], store := store, plain := w.plain[p.id := merged.value]), reg, t, c);
      } else {
        SameThreads(w, reg, store);
        ReleaseKeeps(w.(store := store), reg, t);
      }
    }
  }

  lemma OtherKeeps(f: Updates, w: World, reg: Registry, init: Plain, e: Event)
    requires WorldInv(f, w, reg, init) && !e.action.Record? && Legal(w.store, reg, e) && Loses(w.store, e).None?
    ensures WorldInv(f, w.(store := Step(w.store, e).0), reg, init)
  {
    StepKeepsInv(w.store, reg, e);
    StepRefines(w.store, reg, w.plain, e);
    SameThreads(w, reg, Step(w.store, e).0);
  }

  lemma NextKeeps(f: Updates, w: World, reg: Registry, init: Plain, m: Move)
    requires WorldInv(f, w, reg, init) && Sound(f, reg, w, m)
    ensures WorldInv(f, Next(f, w, m), reg, init)
  {
    match m
    case Begin(t, p, job, lane) => BeginKeeps(f, w, reg, init, t, p, job, lane);
    case Prime(t, faults) => PrimeMoveKeeps(f, w, reg, init, t, faults);
    case Finish(t, faults) => FinishMoveKeeps(f, w, reg, init, t, faults);
    case Abort(t) => AbortKeeps(f, w, reg, init, t);
    case Other(e) => OtherMoveKeeps(f, w, reg, init, e);
  }

  lemma PrimeMoveKeeps(f: Updates, w: World, reg: Registry, init: Plain, t: Tid, faults: set<Id>)
    requires WorldInv(f, w, reg, init) && Sound(f, reg, w, Prime(t, faults))
    ensures WorldInv(f, DoPrime(w, t, faults), reg, init)
  {
    if t in w.threads && w.threads[t].Holding? {
      PrimeKeeps(f, w, reg, init, t, faults);
    }
  }

  lemma FinishMoveKeeps(f: Updates, w: World, reg: Registry, init: Plain, t: Tid, faults: set<Id>)
    requires WorldInv(f, w, reg, init) && Sound(f, reg, w, Finish(t, faults))
    ensures WorldInv(f, DoFinish(f, w, t, faults), reg, init)
  {
    if t in w.threads && w.threads[t].Primed? {
      FinishKeeps(f, w, reg, init, t, faults);
    }
  }

  lemma AbortKeeps(f: Updates, w: World, reg: Registry, init: Plain, t: Tid)
    requires WorldInv(f, w, reg, init)
    ensures WorldInv(f, if t in w.threads then Release(w, t) else w, reg, init)
  {
    if t in w.threads {
      ReleaseKeeps(w, reg, t);
    }
  }

  lemma OtherMoveKeeps(f: Updates, w: World, reg: Registry, init: Plain, e: Event)
    requires WorldInv(f, w, reg, init) && Sound(f, reg, w, Other(e))
    ensures WorldInv(f, if CanRun(w, e) then w.(store := Step(w.store, e).0) else w, reg, init)
  {
    if CanRun(w, e) {
      OtherKeeps(f, w, reg, init, e);
    }
  }

  // ---- every interleaving --------------------------------------------------

  function Start(store: Store, init: Plain): World {
    World(store, init, map[], map[], map[], 0, [])
  }

  lemma {:induction false} AfterKeeps(f: Updates, store: Store, reg: Registry, init: Plain, ms: seq<Move>)
    requires StoreInv(store, reg) && Refines(store, reg, init) && AllSound(f, reg, Start(store, init), ms)
    ensures WorldInv(f, After(f, Start(store, init), ms), reg, init)
  {
    if ms != [] {
      var front := ms[..|ms| - 1];
      AfterKeeps(f, store, reg, init, front);
      NextKeeps(f, After(f, Start(store, init), front), reg, init, ms[|ms| - 1]);
    }
  }

  /** At most one thread is between lock and unlock of any project. */
  lemma MutualExclusion(f: Updates, store: Store, reg: Registry, init: Plain, ms: seq<Move>, t: Tid, u: Tid)
    requires StoreInv(store, reg) && Refines(store, reg, init) && AllSound(f, reg, Start(store, init), ms)
    ensures var w := After(f, Start(store, init), ms);
            t in w.threads && u in w.threads && w.threads[t].p.id == w.threads[u].p.id ==> t == u
  {
    AfterKeeps(f, store, reg, init, ms);
    var w := After(f, Start(store, init), ms);
    if t in w.threads && u in w.threads {
      assert ThreadInv(w, reg, t) && ThreadInv(w, reg, u);
    }
  }

  /**
   * No lost update: in every interleaving each project's updates are logged in lock order, each ran
   * on exactly the previous one's result (up to the facets a checkpoint drops), and the store's
   * latest state is the last result.
   */
  lemma UpdatesSerialise(f: Updates, store: Store, reg: Registry, init: Plain, ms: seq<Move>, id: Id)
    requires StoreInv(store, reg) && Refines(store, reg, init) && AllSound(f, reg, Start(store, init), ms) && id in reg
    ensures var w := After(f, Start(store, init), ms);
            && Chained(f, w.log, init) && InLockOrder(w.log)
            && Agrees(Latest(w.store, reg, id), Result(w.log, init, id))
  {
    AfterKeeps(f, store, reg, init, ms);
  }

  /** An update cannot tell a state from its reloaded copy, nor make results that differ when saved. */
  ghost predicate IgnoresUnsaved(f: Updates) {
    forall job, a, b :: Erase(a) == Erase(b) ==> SameSaved(f(job, a), f(job, b))
  }

  ghost predicate SameSaved(a: Option<GraphState>, b: Option<GraphState>) {
    (a.Some? <==> b.Some?) && (a.Some? ==> Erase(a.value) == Erase(b.value))
  }

  /** The fold of `id`'s update functions over its initial state, in log order. */
  function Fold(f: Updates, log: seq<Commit>, init: Plain, id: Id): GraphState
    requires id in init
  {
    if log == [] then init[id]
    else
      var c, g := log[|log| - 1], Fold(f, log[..|log| - 1], init, id);
      if c.id == id && f(c.job, g).Some? then f(c.job, g).value else g
  }

  lemma {:induction false} ChainIsFold(f: Updates, log: seq<Commit>, init: Plain, id: Id)
    requires Chained(f, log, init) && IgnoresUnsaved(f) && id in init
    ensures Erase(Result(log, init, id)) == Erase(Fold(f, log, init, id))
  {
    if log != [] {
      var c, front := log[|log| - 1], log[..|log| - 1];
      ChainIsFold(f, front, init, id);
      if c.id == id {
        assert SameSaved(f(c.job, c.prior), f(c.job, Fold(f, front, init, id)));
      }
    }
  }

  /** When updates ignore the unsaved facets, the final state is the fold of the updates in lock order. */
  lemma FinalStateIsFold(f: Updates, store: Store, reg: Registry, init: Plain, ms: seq<Move>, id: Id)
    requires StoreInv(store, reg) && Refines(store, reg, init) && AllSound(f, reg, Start(store, init), ms)
    requires IgnoresUnsaved(f) && id in reg
    ensures var w := After(f, Start(store, init), ms);
            Erase(Latest(w.store, reg, id)) == Erase(Fold(f, w.log, init, id)) && InLockOrder(w.log)
  {
    UpdatesSerialise(f, store, reg, init, ms, id);
    ChainIsFold(f, After(f, Start(store, init), ms).log, init, id);
  }
}
