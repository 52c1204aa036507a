/** What a checkpoint keeps of a state, facet by facet, over whole runs, exports and crashes. */
module Facets {
  import opened Prelude
  import opened Graph
  import opened CacheSpec
  import opened FlushSpec
  import opened StoreSteps
  import opened StoreOps
  import opened StoreRuns
  import opened StoreLaws
  import opened Applies

  /** The six facets a checkpoint holds are the same. */
  predicate SameSaved(x: GraphState, y: GraphState) {
    && x.graph == y.graph && x.partition == y.partition && x.reverse == y.reverse
    && x.manifest == y.manifest && x.workspace == y.workspace && x.exports == y.exports
  }

  predicate SameTables(x: GraphState, y: GraphState) {
    x.symbols == y.symbols && x.symbolIndex == y.symbolIndex
  }

  predicate NoTables(x: GraphState) {
    x.symbols == EMPTY && x.symbolIndex == EMPTY
  }

  /** No checkpoint on disk has symbol tables. */
  ghost predicate NoTablesOn(disk: map<Dir, GraphState>) {
    forall d :: d in disk ==> NoTables(disk[d])
  }

  /** The state of the last apply of `id` the run took up: deferred, or a client's whose write went through. */
  function LastTaken(es: seq<Event>, id: Id): Option<GraphState> {
    if es == [] then None
    else
      var e := es[|es| - 1];
      if e.action.Record? && e.action.p.id == id && (e.action.lane == Defer || id !in e.faults)
      then Some(e.action.merged)
      else LastTaken(es[..|es| - 1], id)
  }

  /** The state a project should be in: the last one taken up, or else its checkpoint at start, if any. */
  function Expected(disk: map<Dir, GraphState>, es: seq<Event>, p: Project): GraphState {
    match LastTaken(es, p.id)
    case Some(g) => g
    case None => if p.outputDir in disk then disk[p.outputDir] else DEFAULT
  }

  lemma {:induction false} ExpectedIsPlain(reg: Registry, disk: map<Dir, GraphState>, es: seq<Event>, p: Project)
    requires Registered(reg, p)
    ensures var m := PlainRun(Checkpoints(reg, disk), es); p.id in m && m[p.id] == Expected(disk, es, p)
  {
    if es != [] {
      ExpectedIsPlain(reg, disk, es[..|es| - 1], p);
    }
  }

  lemma AgreesByFacet(x: GraphState, y: GraphState)
    requires Agrees(x, y)
    ensures SameSaved(x, y) && (SameTables(x, y) || NoTables(x))
  {
  }

  lemma ErasedByFacet(x: GraphState)
    ensures SameSaved(Erase(x), x) && NoTables(Erase(x))
  {
  }

  lemma NoTablesErased(disk: map<Dir, GraphState>)
    requires NoTablesOn(disk)
    ensures forall d :: d in disk ==> Erase(disk[d]) == disk[d]
  {
  }

  /** One trip through a checkpoint, whatever else is on disk and whoever reads it. */
  lemma CheckpointRoundTrip(s: Store, id: Id, dir: Dir, state: GraphState, faults: set<Id>, other: Dir)
    ensures var (t, ok) := WriteState(s, id, dir, state, faults);
            && (ok <==> id !in faults)
            && (ok ==> SameSaved(Load(t.disk, dir), state) && NoTables(Load(t.disk, dir)))
            && (!ok || other != dir ==> Load(t.disk, other) == Load(s.disk, other))
  {
    ErasedByFacet(state);
  }

  /** A run of a daemon from its start over the checkpoints `disk`, no eviction's write-back lost. */
  ghost predicate GoodRun(reg: Registry, s: Store, es: seq<Event>) {
    && Injective(reg) && s == Fresh(s.cache.capacity, s.cfg, s.now, s.disk) && 1 <= s.cache.capacity
    && NoTablesOn(s.disk) && AllLegal(s, reg, es) && Reliable(s, es)
  }

  lemma GoodRunFacts(reg: Registry, s: Store, es: seq<Event>, p: Project)
    requires GoodRun(reg, s, es) && Registered(reg, p)
    ensures StoreInv(Run(s, es), reg) && Agrees(Latest(Run(s, es), reg, p.id), Expected(s.disk, es, p))
  {
    NoTablesErased(s.disk);
    FreshInv(reg, s.cache.capacity, s.cfg, s.now, s.disk);
    RunKeepsInv(s, reg, es);
    RunRefines(s, reg, Checkpoints(reg, s.disk), es);
    ExpectedIsPlain(reg, s.disk, es, p);
  }

  /**
   * After any such run a read answers a state with every saved facet of the last state taken up, and
   * with that state's two symbol tables or with neither.
   */
  lemma ReadsByFacet(reg: Registry, s: Store, es: seq<Event>, p: Project, faults: set<Id>)
    requires GoodRun(reg, s, es) && Registered(reg, p)
    ensures var r := StateOf(Run(s, es), p, faults).1;
            var want := Expected(s.disk, es, p);
            r.Ok? ==> SameSaved(r.value.value, want) && (SameTables(r.value.value, want) || NoTables(r.value.value))
  {
    GoodRunFacts(reg, s, es, p);
    StateOfKeeps(Run(s, es), reg, p, faults);
    var r := StateOf(Run(s, es), p, faults).1;
    if r.Ok? {
      AgreesByFacet(r.value.value, Expected(s.disk, es, p));
    }
  }

  /** An export holds every saved facet of the last state taken up and no symbol table. */
  lemma ExportsByFacet(reg: Registry, s: Store, es: seq<Event>, p: Project, io: Faults)
    requires GoodRun(reg, s, es) && Registered(reg, p)
    ensures var r := RunExport(Run(s, es), p, io).1;
            r.Ok? ==> SameSaved(r.value, Expected(s.disk, es, p)) && NoTables(r.value)
  {
    GoodRunFacts(reg, s, es, p);
    ExportIsLatest(Run(s, es), reg, p, io);
    AgreesByFacet(Latest(Run(s, es), reg, p.id), Expected(s.disk, es, p));
    ErasedByFacet(Latest(Run(s, es), reg, p.id));
  }

  /**
   * A crash spares a clean project: the next daemon's runs start from checkpoints without symbol
   * tables, and until it takes up an apply of the project it answers every saved facet of the last
   * state the dead one took up, and no symbol table.
   */
  lemma CrashByFacet(reg: Registry, s: Store, es: seq<Event>, now: Time, more: seq<Event>, p: Project, faults: set<Id>)
    requires GoodRun(reg, s, es) && Registered(reg, p) && p.id !in Run(s, es).dirty
    requires var t := Crash(Run(s, es), now); AllLegal(t, reg, more) && Reliable(t, more)
    requires LastTaken(more, p.id).None?
    ensures GoodRun(reg, Crash(Run(s, es), now), more)
    ensures var r := StateOf(Run(Crash(Run(s, es), now), more), p, faults).1;
            r.Ok? ==> SameSaved(r.value.value, Expected(s.disk, es, p)) && NoTables(r.value.value)
  {
    var u := Run(s, es);
    var t := Crash(u, now);
    GoodRunFacts(reg, s, es, p);
    CrashKeepsTheClean(u, reg, now, p.id);
    forall d | d in u.disk ensures NoTables(u.disk[d]) {
      ErasedByFacet(u.disk[d]);
    }
    AgreesByFacet(Latest(u, reg, p.id), Expected(s.disk, es, p));
    ErasedByFacet(Latest(u, reg, p.id));
    ReadsByFacet(reg, t, more, p, faults);
  }
}
