/** The write-behind store on values: resident cache, dirty windows and checkpoints together. */
module FlushSpec {
  import opened Prelude
  import opened Graph
  import opened CacheSpec

  type Time = nat

  datatype FlushConfig = FlushConfig(quiescence: Time, maxDirtyAge: Time)

  /** The client lane writes through; the producer lane defers. */
  datatype Persistence = Flush | Defer

  datatype Project = Project(id: Id, outputDir: Dir)

  datatype Dirty = Dirty(firstDirty: Time, lastApply: Time)

  datatype Error = Io | UnknownOutputDir | NotResident | Vanished

  datatype Store = Store(
    cache: Cache,
    dirty: map<Id, Dirty>,
    persisted: map<Id, Time>,
    outDirs: map<Id, Dir>,
    writes: nat,
    now: Time,
    cfg: FlushConfig,
    disk: map<Dir, GraphState>)

  /** What `load_state` reads from `dir`, a missing checkpoint reading as the default state. */
  function Load(disk: map<Dir, GraphState>, dir: Dir): GraphState {
    if dir in disk then disk[dir] else DEFAULT
  }

  function Remember(s: Store, p: Project): Store {
    s.(outDirs := s.outDirs[p.id := p.outputDir])
  }

  /** One temp-and-rename checkpoint write; `faults` names the projects whose store I/O fails. */
  function WriteState(s: Store, id: Id, dir: Dir, state: GraphState, faults: set<Id>): (Store, bool) {
    if id in faults then (s, false)
    else
      (s.(disk := s.disk[dir := Erase(state)],
          writes := s.writes + 1,
          persisted := s.persisted[id := s.now]),
       true)
  }

  function FlushEvicted(s: Store, evicted: seq<Evicted>, faults: set<Id>): (Store, Result<(), Error>)
    decreases |evicted|
  {
    if evicted == [] then (s, Ok(()))
    else
      var e, s1 := evicted[0], s.(dirty := s.dirty - {evicted[0].id});
      if e.state.None? then FlushEvicted(s1, evicted[1..], faults)
      else if e.id !in s1.outDirs then (s1, Err(UnknownOutputDir))
      else
        var (s2, ok) := WriteState(s1, e.id, s1.outDirs[e.id], e.state.value.value, faults);
        if ok then FlushEvicted(s2, evicted[1..], faults) else (s2, Err(Io))
  }

  function StateOf(s: Store, p: Project, faults: set<Id>): (Store, Result<Arc, Error>) {
    var s0 := Remember(s, p);
    var (c1, hit) := GetArc(s0.cache, p.id);
    if hit.Some? then (s0.(cache := c1), Ok(hit.value))
    else if p.id in faults then (s0, Err(Io))
    else
      var (c2, evicted) := Insert(s0.cache, p.id, Load(s0.disk, p.outputDir), false);
      var (c3, arc) := GetArc(c2, p.id);
      var (s1, flushed) := FlushEvicted(s0.(cache := c3), evicted, faults);
      if flushed.Err? then (s1, Err(flushed.error))
      else if arc.None? then (s1, Err(Vanished))
      else (s1, Ok(arc.value))
  }

  /** The dirty window after a deferred apply: opened now, or extended with its start kept. */
  function Extend(dirty: map<Id, Dirty>, id: Id, now: Time): map<Id, Dirty> {
    dirty[id := Dirty(if id in dirty then dirty[id].firstDirty else now, now)]
  }

  /** The client lane: write, then keep the copy as clean. */
  function RecordFlush(s: Store, p: Project, merged: GraphState, faults: set<Id>): (Store, Result<(), Error>) {
    var (s1, ok) := WriteState(s, p.id, p.outputDir, merged, faults);
    if !ok then (s1, Err(Io))
    else
      var (c, evicted) := Insert(s1.cache, p.id, merged, false);
      FlushEvicted(s1.(cache := c, dirty := s1.dirty - {p.id}), evicted, faults)
  }

  /** The producer lane: update the resident copy and open or extend the dirty window. */
  function RecordDefer(s: Store, p: Project, merged: GraphState, faults: set<Id>): (Store, Result<(), Error>) {
    var (c, evicted) := Insert(s.cache, p.id, merged, true);
    FlushEvicted(s.(cache := c, dirty := Extend(s.dirty, p.id, s.now)), evicted, faults)
  }

  function RecordApply(s: Store, p: Project, merged: GraphState, lane: Persistence, faults: set<Id>)
    : (Store, Result<(), Error>)
  {
    match lane
    case Flush => RecordFlush(Remember(s, p), p, merged, faults)
    case Defer => RecordDefer(Remember(s, p), p, merged, faults)
  }

  /** `flush_project` and `flush_locked`: persist `id` if it is dirty. */
  function FlushProject(s: Store, id: Id, faults: set<Id>): (Store, Result<bool, Error>) {
    if id !in s.dirty then (s, Ok(false))
    else if id !in s.outDirs then (s, Err(UnknownOutputDir))
    else
      var state := PeekArc(s.cache, id);
      if state.None? then (s.(dirty := s.dirty - {id}), Err(NotResident))
      else
        var (s1, ok) := WriteState(s, id, s.outDirs[id], state.value.value, faults);
        if !ok then (s1, Err(Io))
        else (s1.(cache := MarkClean(s1.cache, id), dirty := s1.dirty - {id}), Ok(true))
  }

  predicate IsDue(s: Store, id: Id)
    requires id in s.dirty
  {
    || s.now - s.dirty[id].lastApply >= s.cfg.quiescence
    || s.now - s.dirty[id].firstDirty >= s.cfg.maxDirtyAge
  }

  function Due(s: Store): set<Id> {
    set id | id in s.dirty && IsDue(s, id)
  }

  function FlushEach(s: Store, ids: seq<Id>, faults: set<Id>): (Store, seq<(Id, Error)>)
    decreases |ids|
  {
    if ids == [] then (s, [])
    else
      var (s1, r) := FlushProject(s, ids[0], faults);
      var (s2, failures) := FlushEach(s1, ids[1..], faults);
      (s2, if r.Err? then [(ids[0], r.error)] + failures else failures)
  }

  // ---- the invariant -------------------------------------------------------

  /** The registry: every project's output directory, no two projects sharing one. */
  type Registry = map<Id, Dir>

  ghost predicate Injective(reg: Registry) {
    forall i, j :: i in reg && j in reg && reg[i] == reg[j] ==> i == j
  }

  predicate Registered(reg: Registry, p: Project) {
    p.id in reg && reg[p.id] == p.outputDir
  }

  /** The latest state of a registered project: the resident one, or else its checkpoint. */
  function Latest(s: Store, reg: Registry, id: Id): GraphState
    requires id in reg
  {
    if id in s.cache.graphs then s.cache.graphs[id].state.value else Load(s.disk, reg[id])
  }

  ghost predicate DirsKnown(s: Store, reg: Registry) {
    && (forall id :: id in s.cache.graphs ==> id in s.outDirs)
    && (forall id :: id in s.outDirs ==> id in reg && s.outDirs[id] == reg[id])
  }

  ghost predicate DiskErased(s: Store) {
    forall d :: d in s.disk ==> Erase(s.disk[d]) == s.disk[d]
  }

  ghost predicate WindowsOrdered(s: Store) {
    forall id :: id in s.dirty ==> s.dirty[id].firstDirty <= s.dirty[id].lastApply <= s.now
  }

  /** The two dirty records agree on `id`, and if it is clean and resident its checkpoint is current. */
  ghost predicate Settled(s: Store, reg: Registry, id: Id) {
    && (id in s.dirty <==> id in s.cache.dirty)
    && (id in s.cache.graphs && id !in s.dirty ==>
          id in reg && Load(s.disk, reg[id]) == Erase(s.cache.graphs[id].state.value))
  }

  ghost predicate Frame(s: Store, reg: Registry) {
    CacheInv(s.cache) && Injective(reg) && DirsKnown(s, reg) && DiskErased(s) && WindowsOrdered(s)
  }

  ghost predicate StoreInv(s: Store, reg: Registry) {
    Frame(s, reg) && forall id :: Settled(s, reg, id)
  }
}
