/** The warm source: a query's view, cached or built from the state the request read. */
module Source {
  import opened Prelude
  import opened Graph
  import opened CacheSpec
  import opened FlushSpec
  import opened StoreOps
  import opened StoreRuns
  import opened Applies
  import F = Flush

  datatype QueryError = NotIndexed | Failed(error: Error)

  /** The resident state, or the checkpoint paged in; with neither the project is unindexed, not empty. */
  function ReadIndexed(s: Store, p: Project, faults: set<Id>): (Store, Result<Arc, QueryError>) {
    var (c, hit) := GetArc(s.cache, p.id);
    if hit.Some? then (s.(cache := c), Ok(hit.value))
    else if p.outputDir !in s.disk then (s, Err(NotIndexed))
    else
      var (t, r) := StateOf(s, p, faults);
      (t, if r.Ok? then Ok(r.value) else Err(Failed(r.error)))
  }

  function GetView(s: Store, p: Project, faults: set<Id>): (Store, Result<GraphView, QueryError>) {
    var (c, cached) := View(s.cache, p.id);
    if cached.Some? then (s.(cache := c), Ok(cached.value))
    else
      var (s1, state) := ReadIndexed(s, p, faults);
      if state.Err? then (s1, Err(state.error))
      else
        var view := GraphView(state.value);
        (s1.(cache := InstallView(s1.cache, p.id, state.value, view).0), Ok(view))
  }

  method ReadState(flusher: F.Flusher, p: Project, faults: set<Id>) returns (r: Result<Arc, QueryError>)
    modifies flusher, flusher.cache
    ensures (flusher.Model(), r) == ReadIndexed(old(flusher.Model()), p, faults)
  {
    var hit := flusher.cache.GetArc(p.id);
    if hit.Some? { return Ok(hit.value); }
    if p.outputDir !in flusher.disk { return Err(NotIndexed); }
    var state := flusher.StateOf(p, faults);
    r := if state.Ok? then Ok(state.value) else Err(Failed(state.error));
  }

  /** Hit: the cached view. Miss: read, build from what was read, publish. */
  method ServeView(flusher: F.Flusher, p: Project, faults: set<Id>) returns (r: Result<GraphView, QueryError>)
    modifies flusher, flusher.cache
    ensures (flusher.Model(), r) == GetView(old(flusher.Model()), p, faults)
  {
    var cached := flusher.cache.View(p.id);
    if cached.Some? { return Ok(cached.value); }
    var state := ReadState(flusher, p, faults);
    if state.Err? { return Err(state.error); }
    var view := GraphView(state.value);
    var _ := flusher.cache.InstallView(p.id, state.value, view);
    r := Ok(view);
  }

  lemma ReadIndexedKeeps(s: Store, reg: Registry, p: Project, faults: set<Id>)
    requires StoreInv(s, reg) && Registered(reg, p)
    ensures var (t, r) := ReadIndexed(s, p, faults);
            && StoreInv(t, reg)
            && (r.Ok? ==> p.id in t.cache.graphs && t.cache.graphs[p.id].state == r.value
                          && Agrees(r.value.value, Latest(s, reg, p.id)))
            && (r == Err(NotIndexed) <==> p.id !in s.cache.graphs && reg[p.id] !in s.disk)
  {
    if p.id in s.cache.graphs {
      TouchKeeps(s, reg, p.id);
    } else {
      StateOfKeeps(s, reg, p, faults);
      ReadIsLatest(s, reg, p, faults);
    }
  }

  /**
   * A query answers from the project's latest state (or its reloaded copy), and the view it used is
   * then cached beside exactly the state object it describes; it is told the project is not indexed
   * exactly when nothing is resident and there is no checkpoint, never answered from the empty state
   * that stands for one; and the store keeps its invariant.
   */
  lemma QueriesSeeTheLatest(s: Store, reg: Registry, p: Project, faults: set<Id>)
    requires StoreInv(s, reg) && Registered(reg, p)
    ensures var (t, r) := GetView(s, p, faults);
            && StoreInv(t, reg)
            && (r.Ok? ==>
                  && Agrees(r.value.of.value, Latest(s, reg, p.id))
                  && p.id in t.cache.graphs && t.cache.graphs[p.id] == Resident(r.value.of, Some(r.value)))
            && (r == Err(NotIndexed) <==> p.id !in s.cache.graphs && reg[p.id] !in s.disk)
  {
    if View(s.cache, p.id).1.Some? {
      ViewKeepsInv(s.cache, p.id);
      SameStatesKeep(s, reg, View(s.cache, p.id).0);
    } else {
      ReadIndexedKeeps(s, reg, p, faults);
      var (s1, state) := ReadIndexed(s, p, faults);
      if state.Ok? {
        BuiltIsPublished(s1, reg, p.id, state.value);
      }
    }
  }

  /** A view of the resident object is installed beside it. */
  lemma BuiltIsPublished(s: Store, reg: Registry, id: Id, state: Arc)
    requires StoreInv(s, reg) && id in s.cache.graphs && s.cache.graphs[id].state == state
    ensures var c := InstallView(s.cache, id, state, GraphView(state)).0;
            StoreInv(s.(cache := c), reg) && c.graphs[id] == Resident(state, Some(GraphView(state)))
  {
    InstallKeepsInv(s.cache, id, state, GraphView(state));
    PublishKeepsStates(s.cache, id, state, GraphView(state));
    SameStatesKeep(s, reg, InstallView(s.cache, id, state, GraphView(state)).0);
  }
}
