/** The LRU state cache on values: what each operation of `ProjectStateCache` does. */
module CacheSpec {
  import opened Prelude
  import opened Graph

  /** A shared state object: two of them are the same object exactly when their addresses agree. */
  datatype Arc = Arc(addr: nat, value: GraphState)

  /** A query index, identified by the state object it was built from. */
  datatype GraphView = GraphView(of: Arc)

  datatype Resident = Resident(state: Arc, view: Option<GraphView>)

  /** A project paged out; `state` is present when it was dirty. */
  datatype Evicted = Evicted(id: Id, state: Option<Arc>)

  datatype Cache = Cache(
    capacity: nat,
    graphs: map<Id, Resident>,
    manifests: map<Id, Facet>,
    order: seq<Id>,
    dirty: set<Id>,
    /** Every state object made so far; an object's address is its place here. */
    heap: seq<GraphState>)

  function New(capacity: nat): Cache {
    Cache(if capacity < 1 then 1 else capacity, map[], map[], [], {}, [])
  }

  function Touch(c: Cache, id: Id): Cache {
    c.(order := Without(c.order, id) + [id])
  }

  function GetArc(c: Cache, id: Id): (Cache, Option<Arc>) {
    if id in c.graphs then (Touch(c, id), Some(c.graphs[id].state)) else (c, None)
  }

  function PeekArc(c: Cache, id: Id): Option<Arc> {
    if id in c.graphs then Some(c.graphs[id].state) else None
  }

  function View(c: Cache, id: Id): (Cache, Option<GraphView>) {
    if id in c.graphs && c.graphs[id].view.Some?
    then (Touch(c, id), c.graphs[id].view)
    else (c, None)
  }

  function InstallView(c: Cache, id: Id, of: Arc, view: GraphView): (Cache, bool) {
    if id in c.graphs && c.graphs[id].state.addr == of.addr
    then (c.(graphs := c.graphs[id := c.graphs[id].(view := Some(view))]), true)
    else (c, false)
  }

  function MarkClean(c: Cache, id: Id): Cache {
    c.(dirty := c.dirty - {id})
  }

  /** The entry, manifest, dirty flag and recency of an insert, before any eviction. */
  function Place(c: Cache, id: Id, state: GraphState, dirty: bool): Cache {
    c.(graphs := c.graphs[id := Resident(Arc(|c.heap|, state), None)],
       manifests := c.manifests[id := state.manifest],
       order := Without(c.order, id) + [id],
       dirty := if dirty then c.dirty + {id} else c.dirty - {id},
       heap := c.heap + [state])
  }

  /** Drop `id`'s entry and flag; recency was popped by the caller. */
  function Drop(c: Cache, id: Id): (Cache, Evicted)
    requires id in c.graphs
  {
    (c.(graphs := c.graphs - {id}, dirty := c.dirty - {id}),
     Evicted(id, if id in c.dirty then Some(c.graphs[id].state) else None))
  }

  /** Pop the recency queue until the resident count fits, skipping ids that are not resident. */
  function EvictToCapacity(c: Cache): (Cache, seq<Evicted>)
    decreases |c.order|
  {
    if |c.graphs| <= c.capacity || c.order == [] then (c, [])
    else
      var id, rest := c.order[0], c.(order := c.order[1..]);
      if id !in c.graphs then EvictToCapacity(rest)
      else
        var (dropped, victim) := Drop(rest, id);
        var (last, more) := EvictToCapacity(dropped);
        (last, [victim] + more)
  }

  function Insert(c: Cache, id: Id, state: GraphState, dirty: bool): (Cache, seq<Evicted>) {
    EvictToCapacity(Place(c, id, state, dirty))
  }

  // ---- the invariant -------------------------------------------------------

  ghost predicate OrderListsResidents(c: Cache) {
    && NoDup(c.order)
    && (forall id :: id in c.order <==> id in c.graphs)
  }

  /** A cached view was built from the state object resident beside it. */
  ghost predicate ViewsCoherent(c: Cache) {
    forall id :: id in c.graphs && c.graphs[id].view.Some? ==>
                   c.graphs[id].view.value.of == c.graphs[id].state
  }

  ghost predicate ManifestsHot(c: Cache) {
    forall id :: id in c.graphs ==>
                   id in c.manifests && c.manifests[id] == c.graphs[id].state.value.manifest
  }

  /** `arc` is one of the state objects this cache made. */
  predicate Genuine(c: Cache, arc: Arc) {
    arc.addr < |c.heap| && c.heap[arc.addr] == arc.value
  }

  ghost predicate Addressed(c: Cache) {
    forall id :: id in c.graphs ==> Genuine(c, c.graphs[id].state)
  }

  ghost predicate CacheInv(c: Cache) {
    && 1 <= c.capacity
    && |c.graphs| <= c.capacity
    && OrderListsResidents(c)
    && c.dirty <= c.graphs.Keys
    && ViewsCoherent(c)
    && ManifestsHot(c)
    && Addressed(c)
  }

  // ---- eviction in closed form ---------------------------------------------

  /** The project an insert of `id` pages out: the least recently used one, when a slot is needed. */
  function Victim(c: Cache, id: Id): Option<Id> {
    if id in c.graphs || |c.graphs| < c.capacity || c.order == [] then None else Some(c.order[0])
  }

  lemma OrderLength(c: Cache)
    requires OrderListsResidents(c)
    ensures |c.order| == |c.graphs|
  {
    NoDupCard(c.order);
    assert Elements(c.order) == c.graphs.Keys;
  }

  /** One graph over capacity with a resident least-recent id: exactly that id is dropped. */
  lemma EvictOne(p: Cache)
    requires |p.graphs| == p.capacity + 1 && p.order != [] && p.order[0] in p.graphs
    ensures var d := Drop(p.(order := p.order[1..]), p.order[0]);
            EvictToCapacity(p) == (d.0, [d.1])
  {
    var v := p.order[0];
    var d := Drop(p.(order := p.order[1..]), v);
    assert d.0.graphs.Keys == p.graphs.Keys - {v};
    assert |d.0.graphs.Keys| == |d.0.graphs| && |p.graphs.Keys| == |p.graphs|;
    assert EvictToCapacity(d.0) == (d.0, []);
    assert [d.1] + [] == [d.1];
  }

  lemma PlaceCount(c: Cache, id: Id, state: GraphState, dirty: bool)
    ensures |Place(c, id, state, dirty).graphs| == |c.graphs| + if id in c.graphs then 0 else 1
  {
    var p := Place(c, id, state, dirty);
    assert p.graphs.Keys == c.graphs.Keys + {id};
    assert |p.graphs.Keys| == |p.graphs| && |c.graphs.Keys| == |c.graphs|;
    if id in c.graphs {
      assert p.graphs.Keys == c.graphs.Keys;
    }
  }

  /** An insert evicts at most one project, the front of the recency order, and never the one inserted. */
  lemma InsertEvicts(c: Cache, id: Id, state: GraphState, dirty: bool)
    requires CacheInv(c)
    ensures Victim(c, id).None? ==> Insert(c, id, state, dirty) == (Place(c, id, state, dirty), [])
    ensures Victim(c, id).Some? ==>
              var v := Victim(c, id).value;
              && v != id && v in c.graphs
              && var p := Place(c, id, state, dirty);
                 && p.order[0] == v && v in p.graphs
                 && var d := Drop(p.(order := p.order[1..]), v);
                    Insert(c, id, state, dirty) == (d.0, [d.1])
  {
    OrderLength(c);
    PlaceCount(c, id, state, dirty);
    if Victim(c, id).Some? {
      WithoutAbsent(c.order, id);
      var p := Place(c, id, state, dirty);
      assert p.order[0] == c.order[0] && c.order[0] in c.order;
      EvictOne(p);
    }
  }

  lemma TouchKeepsInv(c: Cache, id: Id)
    requires CacheInv(c) && id in c.graphs
    ensures CacheInv(Touch(c, id))
  {
    WithoutElements(c.order, id);
  }

  lemma PlaceShape(c: Cache, id: Id, state: GraphState, dirty: bool)
    requires CacheInv(c)
    ensures var p := Place(c, id, state, dirty);
            && OrderListsResidents(p) && ViewsCoherent(p) && ManifestsHot(p) && Addressed(p)
            && p.dirty <= p.graphs.Keys
  {
    PlaceOrder(c, id, state, dirty);
    var p := Place(c, id, state, dirty);
    forall x | x in p.graphs ensures Genuine(p, p.graphs[x].state) {
      assert x in c.graphs ==> Genuine(c, c.graphs[x].state);
    }
  }

  lemma PlaceOrder(c: Cache, id: Id, state: GraphState, dirty: bool)
    requires OrderListsResidents(c)
    ensures OrderListsResidents(Place(c, id, state, dirty))
  {
    WithoutElements(c.order, id);
    NoDupSnoc(Without(c.order, id), id);
  }

  lemma DropFrontKeepsInv(p: Cache)
    requires OrderListsResidents(p) && ViewsCoherent(p) && ManifestsHot(p) && Addressed(p)
    requires p.dirty <= p.graphs.Keys && 1 <= p.capacity && |p.graphs| == p.capacity + 1
    ensures p.order != [] && p.order[0] in p.graphs
    ensures CacheInv(Drop(p.(order := p.order[1..]), p.order[0]).0)
  {
    OrderLength(p);
    var v := p.order[0];
    var d := Drop(p.(order := p.order[1..]), v).0;
    assert forall x :: x in p.order <==> x == v || x in d.order;
    assert d.graphs.Keys == p.graphs.Keys - {v};
    assert |d.graphs.Keys| == |d.graphs| && |p.graphs.Keys| == |p.graphs|;
  }

  lemma InsertKeepsInv(c: Cache, id: Id, state: GraphState, dirty: bool)
    requires CacheInv(c)
    ensures CacheInv(Insert(c, id, state, dirty).0)
  {
    InsertEvicts(c, id, state, dirty);
    PlaceShape(c, id, state, dirty);
    PlaceCount(c, id, state, dirty);
    OrderLength(c);
    if Victim(c, id).Some? {
      DropFrontKeepsInv(Place(c, id, state, dirty));
    }
  }

  /** A view installed under the object it was built from keeps the views coherent and the rest as it was. */
  lemma InstalledViews(c: Cache, id: Id, of: Arc, view: GraphView)
    requires ViewsCoherent(c) && ManifestsHot(c) && Addressed(c) && view.of == of && Genuine(c, of)
    requires id in c.graphs && c.graphs[id].state.addr == of.addr
    ensures var d := InstallView(c, id, of, view).0;
            ViewsCoherent(d) && ManifestsHot(d) && Addressed(d)
  {
    assert c.graphs[id].state == of;
  }

  lemma InstallKeepsInv(c: Cache, id: Id, of: Arc, view: GraphView)
    requires CacheInv(c) && view.of == of && Genuine(c, of)
    ensures CacheInv(InstallView(c, id, of, view).0)
  {
    if id in c.graphs && c.graphs[id].state.addr == of.addr {
      var d := InstallView(c, id, of, view).0;
      InstalledViews(c, id, of, view);
      assert d.graphs.Keys == c.graphs.Keys;
      assert |d.graphs| == |d.graphs.Keys| && |c.graphs| == |c.graphs.Keys|;
    }
  }
}
