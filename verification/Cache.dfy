/** `ProjectStateCache`: the fields updated in place, each method proved against CacheSpec. */
module StateCache {
  import opened Prelude
  import opened Graph
  import Spec = CacheSpec

  class ProjectStateCache {
    const capacity: nat
    var graphs: map<Id, Spec.Resident>
    var manifests: map<Id, Facet>
    var order: seq<Id>
    var dirty: set<Id>
    /** The state objects `Arc::new` made so far, by address. */
    var heap: seq<GraphState>

    ghost function Model(): Spec.Cache
      reads this
    {
      Spec.Cache(capacity, graphs, manifests, order, dirty, heap)
    }

    constructor (capacity: nat)
      ensures Model() == Spec.New(capacity)
    {
      this.capacity := if capacity < 1 then 1 else capacity;
      graphs, manifests, order, dirty, heap := map[], map[], [], {}, [];
    }

    method GetArc(id: Id) returns (arc: Option<Spec.Arc>)
      modifies this
      ensures (Model(), arc) == Spec.GetArc(old(Model()), id)
    {
      if id in graphs {
        Touch(id);
        arc := Some(graphs[id].state);
      } else {
        arc := None;
      }
    }

    method PeekArc(id: Id) returns (arc: Option<Spec.Arc>)
      ensures arc == Spec.PeekArc(Model(), id)
    {
      arc := if id in graphs then Some(graphs[id].state) else None;
    }

    method View(id: Id) returns (view: Option<Spec.GraphView>)
      modifies this
      ensures (Model(), view) == Spec.View(old(Model()), id)
    {
      if id !in graphs { return None; }
      view := graphs[id].view;
      if view.Some? {
        Touch(id);
      }
    }

    method InstallView(id: Id, of: Spec.Arc, view: Spec.GraphView) returns (installed: bool)
      modifies this
      ensures (Model(), installed) == Spec.InstallView(old(Model()), id, of, view)
    {
      if id !in graphs { return false; }
      if graphs[id].state.addr != of.addr { return false; }
      graphs := graphs[id := graphs[id].(view := Some(view))];
      installed := true;
    }

    method LoadInto(id: Id, state: GraphState) returns (evicted: seq<Spec.Evicted>)
      modifies this
      ensures (Model(), evicted) == Spec.Insert(old(Model()), id, state, false)
    {
      evicted := Insert(id, state, false);
    }

    method Put(id: Id, state: GraphState) returns (evicted: seq<Spec.Evicted>)
      modifies this
      ensures (Model(), evicted) == Spec.Insert(old(Model()), id, state, true)
    {
      evicted := Insert(id, state, true);
    }

    method MarkClean(id: Id)
      modifies this
      ensures Model() == Spec.MarkClean(old(Model()), id)
    {
      dirty := dirty - {id};
    }

    method Insert(id: Id, state: GraphState, isDirty: bool) returns (evicted: seq<Spec.Evicted>)
      modifies this
      ensures (Model(), evicted) == Spec.Insert(old(Model()), id, state, isDirty)
    {
      manifests := manifests[id := state.manifest];
      graphs := graphs[id := Spec.Resident(Spec.Arc(|heap|, state), None)];
      heap := heap + [state];
      if isDirty {
        dirty := dirty + {id};
      } else {
        dirty := dirty - {id};
      }
      Touch(id);
      evicted := EvictToCapacity();
    }

    method Touch(id: Id)
      modifies this
      ensures Model() == Spec.Touch(old(Model()), id)
    {
      var pos := 0;
      while pos < |order| && order[pos] != id
        invariant pos <= |order| && id !in order[..pos]
      {
        pos := pos + 1;
      }
      if pos < |order| {
        WithoutAt(order, id, pos);
        order := order[..pos] + order[pos + 1..];
      } else {
        assert order[..pos] == order;
        WithoutAbsent(order, id);
      }
      order := order + [id];
    }

    method EvictToCapacity() returns (evicted: seq<Spec.Evicted>)
      modifies this
      ensures (Model(), evicted) == Spec.EvictToCapacity(old(Model()))
    {
      evicted := [];
      ghost var whole := Spec.EvictToCapacity(Model());
      assert [] + whole.1 == whole.1;
      while |graphs| > capacity
        invariant whole == Resume(Model(), evicted)
        decreases |order|
      {
        ghost var entries := |order|;
        var victim: Option<Id> := None;
        while victim.None?
          invariant |graphs| > capacity
          invariant victim.None? ==> |order| <= entries && whole == Resume(Model(), evicted)
          invariant victim.Some? ==>
                      && |order| < entries && victim.value in graphs
                      && var d := Spec.Drop(Model(), victim.value);
                         whole == Resume(d.0, evicted + [d.1])
          decreases victim.None?, |order|
        {
          if order == [] {
            assert evicted + [] == evicted;
            return;
          }
          var id := order[0];
          order := order[1..];
          if id in graphs {
            victim := Some(id);
            ghost var d := Spec.Drop(Model(), id);
            Assoc(evicted, [d.1], Spec.EvictToCapacity(d.0).1);
          }
        }
        var id := victim.value;
        var state := graphs[id].state;
        var wasDirty := id in dirty;
        graphs := graphs - {id};
        dirty := dirty - {id};
        evicted := evicted + [Spec.Evicted(id, if wasDirty then Some(state) else None)];
      }
      assert evicted + [] == evicted;
    }

    /** The eviction's whole result, given what is left to do and what was evicted so far. */
    ghost static function Resume(c: Spec.Cache, evicted: seq<Spec.Evicted>): (Spec.Cache, seq<Spec.Evicted>) {
      var rest := Spec.EvictToCapacity(c);
      (rest.0, evicted + rest.1)
    }
  }
}
