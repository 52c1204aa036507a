/** What each store operation keeps and does to every project's latest state. */
module StoreSteps {
  import opened Prelude
  import opened Graph
  import opened CacheSpec
  import opened FlushSpec

  /** Insert a state and write back whatever that pages out. */
  function Absorb(s: Store, id: Id, state: GraphState, dirty: bool, faults: set<Id>): (Store, Result<(), Error>) {
    var (c, evicted) := Insert(s.cache, id, state, dirty);
    FlushEvicted(s.(cache := c), evicted, faults)
  }

  /** The dirty project an insert of `id` pages out while its write-back fails. */
  predicate LosesVictim(s: Store, id: Id, faults: set<Id>) {
    var v := Victim(s.cache, id);
    v.Some? && v.value in s.cache.dirty && v.value in faults
  }

  /** The store after the victim `v` of an insert that left `placed` is dropped and, when dirty, written. */
  function PageOut(s: Store, placed: Cache, v: Id, faults: set<Id>): Store
    requires v in placed.graphs && v in s.outDirs && placed.order != []
  {
    var s1 := s.(cache := Drop(placed.(order := placed.order[1..]), v).0, dirty := s.dirty - {v});
    if v in placed.dirty then WriteState(s1, v, s.outDirs[v], placed.graphs[v].state.value, faults).0 else s1
  }

  lemma AbsorbIs(s: Store, id: Id, state: GraphState, dirty: bool, faults: set<Id>)
    requires CacheInv(s.cache) && forall x :: x in s.cache.graphs ==> x in s.outDirs
    ensures var p := Place(s.cache, id, state, dirty);
            var v := Victim(s.cache, id);
            Absorb(s, id, state, dirty, faults) ==
            if v.None? then (s.(cache := p), Ok(()))
            else if p.order == [] || v.value !in p.graphs || v.value !in s.outDirs then (s, Err(Vanished))
            else (PageOut(s, p, v.value, faults), if LosesVictim(s, id, faults) then Err(Io) else Ok(()))
  {
    InsertEvicts(s.cache, id, state, dirty);
    var v := Victim(s.cache, id);
    if v.Some? {
      var p := Place(s.cache, id, state, dirty);
      var d := Drop(p.(order := p.order[1..]), v.value);
      var s1 := s.(cache := d.0, dirty := s.dirty - {v.value});
      assert v.value in p.dirty <==> v.value in s.cache.dirty;
      assert FlushEvicted(s.(cache := d.0), [d.1], faults) ==
             if d.1.state.None? then (s1, Ok(()))
             else var w := WriteState(s1, v.value, s1.outDirs[v.value], d.1.state.value.value, faults);
                  (w.0, if w.1 then Ok(()) else Err(Io)) by {
        assert [d.1][1..] == [];
      }
    }
  }

  /** The store's invariant apart from the cache's own. */
  ghost predicate Consistent(s: Store, reg: Registry) {
    && Injective(reg) && DirsKnown(s, reg) && DiskErased(s) && WindowsOrdered(s)
    && forall x :: Settled(s, reg, x)
  }

  lemma PlaceConsistent(s: Store, reg: Registry, id: Id, state: GraphState, dirty: bool)
    requires Frame(s, reg) && (forall x :: x != id ==> Settled(s, reg, x)) && id in s.outDirs
    requires id in s.dirty <==> dirty
    requires !dirty ==> Load(s.disk, reg[id]) == Erase(state)
    ensures Consistent(s.(cache := Place(s.cache, id, state, dirty)), reg)
  {
    var t := s.(cache := Place(s.cache, id, state, dirty));
    forall x ensures Settled(t, reg, x) {
      if x != id {
        assert Settled(s, reg, x);
      }
    }
  }

  lemma WriteSettles(s: Store, reg: Registry, v: Id, state: GraphState, faults: set<Id>, x: Id)
    requires Consistent(s, reg) && v in s.outDirs && v !in s.cache.graphs
    ensures Settled(WriteState(s, v, s.outDirs[v], state, faults).0, reg, x)
  {
    assert Settled(s, reg, x);
    if x in s.cache.graphs {
      assert x in reg && reg[x] != reg[v];
    }
  }

  lemma PageOutConsistent(s: Store, reg: Registry, p: Cache, v: Id, faults: set<Id>)
    requires Consistent(s.(cache := p), reg) && v in p.graphs && v in s.outDirs && p.order != []
    ensures Consistent(PageOut(s, p, v, faults), reg)
  {
    var s0 := s.(cache := p);
    var s1 := s.(cache := Drop(p.(order := p.order[1..]), v).0, dirty := s.dirty - {v});
    forall x ensures Settled(s1, reg, x) {
      assert Settled(s0, reg, x);
    }
    assert Consistent(s1, reg);
    var t := PageOut(s, p, v, faults);
    forall x ensures Settled(t, reg, x) {
      WriteSettles(s1, reg, v, p.graphs[v].state.value, faults, x);
    }
  }

  /** What an insert promises: the invariant, whatever is paged out and whichever write fails. */
  lemma AbsorbKeeps(s: Store, reg: Registry, id: Id, state: GraphState, dirty: bool, faults: set<Id>)
    requires Frame(s, reg) && (forall x :: x != id ==> Settled(s, reg, x)) && id in s.outDirs
    requires id in s.dirty <==> dirty
    requires !dirty ==> Load(s.disk, reg[id]) == Erase(state)
    ensures StoreInv(Absorb(s, id, state, dirty, faults).0, reg)
    ensures Absorb(s, id, state, dirty, faults).1 == if LosesVictim(s, id, faults) then Err(Io) else Ok(())
  {
    AbsorbIs(s, id, state, dirty, faults);
    InsertEvicts(s.cache, id, state, dirty);
    PlaceConsistent(s, reg, id, state, dirty);
    AbsorbCache(s, id, state, dirty, faults);
    if Victim(s.cache, id).Some? {
      PageOutConsistent(s, reg, Place(s.cache, id, state, dirty), Victim(s.cache, id).value, faults);
    }
  }

  lemma AbsorbCache(s: Store, id: Id, state: GraphState, dirty: bool, faults: set<Id>)
    requires CacheInv(s.cache) && forall x :: x in s.cache.graphs ==> x in s.outDirs
    ensures Absorb(s, id, state, dirty, faults).0.cache == Insert(s.cache, id, state, dirty).0
    ensures CacheInv(Absorb(s, id, state, dirty, faults).0.cache)
  {
    AbsorbIs(s, id, state, dirty, faults);
    InsertEvicts(s.cache, id, state, dirty);
    InsertKeepsInv(s.cache, id, state, dirty);
  }

  /** And every latest state: only a failed write-back reverts its victim to the old checkpoint. */
  lemma AbsorbLatest(s: Store, reg: Registry, id: Id, state: GraphState, dirty: bool, faults: set<Id>, x: Id)
    requires Frame(s, reg) && Settled(s, reg, x) && id in s.outDirs && x in reg && x != id
    ensures Latest(Absorb(s, id, state, dirty, faults).0, reg, x) ==
            if Victim(s.cache, id) != Some(x) then Latest(s, reg, x)
            else if LosesVictim(s, id, faults) then Load(s.disk, reg[x])
            else Erase(Latest(s, reg, x))
  {
    AbsorbIs(s, id, state, dirty, faults);
    InsertEvicts(s.cache, id, state, dirty);
    if Victim(s.cache, id).Some? {
      PageOutLatest(s, reg, Place(s.cache, id, state, dirty), Victim(s.cache, id).value, faults, x);
    }
  }

  lemma PageOutLatest(s: Store, reg: Registry, p: Cache, v: Id, faults: set<Id>, x: Id)
    requires Injective(reg) && DirsKnown(s, reg) && x in reg
    requires v in p.graphs && v in s.outDirs && p.order != []
    ensures Latest(PageOut(s, p, v, faults), reg, x) ==
            if x != v then Latest(s.(cache := p), reg, x)
            else if v in p.dirty && v !in faults then Erase(p.graphs[v].state.value)
            else Load(s.disk, reg[x])
  {
  }
}
