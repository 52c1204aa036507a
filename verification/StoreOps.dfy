/** The store's operations under its invariant: what each answers, keeps and changes. */
module StoreOps {
  import opened Prelude
  import opened Graph
  import opened CacheSpec
  import opened FlushSpec
  import opened StoreSteps

  /** `x`'s latest state is the same one, or that one after a trip through its checkpoint. */
  ghost predicate Kept(s: Store, t: Store, reg: Registry, x: Id)
    requires x in reg
  {
    Agrees(Latest(t, reg, x), Latest(s, reg, x))
  }

  lemma RememberKeeps(s: Store, reg: Registry, p: Project)
    requires StoreInv(s, reg) && Registered(reg, p)
    ensures StoreInv(Remember(s, p), reg)
    ensures forall x :: x in reg ==> Latest(Remember(s, p), reg, x) == Latest(s, reg, x)
  {
    var t := Remember(s, p);
    forall x ensures Settled(t, reg, x) {
      assert Settled(s, reg, x);
    }
  }

  lemma TouchKeeps(s: Store, reg: Registry, id: Id)
    requires StoreInv(s, reg) && id in s.cache.graphs
    ensures StoreInv(s.(cache := Touch(s.cache, id)), reg)
  {
    TouchKeepsInv(s.cache, id);
    var t := s.(cache := Touch(s.cache, id));
    forall x ensures Settled(t, reg, x) {
      assert Settled(s, reg, x);
    }
  }

  /** The id just inserted is resident at a new address, and asking for it changes nothing. */
  lemma InsertedIsResident(c: Cache, id: Id, state: GraphState, dirty: bool)
    requires CacheInv(c)
    ensures GetArc(Insert(c, id, state, dirty).0, id) ==
            (Insert(c, id, state, dirty).0, Some(Arc(|c.heap|, state)))
  {
    InsertEvicts(c, id, state, dirty);
    WithoutElements(c.order, id);
    var t := Insert(c, id, state, dirty).0;
    var w := Without(c.order, id);
    if Victim(c, id).None? {
      LastTouched(w, id);
    } else {
      assert t.order == w[1..] + [id];
      LastTouched(w[1..], id);
    }
  }

  lemma LastTouched(w: seq<Id>, id: Id)
    requires id !in w
    ensures Without(w + [id], id) + [id] == w + [id]
  {
    WithoutAt(w + [id], id, |w|);
  }

  // ---- reads ---------------------------------------------------------------

  lemma MissIsAbsorb(s: Store, reg: Registry, p: Project, faults: set<Id>)
    requires StoreInv(s, reg) && Registered(reg, p) && p.id !in s.cache.graphs && p.id !in faults
    ensures var s0 := Remember(s, p);
            var a := Absorb(s0, p.id, Load(s.disk, p.outputDir), false, faults);
            StateOf(s, p, faults) ==
            (a.0, if a.1.Err? then Err(a.1.error)
                  else Ok(Arc(|s.cache.heap|, Load(s.disk, p.outputDir))))
  {
    InsertedIsResident(s.cache, p.id, Load(s.disk, p.outputDir), false);
  }

  /** The read of `p` that pages in and loses the dirty victim's write-back. */
  predicate ReadLoses(s: Store, p: Project, faults: set<Id>) {
    p.id !in s.cache.graphs && p.id !in faults && LosesVictim(s, p.id, faults)
  }

  lemma StateOfKeeps(s: Store, reg: Registry, p: Project, faults: set<Id>)
    requires StoreInv(s, reg) && Registered(reg, p)
    ensures StoreInv(StateOf(s, p, faults).0, reg)
    ensures var r := StateOf(s, p, faults).1;
            if p.id in s.cache.graphs then r == Ok(s.cache.graphs[p.id].state)
            else if p.id in faults || ReadLoses(s, p, faults) then r == Err(Io)
            else r == Ok(Arc(|s.cache.heap|, Latest(s, reg, p.id)))
  {
    RememberKeeps(s, reg, p);
    var s0 := Remember(s, p);
    assert Settled(s0, reg, p.id);
    if p.id in s.cache.graphs {
      TouchKeeps(s0, reg, p.id);
    } else if p.id !in faults {
      MissIsAbsorb(s, reg, p, faults);
      AbsorbKeeps(s0, reg, p.id, Load(s.disk, p.outputDir), false, faults);
    }
  }

  lemma StateOfLatest(s: Store, reg: Registry, p: Project, faults: set<Id>, x: Id)
    requires StoreInv(s, reg) && Registered(reg, p) && x in reg
    ensures var t := StateOf(s, p, faults).0;
            if ReadLoses(s, p, faults) && Victim(s.cache, p.id) == Some(x)
            then Latest(t, reg, x) == Load(s.disk, reg[x])
            else Kept(s, t, reg, x)
  {
    RememberKeeps(s, reg, p);
    var s0 := Remember(s, p);
    if p.id !in s.cache.graphs && p.id !in faults {
      MissIsAbsorb(s, reg, p, faults);
      assert Settled(s0, reg, x) && Settled(s0, reg, p.id);
      if x == p.id {
        AbsorbOwn(s0, x, Load(s.disk, p.outputDir), false, faults);
      } else {
        AbsorbLatest(s0, reg, p.id, Load(s.disk, p.outputDir), false, faults, x);
      }
    }
  }

  lemma AbsorbOwn(s: Store, id: Id, state: GraphState, dirty: bool, faults: set<Id>)
    requires CacheInv(s.cache) && forall x :: x in s.cache.graphs ==> x in s.outDirs
    ensures var c := Absorb(s, id, state, dirty, faults).0.cache;
            id in c.graphs && c.graphs[id].state == Arc(|s.cache.heap|, state)
  {
    AbsorbCache(s, id, state, dirty, faults);
    InsertedIsResident(s.cache, id, state, dirty);
  }

  // ---- applies -------------------------------------------------------------

  /** Whether an apply's result is taken up: a client's only once its write succeeded. */
  predicate TakesUp(p: Project, lane: Persistence, faults: set<Id>) {
    lane == Defer || p.id !in faults
  }

  /** The store an apply hands to the insert, its own write and dirty window already done. */
  function BeforeInsert(s: Store, p: Project, merged: GraphState, lane: Persistence): Store {
    var s0 := Remember(s, p);
    match lane
    case Flush => var s1 := WriteState(s0, p.id, p.outputDir, merged, {}).0; s1.(dirty := s1.dirty - {p.id})
    case Defer => s0.(dirty := Extend(s0.dirty, p.id, s0.now))
  }

  lemma RecordIsAbsorb(s: Store, p: Project, merged: GraphState, lane: Persistence, faults: set<Id>)
    ensures RecordApply(s, p, merged, lane, faults) ==
            if TakesUp(p, lane, faults)
            then Absorb(BeforeInsert(s, p, merged, lane), p.id, merged, lane == Defer, faults)
            else (Remember(s, p), Err(Io))
  {
  }

  /** What the insert's preconditions ask of the store it is handed. */
  ghost predicate ReadyFor(t: Store, reg: Registry, id: Id) {
    Frame(t, reg) && (forall x :: x != id ==> Settled(t, reg, x)) && id in t.outDirs
  }

  lemma BeforeFlushSettled(s: Store, reg: Registry, p: Project, merged: GraphState, x: Id)
    requires Injective(reg) && DirsKnown(s, reg) && Registered(reg, p) && Settled(s, reg, x) && x != p.id
    ensures Settled(BeforeInsert(s, p, merged, Flush), reg, x)
  {
    if x in s.cache.graphs {
      assert x in reg && reg[x] != reg[p.id];
    }
  }

  lemma BeforeFlushReady(s: Store, reg: Registry, p: Project, merged: GraphState)
    requires StoreInv(s, reg) && Registered(reg, p)
    ensures var t := BeforeInsert(s, p, merged, Flush);
            ReadyFor(t, reg, p.id) && p.id !in t.dirty && Load(t.disk, reg[p.id]) == Erase(merged)
  {
    var t := BeforeInsert(s, p, merged, Flush);
    forall x | x != p.id ensures Settled(t, reg, x) {
      BeforeFlushSettled(s, reg, p, merged, x);
    }
    assert DiskErased(t);
  }

  lemma BeforeDeferReady(s: Store, reg: Registry, p: Project, merged: GraphState)
    requires StoreInv(s, reg) && Registered(reg, p)
    ensures var t := BeforeInsert(s, p, merged, Defer);
            ReadyFor(t, reg, p.id) && p.id in t.dirty
  {
    RememberKeeps(s, reg, p);
    var s0, t := Remember(s, p), BeforeInsert(s, p, merged, Defer);
    forall x | x != p.id ensures Settled(t, reg, x) {
      assert Settled(s0, reg, x);
    }
  }

  lemma BeforeInsertReady(s: Store, reg: Registry, p: Project, merged: GraphState, lane: Persistence)
    requires StoreInv(s, reg) && Registered(reg, p)
    ensures var t := BeforeInsert(s, p, merged, lane);
            && ReadyFor(t, reg, p.id) && (p.id in t.dirty <==> lane == Defer) && t.cache == s.cache
            && (lane == Flush ==> Load(t.disk, reg[p.id]) == Erase(merged))
  {
    match lane
    case Flush => BeforeFlushReady(s, reg, p, merged);
    case Defer => BeforeDeferReady(s, reg, p, merged);
  }

  lemma BeforeInsertOthers(s: Store, reg: Registry, p: Project, merged: GraphState, lane: Persistence, x: Id)
    requires Injective(reg) && Registered(reg, p) && x in reg && x != p.id
    ensures Load(BeforeInsert(s, p, merged, lane).disk, reg[x]) == Load(s.disk, reg[x])
    ensures Latest(BeforeInsert(s, p, merged, lane), reg, x) == Latest(s, reg, x)
  {
  }

  lemma RecordKeeps(s: Store, reg: Registry, p: Project, merged: GraphState, lane: Persistence, faults: set<Id>)
    requires StoreInv(s, reg) && Registered(reg, p)
    ensures StoreInv(RecordApply(s, p, merged, lane, faults).0, reg)
    ensures RecordApply(s, p, merged, lane, faults).1 ==
            if TakesUp(p, lane, faults) && !LosesVictim(s, p.id, faults) then Ok(()) else Err(Io)
  {
    RecordIsAbsorb(s, p, merged, lane, faults);
    RememberKeeps(s, reg, p);
    BeforeInsertReady(s, reg, p, merged, lane);
    if TakesUp(p, lane, faults) {
      AbsorbKeeps(BeforeInsert(s, p, merged, lane), reg, p.id, merged, lane == Defer, faults);
    }
  }

  lemma RecordLatest(s: Store, reg: Registry, p: Project, merged: GraphState, lane: Persistence,
                     faults: set<Id>, x: Id)
    requires StoreInv(s, reg) && Registered(reg, p) && x in reg
    ensures var t := RecordApply(s, p, merged, lane, faults).0;
            if !TakesUp(p, lane, faults) then Latest(t, reg, x) == Latest(s, reg, x)
            else if x == p.id then Latest(t, reg, x) == merged
            else if LosesVictim(s, p.id, faults) && Victim(s.cache, p.id) == Some(x)
            then Latest(t, reg, x) == Load(s.disk, reg[x])
            else Kept(s, t, reg, x)
  {
    RecordIsAbsorb(s, p, merged, lane, faults);
    RememberKeeps(s, reg, p);
    BeforeInsertReady(s, reg, p, merged, lane);
    if TakesUp(p, lane, faults) {
      var b := BeforeInsert(s, p, merged, lane);
      if x == p.id {
        AbsorbOwn(b, x, merged, lane == Defer, faults);
      } else {
        BeforeInsertOthers(s, reg, p, merged, lane, x);
        AbsorbLatest(b, reg, p.id, merged, lane == Defer, faults, x);
      }
    }
  }

  // ---- flushes -------------------------------------------------------------

  /** A flush writes exactly a dirty project whose write succeeds, and changes no latest state. */
  lemma FlushIs(s: Store, reg: Registry, id: Id, faults: set<Id>)
    requires StoreInv(s, reg)
    ensures id in s.dirty ==> id in s.cache.graphs && id in reg
    ensures FlushProject(s, id, faults) ==
            if id !in s.dirty then (s, Ok(false))
            else if id in faults then (s, Err(Io))
            else (s.(cache := MarkClean(s.cache, id),
                     dirty := s.dirty - {id},
                     disk := s.disk[reg[id] := Erase(Latest(s, reg, id))],
                     writes := s.writes + 1,
                     persisted := s.persisted[id := s.now]), Ok(true))
  {
    assert Settled(s, reg, id);
  }

  lemma FlushKeeps(s: Store, reg: Registry, id: Id, faults: set<Id>)
    requires StoreInv(s, reg)
    ensures StoreInv(FlushProject(s, id, faults).0, reg)
  {
    FlushFrame(s, reg, id, faults);
    forall x ensures Settled(FlushProject(s, id, faults).0, reg, x) {
      FlushSettled(s, reg, id, faults, x);
    }
  }

  lemma FlushFrame(s: Store, reg: Registry, id: Id, faults: set<Id>)
    requires StoreInv(s, reg)
    ensures Frame(FlushProject(s, id, faults).0, reg)
  {
    FlushIs(s, reg, id, faults);
    CleanKeepsInv(s.cache, id);
    if id in reg {
      ErasedWrite(s, reg[id], Latest(s, reg, id));
    }
  }

  lemma CleanKeepsInv(c: Cache, id: Id)
    requires CacheInv(c)
    ensures CacheInv(MarkClean(c, id))
  {
  }

  lemma ErasedWrite(s: Store, dir: Dir, state: GraphState)
    requires DiskErased(s)
    ensures DiskErased(s.(disk := s.disk[dir := Erase(state)]))
  {
  }

  lemma FlushSettled(s: Store, reg: Registry, id: Id, faults: set<Id>, x: Id)
    requires StoreInv(s, reg)
    ensures Settled(FlushProject(s, id, faults).0, reg, x)
  {
    FlushIs(s, reg, id, faults);
    assert Settled(s, reg, x);
    if id in s.dirty && id !in faults {
      WrittenSettled(s, reg, id, x);
    }
  }

  /** The dirty project written and marked clean leaves every project settled. */
  lemma WrittenSettled(s: Store, reg: Registry, id: Id, x: Id)
    requires Injective(reg) && Settled(s, reg, x) && id in reg && id in s.cache.graphs
    ensures Settled(s.(cache := MarkClean(s.cache, id),
                       dirty := s.dirty - {id},
                       disk := s.disk[reg[id] := Erase(Latest(s, reg, id))],
                       writes := s.writes + 1,
                       persisted := s.persisted[id := s.now]), reg, x)
  {
    if x in s.cache.graphs && x in reg && x != id {
      assert reg[x] != reg[id];
    }
  }

  lemma FlushLatest(s: Store, reg: Registry, id: Id, faults: set<Id>, x: Id)
    requires StoreInv(s, reg) && x in reg
    ensures Latest(FlushProject(s, id, faults).0, reg, x) == Latest(s, reg, x)
  {
    FlushIs(s, reg, id, faults);
  }
}
