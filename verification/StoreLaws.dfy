/** What write failures and crashes cost, and how many writes a run makes. */
module StoreLaws {
  import opened Prelude
  import opened Graph
  import opened CacheSpec
  import opened FlushSpec
  import opened StoreSteps
  import opened StoreOps
  import opened StoreRuns

  // ---- failed write-backs --------------------------------------------------

  /**
   * A call that is not an apply of `x` leaves its persistable state alone exactly when it does not
   * page `x` out dirty while the write fails, or the checkpoint already held that state.
   */
  lemma LossIsExact(s: Store, reg: Registry, e: Event, x: Id)
    requires StoreInv(s, reg) && Legal(s, reg, e) && x in reg
    requires e.action.Record? ==> e.action.p.id != x
    ensures Erase(Latest(Step(s, e).0, reg, x)) == Erase(Latest(s, reg, x)) <==>
            Loses(s, e) != Some(x) || Load(s.disk, reg[x]) == Erase(Latest(s, reg, x))
  {
    StepLatest(s, reg, e, x);
    assert DiskErased(s);
  }

  /** One deferred apply, then one to another project in a one-slot cache whose write-back fails. */
  function LossyRun(a: Project, b: Project, merged: GraphState): seq<Event> {
    [Event(Record(a, merged, Defer), {}), Event(Record(b, DEFAULT, Defer), {a.id})]
  }

  /** The first apply of that run leaves `a` the only, dirty, resident, nothing on disk. */
  lemma FirstDefer(a: Project, merged: GraphState, cfg: FlushConfig)
    ensures var t := RecordApply(Fresh(1, cfg, 0, map[]), a, merged, Defer, {}).0;
            t.disk == map[] && |t.cache.graphs| == t.cache.capacity && t.cache.order == [a.id]
            && t.cache.dirty == {a.id} && t.cache.graphs.Keys == {a.id}
  {
    var s := Fresh(1, cfg, 0, map[]);
    RecordIsAbsorb(s, a, merged, Defer, {});
    AbsorbIs(BeforeInsert(s, a, merged, Defer), a.id, merged, true, {});
    PlaceCount(New(1), a.id, merged, true);
  }

  lemma SecondLoses(s: Store, reg: Registry, a: Project, b: Project)
    requires StoreInv(s, reg) && Registered(reg, a) && Registered(reg, b) && a.id != b.id
    requires s.disk == map[] && |s.cache.graphs| == s.cache.capacity && s.cache.order == [a.id]
    requires s.cache.dirty == {a.id} && s.cache.graphs.Keys == {a.id}
    ensures Latest(RecordApply(s, b, DEFAULT, Defer, {a.id}).0, reg, a.id) == DEFAULT
  {
    assert Victim(s.cache, b.id) == Some(a.id);
    RecordLatest(s, reg, b, DEFAULT, Defer, {a.id}, a.id);
  }

  /** A failed write-back loses an acknowledged apply: the project reads as its old checkpoint. */
  lemma FailedWriteBackLoses(reg: Registry, a: Project, b: Project, merged: GraphState, cfg: FlushConfig)
    requires Injective(reg) && Registered(reg, a) && Registered(reg, b) && a.id != b.id
    requires Erase(merged) != DEFAULT
    ensures var s := Fresh(1, cfg, 0, map[]);
            var t := Run(s, LossyRun(a, b, merged));
            && Step(s, LossyRun(a, b, merged)[0]).1 == DoneReply(Ok(()))
            && Latest(t, reg, a.id) == DEFAULT
            && !Refines(t, reg, PlainRun(Checkpoints(reg, map[]), LossyRun(a, b, merged)))
  {
    RunTwo(Fresh(1, cfg, 0, map[]), LossyRun(a, b, merged));
    PlainLossy(reg, a, b, merged);
    TwoDefersLose(reg, a, b, merged, cfg);
  }

  lemma TwoDefersLose(reg: Registry, a: Project, b: Project, merged: GraphState, cfg: FlushConfig)
    requires Injective(reg) && Registered(reg, a) && Registered(reg, b) && a.id != b.id
    ensures var (s1, done) := RecordApply(Fresh(1, cfg, 0, map[]), a, merged, Defer, {});
            done == Ok(()) && Latest(RecordApply(s1, b, DEFAULT, Defer, {a.id}).0, reg, a.id) == DEFAULT
  {
    var s := Fresh(1, cfg, 0, map[]);
    FreshInv(reg, 1, cfg, 0, map[]);
    RecordKeeps(s, reg, a, merged, Defer, {});
    FirstDefer(a, merged, cfg);
    SecondLoses(RecordApply(s, a, merged, Defer, {}).0, reg, a, b);
  }

  lemma RunTwo(s: Store, es: seq<Event>)
    requires |es| == 2
    ensures Run(s, es) == Step(Step(s, es[0]).0, es[1]).0
  {
    assert es[..1] == [es[0]] && [es[0]][..0] == [];
    assert Run(s, es[..1]) == Step(s, es[0]).0;
  }

  lemma PlainLossy(reg: Registry, a: Project, b: Project, merged: GraphState)
    requires a.id != b.id
    ensures var m := PlainRun(Checkpoints(reg, map[]), LossyRun(a, b, merged));
            a.id in m && m[a.id] == merged
  {
    var es := LossyRun(a, b, merged);
    assert es[..1] == [es[0]] && [es[0]][..0] == [];
    assert PlainRun(Checkpoints(reg, map[]), es[..1]) == PlainStep(Checkpoints(reg, map[]), es[0]);
  }

  // ---- crashes -------------------------------------------------------------

  /** The store a new process finds after this one dies: only the checkpoints survive. */
  function Crash(s: Store, now: Time): Store {
    Fresh(s.cache.capacity, s.cfg, now, s.disk)
  }

  /** A crash costs a project its un-flushed window and nothing else. */
  lemma CrashKeepsTheClean(s: Store, reg: Registry, now: Time, x: Id)
    requires StoreInv(s, reg) && x in reg && x !in s.dirty
    ensures StoreInv(Crash(s, now), reg)
    ensures Latest(Crash(s, now), reg, x) == Erase(Latest(s, reg, x))
  {
    FreshInv(reg, s.cache.capacity, s.cfg, now, s.disk);
    assert Settled(s, reg, x);
    assert DiskErased(s);
    if x !in s.cache.graphs && reg[x] in s.disk {
      assert Erase(s.disk[reg[x]]) == s.disk[reg[x]];
    }
  }

  /** Some prefix of the run left `x` with a state that `g` agrees with. */
  ghost predicate IsPast(m: Plain, es: seq<Event>, x: Id, g: GraphState) {
    exists k: nat :: k <= |es| && PastAt(m, es, x, g, k)
  }

  ghost predicate PastAt(m: Plain, es: seq<Event>, x: Id, g: GraphState, k: nat)
    requires k <= |es|
  {
    x in PlainRun(m, es[..k]) && Agrees(g, PlainRun(m, es[..k])[x])
  }

  /** `FlushEach` writes only what was the latest state. */
  lemma {:induction false} FlushEachDisk(s: Store, reg: Registry, ids: seq<Id>, faults: set<Id>, x: Id)
    requires StoreInv(s, reg) && x in reg
    ensures var t := FlushEach(s, ids, faults).0;
            || Load(t.disk, reg[x]) == Load(s.disk, reg[x])
            || Load(t.disk, reg[x]) == Erase(Latest(s, reg, x))
    decreases |ids|
  {
    if ids != [] {
      FlushIs(s, reg, ids[0], faults);
      FlushKeeps(s, reg, ids[0], faults);
      FlushLatest(s, reg, ids[0], faults, x);
      FlushEachDisk(FlushProject(s, ids[0], faults).0, reg, ids[1..], faults, x);
    }
  }

  lemma AbsorbDisk(s: Store, reg: Registry, id: Id, state: GraphState, dirty: bool, faults: set<Id>, x: Id)
    requires Frame(s, reg) && id in s.outDirs && x in reg
    ensures var t := Absorb(s, id, state, dirty, faults).0;
            || Load(t.disk, reg[x]) == Load(s.disk, reg[x])
            || (x != id && Load(t.disk, reg[x]) == Erase(Latest(s, reg, x)))
  {
    AbsorbIs(s, id, state, dirty, faults);
    InsertEvicts(s.cache, id, state, dirty);
    if Victim(s.cache, id).Some? {
      PageOutDisk(s, reg, Place(s.cache, id, state, dirty), Victim(s.cache, id).value, faults, x);
    }
  }

  lemma PageOutDisk(s: Store, reg: Registry, p: Cache, v: Id, faults: set<Id>, x: Id)
    requires Injective(reg) && DirsKnown(s, reg) && x in reg
    requires v in p.graphs && v in s.outDirs && p.order != []
    ensures var t := PageOut(s, p, v, faults);
            || Load(t.disk, reg[x]) == Load(s.disk, reg[x])
            || (x == v && Load(t.disk, reg[x]) == Erase(p.graphs[v].state.value))
  {
  }

  lemma ReadDisk(s: Store, reg: Registry, p: Project, faults: set<Id>, x: Id)
    requires StoreInv(s, reg) && Registered(reg, p) && x in reg
    ensures var t := StateOf(s, p, faults).0;
            || Load(t.disk, reg[x]) == Load(s.disk, reg[x])
            || Load(t.disk, reg[x]) == Erase(Latest(s, reg, x))
  {
    if p.id !in s.cache.graphs && p.id !in faults {
      RememberKeeps(s, reg, p);
      MissIsAbsorb(s, reg, p, faults);
      AbsorbDisk(Remember(s, p), reg, p.id, Load(s.disk, p.outputDir), false, faults, x);
    }
  }

  lemma RecordDisk(s: Store, reg: Registry, p: Project, merged: GraphState, lane: Persistence,
                   faults: set<Id>, x: Id)
    requires StoreInv(s, reg) && Registered(reg, p) && x in reg
    ensures var t := RecordApply(s, p, merged, lane, faults).0;
            || Load(t.disk, reg[x]) == Load(s.disk, reg[x])
            || (x != p.id && Load(t.disk, reg[x]) == Erase(Latest(s, reg, x)))
            || (x == p.id && TakesUp(p, lane, faults) && Load(t.disk, reg[x]) == Erase(merged))
  {
    RecordIsAbsorb(s, p, merged, lane, faults);
    if TakesUp(p, lane, faults) {
      BeforeInsertReady(s, reg, p, merged, lane);
      AbsorbDisk(BeforeInsert(s, p, merged, lane), reg, p.id, merged, lane == Defer, faults, x);
      if x != p.id {
        BeforeInsertOthers(s, reg, p, merged, lane, x);
      }
    }
  }

  /** A call leaves on disk what was there, what was latest, or what it just took up. */
  lemma StepDisk(s: Store, reg: Registry, e: Event, x: Id)
    requires StoreInv(s, reg) && Legal(s, reg, e) && x in reg
    ensures var t := Step(s, e).0;
            || Load(t.disk, reg[x]) == Load(s.disk, reg[x])
            || Load(t.disk, reg[x]) == Erase(Latest(s, reg, x))
            || (e.action.Record? && TakesUp(e.action.p, e.action.lane, e.faults) && e.action.p.id == x
                && Load(t.disk, reg[x]) == Erase(e.action.merged))
  {
    match e.action
    case Read(p) => ReadDisk(s, reg, p, e.faults, x);
    case Record(p, merged, lane) => RecordDisk(s, reg, p, merged, lane, e.faults, x);
    case FlushOne(id) => FlushIs(s, reg, id, e.faults);
    case FlushMany(ids) => FlushEachDisk(s, reg, ids, e.faults, x);
    case _ =>
  }

  lemma PastGrows(m: Plain, es: seq<Event>, x: Id, g: GraphState)
    requires es != [] && IsPast(m, es[..|es| - 1], x, g)
    ensures IsPast(m, es, x, g) && IsPast(m, es, x, Erase(g))
  {
    var front := es[..|es| - 1];
    var k: nat :| k <= |front| && PastAt(m, front, x, g, k);
    assert front[..k] == es[..k];
    assert PastAt(m, es, x, g, k) && PastAt(m, es, x, Erase(g), k);
  }

  lemma PastNow(m: Plain, es: seq<Event>, x: Id, g: GraphState)
    requires x in PlainRun(m, es) && Agrees(g, PlainRun(m, es)[x])
    ensures IsPast(m, es, x, g)
  {
    assert es[..|es|] == es;
    assert PastAt(m, es, x, g, |es|);
  }

  /**
   * Integrity under every failure: whichever writes fail, eviction's included, both the checkpoint
   * and the served state are always one whole state the project had at some point of the run.
   */
  lemma {:induction false} NeverTorn(s: Store, reg: Registry, es: seq<Event>, x: Id)
    requires StoreInv(s, reg) && s.cache.graphs == map[] && AllLegal(s, reg, es) && x in reg
    ensures var t, m := Run(s, es), Checkpoints(reg, s.disk);
            IsPast(m, es, x, Latest(t, reg, x)) && IsPast(m, es, x, Load(t.disk, reg[x]))
  {
    var m := Checkpoints(reg, s.disk);
    if es == [] {
      PastNow(m, es, x, Load(s.disk, reg[x]));
    } else {
      var n := |es| - 1;
      var e, prev := es[n], Run(s, es[..n]);
      NeverTorn(s, reg, es[..n], x);
      RunKeepsInv(s, reg, es[..n]);
      PastGrows(m, es, x, Latest(prev, reg, x));
      PastGrows(m, es, x, Load(prev.disk, reg[x]));
      if e.action.Record? && TakesUp(e.action.p, e.action.lane, e.faults) && e.action.p.id == x {
        PastNow(m, es, x, e.action.merged);
        PastNow(m, es, x, Erase(e.action.merged));
      }
      assert IsPast(m, es, x, Latest(Run(s, es), reg, x)) by {
        StepLatest(prev, reg, e, x);
      }
      assert IsPast(m, es, x, Load(Run(s, es).disk, reg[x])) by {
        StepDisk(prev, reg, e, x);
      }
    }
  }

  // ---- write amplification -------------------------------------------------

  /** How many applies of a run were taken up. */
  function AppliesTaken(es: seq<Event>): nat {
    if es == [] then 0
    else
      var e := es[|es| - 1];
      AppliesTaken(es[..|es| - 1]) +
      if e.action.Record? && TakesUp(e.action.p, e.action.lane, e.faults) then 1 else 0
  }

  /** Writes made plus writes still owed. */
  function Owed(s: Store): nat {
    s.writes + |s.dirty|
  }

  lemma DropFromMap<V>(m: map<Id, V>, x: Id)
    ensures |m - {x}| == |m| - if x in m then 1 else 0
  {
    assert (m - {x}).Keys == m.Keys - {x};
    assert |(m - {x}).Keys| == |m - {x}| && |m.Keys| == |m|;
    if x !in m {
      assert m - {x} == m;
    }
  }

  lemma AbsorbOwed(s: Store, reg: Registry, id: Id, state: GraphState, dirty: bool, faults: set<Id>)
    requires Frame(s, reg) && (forall x :: x != id ==> Settled(s, reg, x))
    ensures Owed(Absorb(s, id, state, dirty, faults).0) <= Owed(s)
  {
    AbsorbIs(s, id, state, dirty, faults);
    InsertEvicts(s.cache, id, state, dirty);
    if Victim(s.cache, id).Some? {
      var v := Victim(s.cache, id).value;
      DropFromMap(s.dirty, v);
      assert Settled(s, reg, v);
    }
  }

  lemma {:induction false} FlushEachOwed(s: Store, reg: Registry, ids: seq<Id>, faults: set<Id>)
    requires StoreInv(s, reg)
    ensures Owed(FlushEach(s, ids, faults).0) == Owed(s)
    decreases |ids|
  {
    if ids != [] {
      FlushOwed(s, reg, ids[0], faults);
      FlushKeeps(s, reg, ids[0], faults);
      FlushEachOwed(FlushProject(s, ids[0], faults).0, reg, ids[1..], faults);
    }
  }

  lemma FlushOwed(s: Store, reg: Registry, id: Id, faults: set<Id>)
    requires StoreInv(s, reg)
    ensures Owed(FlushProject(s, id, faults).0) == Owed(s)
  {
    FlushIs(s, reg, id, faults);
    DropFromMap(s.dirty, id);
  }

  lemma BeforeInsertOwed(s: Store, p: Project, merged: GraphState, lane: Persistence)
    ensures Owed(BeforeInsert(s, p, merged, lane)) <= Owed(s) + 1
  {
    var b := BeforeInsert(s, p, merged, lane);
    DropFromMap(s.dirty, p.id);
    DropFromMap(b.dirty, p.id);
    assert b.dirty - {p.id} == s.dirty - {p.id};
  }

  lemma RecordOwed(s: Store, reg: Registry, p: Project, merged: GraphState, lane: Persistence, faults: set<Id>)
    requires StoreInv(s, reg) && Registered(reg, p)
    ensures Owed(RecordApply(s, p, merged, lane, faults).0) <= Owed(s) + if TakesUp(p, lane, faults) then 1 else 0
  {
    RecordIsAbsorb(s, p, merged, lane, faults);
    if TakesUp(p, lane, faults) {
      BeforeInsertOwed(s, p, merged, lane);
      BeforeInsertReady(s, reg, p, merged, lane);
      AbsorbOwed(BeforeInsert(s, p, merged, lane), reg, p.id, merged, lane == Defer, faults);
    }
  }

  lemma StepOwed(s: Store, reg: Registry, e: Event)
    requires StoreInv(s, reg) && Legal(s, reg, e)
    ensures Owed(Step(s, e).0) <= Owed(s) + AppliesTaken([e])
  {
    assert [e][..0] == [];
    match e.action
    case Read(p) =>
      if p.id !in s.cache.graphs && p.id !in e.faults {
        RememberKeeps(s, reg, p);
        MissIsAbsorb(s, reg, p, e.faults);
        AbsorbOwed(Remember(s, p), reg, p.id, Load(s.disk, p.outputDir), false, e.faults);
      }
    case Record(p, merged, lane) => RecordOwed(s, reg, p, merged, lane, e.faults);
    case FlushOne(id) => FlushOwed(s, reg, id, e.faults);
    case FlushMany(ids) => FlushEachOwed(s, reg, ids, e.faults);
    case _ =>
  }

  /** In every run, writes made plus projects still dirty never exceed the applies taken up. */
  lemma {:induction false} WritesBounded(s: Store, reg: Registry, es: seq<Event>)
    requires StoreInv(s, reg) && AllLegal(s, reg, es)
    ensures Owed(Run(s, es)) <= Owed(s) + AppliesTaken(es)
  {
    if es != [] {
      var n := |es| - 1;
      WritesBounded(s, reg, es[..n]);
      RunKeepsInv(s, reg, es[..n]);
      StepOwed(Run(s, es[..n]), reg, es[n]);
      assert [es[n]][..0] == [];
    }
  }

  // ---- bursts --------------------------------------------------------------

  /** `n` deferred applies of one project, at whatever times. */
  ghost predicate Burst(p: Project, es: seq<Event>) {
    forall i :: 0 <= i < |es| ==>
                  || es[i].action.Advance?
                  || (es[i].action.Record? && es[i].action.p == p && es[i].action.lane == Defer)
  }

  /** Deferring to a resident project writes nothing and never moves the start of its dirty window. */
  lemma DeferResident(s: Store, reg: Registry, p: Project, merged: GraphState, faults: set<Id>)
    requires StoreInv(s, reg) && Registered(reg, p) && p.id in s.cache.graphs
    ensures var t := RecordApply(s, p, merged, Defer, faults).0;
            && t.writes == s.writes && t.disk == s.disk && t.now == s.now
            && p.id in t.cache.graphs && t.cache.graphs[p.id].state.value == merged
            && t.dirty == Extend(s.dirty, p.id, s.now)
  {
    RecordIsAbsorb(s, p, merged, Defer, faults);
    AbsorbIs(BeforeInsert(s, p, merged, Defer), p.id, merged, true, faults);
  }

  lemma {:induction false} BurstLegal(s: Store, reg: Registry, p: Project, es: seq<Event>)
    requires Registered(reg, p) && Burst(p, es)
    ensures AllLegal(s, reg, es)
  {
    if es != [] {
      BurstLegal(s, reg, p, es[..|es| - 1]);
    }
  }

  /** What a burst leaves alone, with `t` the store after it. */
  ghost predicate Untouched(s: Store, t: Store, p: Project)
    requires p.id in s.dirty
  {
    && t.writes == s.writes && t.disk == s.disk && p.id in t.cache.graphs && t.dirty.Keys == s.dirty.Keys
    && t.dirty[p.id].firstDirty == s.dirty[p.id].firstDirty
  }

  lemma BurstStep(s: Store, t: Store, reg: Registry, p: Project, e: Event)
    requires StoreInv(t, reg) && Registered(reg, p) && p.id in s.dirty && Untouched(s, t, p) && Burst(p, [e])
    ensures Untouched(s, Step(t, e).0, p)
  {
    assert [e][0] == e;
    if e.action.Record? {
      DeferResident(t, reg, p, e.action.merged, e.faults);
    }
  }

  lemma {:induction false} BurstWritesNothing(s: Store, reg: Registry, p: Project, es: seq<Event>)
    requires StoreInv(s, reg) && Registered(reg, p) && p.id in s.cache.graphs && p.id in s.dirty && Burst(p, es)
    ensures Untouched(s, Run(s, es), p)
  {
    if es != [] {
      var n := |es| - 1;
      var front, last := es[..n], es[n];
      assert Burst(p, front) && Burst(p, [last]);
      BurstLegal(s, reg, p, front);
      BurstWritesNothing(s, reg, p, front);
      RunKeepsInv(s, reg, front);
      BurstStep(s, Run(s, front), reg, p, last);
    } else {
      assert Settled(s, reg, p.id);
    }
  }

  /** A burst of deferred applies, however long, costs one write, of the last state. */
  lemma BurstCostsOneWrite(s: Store, reg: Registry, p: Project, es: seq<Event>)
    requires StoreInv(s, reg) && Registered(reg, p) && p.id in s.cache.graphs && p.id in s.dirty && Burst(p, es)
    ensures var t := Run(s, es);
            var (u, r) := FlushProject(t, p.id, {});
            && r == Ok(true) && u.writes == s.writes + 1
            && Load(u.disk, reg[p.id]) == Erase(Latest(t, reg, p.id))
            && FlushProject(u, p.id, {}) == (u, Ok(false))
  {
    BurstLegal(s, reg, p, es);
    BurstWritesNothing(s, reg, p, es);
    RunKeepsInv(s, reg, es);
    FlushIs(Run(s, es), reg, p.id, {});
  }
}
