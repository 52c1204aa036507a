/** Startup convergence: what reconciling the watched projects at one depth does to every project. */
module Startup {
  import opened Prelude
  import opened Graph
  import opened CacheSpec
  import opened FlushSpec
  import opened StoreSteps
  import opened StoreOps
  import opened StoreRuns
  import opened Staleness
  import opened Applies

  /** The reconcile a walk at the chosen depth asks for; its detection is not part of this model. */
  type Walk = (Id, bool) -> Mutate

  /** Startup convergence of the watched projects: each writes through, and a failure skips its project. */
  function ReconcileAll(s: Store, ps: seq<Project>, deep: bool, walk: Walk, io: Id -> Faults): Store
    decreases |ps|
  {
    if ps == [] then s
    else ReconcileAll(WithApply(s, ps[0], Flush, walk(ps[0].id, deep), io(ps[0].id)).0, ps[1..], deep, walk, io)
  }

  /** The registry's projects that are watched: each known, none twice. */
  ghost predicate WatchedOf(reg: Registry, ps: seq<Project>) {
    && (forall p :: p in ps ==> Registered(reg, p))
    && forall i, j :: 0 <= i < j < |ps| ==> ps[i].id != ps[j].id
  }

  predicate Watched(ps: seq<Project>, id: Id) {
    exists p :: p in ps && p.id == id
  }

  lemma {:induction false} ReconcileAllKeeps(s: Store, reg: Registry, ps: seq<Project>, deep: bool, walk: Walk,
                                             io: Id -> Faults)
    requires StoreInv(s, reg) && forall p :: p in ps ==> Registered(reg, p)
    ensures StoreInv(ReconcileAll(s, ps, deep, walk, io), reg)
    decreases |ps|
  {
    if ps != [] {
      WithApplyKeeps(s, reg, ps[0], Flush, walk(ps[0].id, deep), io(ps[0].id));
      ReconcileAllKeeps(WithApply(s, ps[0], Flush, walk(ps[0].id, deep), io(ps[0].id)).0, reg, ps[1..], deep, walk, io);
    }
  }

  // ---- over any store ------------------------------------------------------

  /** No reconcile of the pass pages out a dirty project it cannot write. */
  ghost predicate NoLossAll(s: Store, ps: seq<Project>, deep: bool, walk: Walk, io: Id -> Faults)
    decreases |ps|
  {
    ps != [] ==>
      var p := ps[0];
      && NoLoss(s, p, Flush, io(p.id))
      && NoLossAll(WithApply(s, p, Flush, walk(p.id, deep), io(p.id)).0, ps[1..], deep, walk, io)
  }

  /** What the reconcile of `id` answered, at its turn, if it had one. */
  function ReplyOf(s: Store, ps: seq<Project>, deep: bool, walk: Walk, io: Id -> Faults, id: Id)
    : Option<Result<nat, ApplyError>>
    decreases |ps|
  {
    if ps == [] then None
    else
      var (t, r) := WithApply(s, ps[0], Flush, walk(ps[0].id, deep), io(ps[0].id));
      if ps[0].id == id then Some(r) else ReplyOf(t, ps[1..], deep, walk, io, id)
  }

  lemma {:induction false} NotWatchedNoReply(s: Store, ps: seq<Project>, deep: bool, walk: Walk, io: Id -> Faults, id: Id)
    ensures ReplyOf(s, ps, deep, walk, io, id).Some? <==> Watched(ps, id)
    decreases |ps|
  {
    if ps != [] {
      NotWatchedNoReply(WithApply(s, ps[0], Flush, walk(ps[0].id, deep), io(ps[0].id)).0, ps[1..], deep, walk, io, id);
      assert ps[0] in ps;
      assert forall p :: p in ps <==> p == ps[0] || p in ps[1..];
    }
  }

  /** A client-lane apply leaves no project unsaved that was not. */
  lemma ApplyOpensNothing(s: Store, reg: Registry, p: Project, mutate: Mutate, io: Faults, x: Id)
    requires StoreInv(s, reg) && Registered(reg, p) && x !in s.dirty
    ensures x !in WithApply(s, p, Flush, mutate, io).0.dirty
  {
    var (s1, read) := StateOf(s, p, io.read);
    StateOfKeeps(s, reg, p, io.read);
    ReadOpensNothing(s, reg, p, io.read, x);
    if read.Ok? {
      MutatedOpensNothing(s1, reg, p, mutate(read.value.value), io, x);
    }
  }

  lemma ReadOpensNothing(s: Store, reg: Registry, p: Project, faults: set<Id>, x: Id)
    requires StoreInv(s, reg) && Registered(reg, p) && x !in s.dirty
    ensures x !in StateOf(s, p, faults).0.dirty
  {
    if p.id !in s.cache.graphs && p.id !in faults {
      MissIsAbsorb(s, reg, p, faults);
      RememberKeeps(s, reg, p);
      AbsorbWindows(Remember(s, p), p.id, Load(s.disk, p.outputDir), false, faults);
    }
  }

  lemma MutatedOpensNothing(s: Store, reg: Registry, p: Project, m: Option<Mutation>, io: Faults, x: Id)
    requires StoreInv(s, reg) && Registered(reg, p) && x !in s.dirty
    ensures x !in Mutated(s, p, Flush, m, io).0.dirty
  {
    if m.Some? && m.value.merged.Some? {
      var merged := m.value.merged.value;
      RecordIsAbsorb(s, p, merged, Flush, io.record);
      if TakesUp(p, Flush, io.record) {
        BeforeInsertReady(s, reg, p, merged, Flush);
        AbsorbWindows(BeforeInsert(s, p, merged, Flush), p.id, merged, false, io.record);
      }
    }
  }

  /**
   * Each watched project whose reconcile succeeds has the update of its walk, at this depth, on what it
   * had before; every other project, and each whose reconcile failed, has what it had.
   */
  lemma {:induction false} PassConverges(s: Store, reg: Registry, ps: seq<Project>, deep: bool, walk: Walk,
                                         io: Id -> Faults, x: Id)
    returns (prior: GraphState)
    requires StoreInv(s, reg) && WatchedOf(reg, ps) && NoLossAll(s, ps, deep, walk, io) && x in reg
    ensures Agrees(prior, Latest(s, reg, x))
    ensures var t, r := ReconcileAll(s, ps, deep, walk, io), ReplyOf(s, ps, deep, walk, io, x);
            && (x !in s.dirty ==> x !in t.dirty && Load(t.disk, reg[x]) == Erase(Latest(t, reg, x)))
            && if r.Some? && r.value.Ok?
               then walk(x, deep)(prior).Some? && Agrees(Latest(t, reg, x), Updated(walk(x, deep), prior))
               else Agrees(Latest(t, reg, x), Latest(s, reg, x))
    decreases |ps|
  {
    ReconcileAllKeeps(s, reg, ps, deep, walk, io);
    if ps == [] {
      prior := Latest(s, reg, x);
      if x !in s.dirty {
        CleanIsPersisted(s, reg, x);
      }
    } else {
      var p := ps[0];
      var mutate := walk(p.id, deep);
      var (t, r) := WithApply(s, p, Flush, mutate, io(p.id));
      WithApplyKeeps(s, reg, p, Flush, mutate, io(p.id));
      if x !in s.dirty {
        ApplyOpensNothing(s, reg, p, mutate, io(p.id), x);
      }
      prior := PassConverges(t, reg, ps[1..], deep, walk, io, x);
      if x == p.id {
        NotWatchedNoReply(t, ps[1..], deep, walk, io, x);
        prior := ApplyIsAtomicUpdate(s, reg, p, Flush, mutate, io(p.id));
      } else {
        ApplyKeepsOthers(s, reg, p, Flush, mutate, io(p.id), x);
      }
    }
  }

  // ---- over a store just started -------------------------------------------

  /** Nothing is unsaved, and none of the projects to be walked is resident. */
  ghost predicate JustStarted(s: Store, ps: seq<Project>) {
    s.dirty == map[] && forall p :: p in ps ==> p.id !in s.cache.graphs
  }

  /** The reconcile of `id` from the checkpoint `c` meets no fault on its way. */
  predicate Succeeds(mutate: Mutate, io: Faults, id: Id, c: GraphState) {
    id !in io.read && mutate(c).Some? && (mutate(c).value.merged.Some? ==> id !in io.record)
  }

  /** With nothing unsaved no victim is dirty, so no write-back can be lost. */
  lemma NoVictim(s: Store, reg: Registry, id: Id, faults: set<Id>)
    requires StoreInv(s, reg) && s.dirty == map[]
    ensures !LosesVictim(s, id, faults)
  {
    var v := Victim(s.cache, id);
    if v.Some? {
      assert Settled(s, reg, v.value);
    }
  }

  lemma AllClean(s: Store, reg: Registry, p: Project, mutate: Mutate, io: Faults)
    requires StoreInv(s, reg) && Registered(reg, p) && s.dirty == map[]
    ensures StateOf(s, p, io.read).0.dirty == map[] && WithApply(s, p, Flush, mutate, io).0.dirty == map[]
    ensures NoLoss(s, p, Flush, io)
  {
    forall x ensures x !in StateOf(s, p, io.read).0.dirty && x !in WithApply(s, p, Flush, mutate, io).0.dirty {
      ReadOpensNothing(s, reg, p, io.read, x);
      ApplyOpensNothing(s, reg, p, mutate, io, x);
    }
    StateOfKeeps(s, reg, p, io.read);
    NoVictim(s, reg, p.id, io.read);
    NoVictim(StateOf(s, p, io.read).0, reg, p.id, io.record);
  }

  lemma FirstApply(s: Store, reg: Registry, p: Project, mutate: Mutate, io: Faults)
    requires StoreInv(s, reg) && Registered(reg, p) && s.dirty == map[] && p.id !in s.cache.graphs
    ensures WithApply(s, p, Flush, mutate, io).1.Ok? <==> Succeeds(mutate, io, p.id, Load(s.disk, p.outputDir))
  {
    AllClean(s, reg, p, mutate, io);
    StateOfKeeps(s, reg, p, io.read);
    var (s1, read) := StateOf(s, p, io.read);
    if read.Ok? && mutate(read.value.value).Some? && mutate(read.value.value).value.merged.Some? {
      RecordKeeps(s1, reg, p, mutate(read.value.value).value.merged.value, Flush, io.record);
    }
  }

  /** An apply makes no other project resident. */
  lemma ApplyBringsOnlyItsOwn(s: Store, reg: Registry, p: Project, mutate: Mutate, io: Faults, x: Id)
    requires StoreInv(s, reg) && Registered(reg, p) && x != p.id && x !in s.cache.graphs
    ensures x !in WithApply(s, p, Flush, mutate, io).0.cache.graphs
  {
    var (s1, read) := StateOf(s, p, io.read);
    StateOfKeeps(s, reg, p, io.read);
    ReadBringsOnlyItsOwn(s, reg, p, io.read, x);
    if read.Ok? {
      MutatedBringsOnlyItsOwn(s1, reg, p, mutate(read.value.value), io, x);
    }
  }

  lemma ReadBringsOnlyItsOwn(s: Store, reg: Registry, p: Project, faults: set<Id>, x: Id)
    requires StoreInv(s, reg) && Registered(reg, p) && x != p.id && x !in s.cache.graphs
    ensures x !in StateOf(s, p, faults).0.cache.graphs
  {
    if p.id !in s.cache.graphs && p.id !in faults {
      MissIsAbsorb(s, reg, p, faults);
      RememberKeeps(s, reg, p);
      AbsorbBringsOnlyItsOwn(Remember(s, p), p.id, Load(s.disk, p.outputDir), false, faults, x);
    }
  }

  lemma MutatedBringsOnlyItsOwn(s: Store, reg: Registry, p: Project, m: Option<Mutation>, io: Faults, x: Id)
    requires StoreInv(s, reg) && Registered(reg, p) && x != p.id && x !in s.cache.graphs
    ensures x !in Mutated(s, p, Flush, m, io).0.cache.graphs
  {
    if m.Some? && m.value.merged.Some? {
      var merged := m.value.merged.value;
      RecordIsAbsorb(s, p, merged, Flush, io.record);
      BeforeInsertReady(s, reg, p, merged, Flush);
      AbsorbBringsOnlyItsOwn(BeforeInsert(s, p, merged, Flush), p.id, merged, false, io.record, x);
    }
  }

  lemma AbsorbBringsOnlyItsOwn(s: Store, id: Id, state: GraphState, dirty: bool, faults: set<Id>, x: Id)
    requires CacheInv(s.cache) && (forall y :: y in s.cache.graphs ==> y in s.outDirs)
    requires x != id && x !in s.cache.graphs
    ensures x !in Absorb(s, id, state, dirty, faults).0.cache.graphs
  {
    AbsorbIs(s, id, state, dirty, faults);
    InsertEvicts(s.cache, id, state, dirty);
  }

  /** Every project of the pass is read from the checkpoint it had when the pass began. */
  lemma {:induction false} PassReplies(s: Store, reg: Registry, ps: seq<Project>, deep: bool, walk: Walk,
                                       io: Id -> Faults, x: Id)
    requires StoreInv(s, reg) && WatchedOf(reg, ps) && JustStarted(s, ps) && x in reg
    ensures NoLossAll(s, ps, deep, walk, io)
    ensures Watched(ps, x) ==>
              && ReplyOf(s, ps, deep, walk, io, x).Some?
              && (ReplyOf(s, ps, deep, walk, io, x).value.Ok? <==>
                    Succeeds(walk(x, deep), io(x), x, Load(s.disk, reg[x])))
    decreases |ps|
  {
    if ps != [] {
      var p := ps[0];
      var mutate := walk(p.id, deep);
      var t := WithApply(s, p, Flush, mutate, io(p.id)).0;
      WithApplyKeeps(s, reg, p, Flush, mutate, io(p.id));
      AllClean(s, reg, p, mutate, io(p.id));
      FirstApply(s, reg, p, mutate, io(p.id));
      forall q | q in ps[1..] ensures q.id !in t.cache.graphs {
        ApplyBringsOnlyItsOwn(s, reg, p, mutate, io(p.id), q.id);
      }
      PassReplies(t, reg, ps[1..], deep, walk, io, x);
      NotWatchedNoReply(s, ps, deep, walk, io, x);
      NotWatchedNoReply(t, ps[1..], deep, walk, io, x);
      if x != p.id && Watched(ps, x) {
        OtherCheckpoint(s, reg, p, mutate, io(p.id), x);
      }
    }
  }

  lemma OtherCheckpoint(s: Store, reg: Registry, p: Project, mutate: Mutate, io: Faults, x: Id)
    requires StoreInv(s, reg) && Registered(reg, p) && s.dirty == map[] && x in reg && x != p.id
    requires x !in s.cache.graphs
    ensures Load(WithApply(s, p, Flush, mutate, io).0.disk, reg[x]) == Load(s.disk, reg[x])
  {
    AllClean(s, reg, p, mutate, io);
    ApplyBringsOnlyItsOwn(s, reg, p, mutate, io, x);
    ApplyKeepsOthers(s, reg, p, Flush, mutate, io, x);
    CleanIsPersisted(s, reg, x);
  }

  /** What startup leaves of `id`: its walk's update of the checkpoint it had, or that checkpoint. */
  ghost predicate Converged(s: Store, t: Store, reg: Registry, ps: seq<Project>, deep: bool, walk: Walk,
                            io: Id -> Faults, id: Id)
    requires id in reg
  {
    var c := Load(s.disk, reg[id]);
    var due := if Watched(ps, id) && Succeeds(walk(id, deep), io(id), id, c) then Updated(walk(id, deep), c) else c;
    Agrees(Latest(t, reg, id), due) && Load(t.disk, reg[id]) == Erase(due)
  }

  /**
   * A daemon's start: each watched project whose load, walk and write succeed has as latest state and
   * as checkpoint the update of its walk, at the chosen depth, on the checkpoint it had; every other
   * project, and each whose reconcile failed, has the checkpoint it had.
   */
  lemma StartConverges(s: Store, reg: Registry, ps: seq<Project>, deep: bool, walk: Walk, io: Id -> Faults, id: Id)
    requires StoreInv(s, reg) && WatchedOf(reg, ps) && s.dirty == map[] && s.cache.graphs == map[] && id in reg
    ensures Converged(s, ReconcileAll(s, ps, deep, walk, io), reg, ps, deep, walk, io, id)
  {
    PassReplies(s, reg, ps, deep, walk, io, id);
    NotWatchedNoReply(s, ps, deep, walk, io, id);
    CleanIsPersisted(s, reg, id);
    var prior := PassConverges(s, reg, ps, deep, walk, io, id);
  }
}
