/** The apply path: one project's lock, its prior state, an update, and the flusher's record of it. */
module Applies {
  import opened Prelude
  import opened Graph
  import opened CacheSpec
  import opened FlushSpec
  import opened StoreSteps
  import opened StoreOps
  import opened StoreRuns
  import opened Staleness
  import F = Flush

  /** What the pipeline makes of a prior state: a report count, and a fresh state when a delta was applied. */
  datatype Mutation = Mutation(changed: nat, merged: Option<GraphState>)

  /** A pipeline run may fail; it then leaves nothing behind. */
  type Mutate = GraphState -> Option<Mutation>

  /** The clustering of a state, unless it fails. */
  type Cluster = GraphState -> Option<Facet>

  datatype ApplyError = StoreFailed(error: Error) | PipelineFailed

  /** The store calls of one apply that fail, by project. */
  datatype Faults = Faults(read: set<Id>, record: set<Id>, flush: set<Id>)

  // ---- on values -----------------------------------------------------------

  function WithApply(s: Store, p: Project, lane: Persistence, mutate: Mutate, io: Faults)
    : (Store, Result<nat, ApplyError>)
  {
    var (s1, prior) := StateOf(s, p, io.read);
    AfterRead(s1, prior, p, lane, mutate, io)
  }

  /** The apply from the read's answer on. */
  function AfterRead(s: Store, prior: Result<Arc, Error>, p: Project, lane: Persistence, mutate: Mutate, io: Faults)
    : (Store, Result<nat, ApplyError>)
  {
    if prior.Err? then (s, Err(StoreFailed(prior.error)))
    else Mutated(s, p, lane, mutate(prior.value.value), io)
  }

  /** The apply from the pipeline's answer on. */
  function Mutated(s: Store, p: Project, lane: Persistence, m: Option<Mutation>, io: Faults)
    : (Store, Result<nat, ApplyError>)
  {
    if m.None? then (s, Err(PipelineFailed))
    else if m.value.merged.None? then (s, Ok(m.value.changed))
    else
      var (t, done) := RecordApply(s, p, m.value.merged.value, lane, io.record);
      (t, if done.Err? then Err(StoreFailed(done.error)) else Ok(m.value.changed))
  }

  /** A recluster as an update: a state whose partition alone is new, or nothing. */
  function Reclustering(cluster: Cluster): Mutate {
    g => match cluster(g)
         case None => None
         case Some(partition) =>
           Some(Mutation(0, if partition == g.partition then None else Some(g.(partition := partition))))
  }

  /** A client's command: apply on the client lane, then flush whatever the project still owes. */
  function RunCommand(s: Store, p: Project, mutate: Mutate, io: Faults): (Store, Result<nat, ApplyError>) {
    var (s1, r) := WithApply(s, p, Flush, mutate, io);
    ThenFlush(s1, r, p.id, io.flush)
  }

  /** The command from the apply's answer on. */
  function ThenFlush(s: Store, r: Result<nat, ApplyError>, id: Id, faults: set<Id>): (Store, Result<nat, ApplyError>) {
    if r.Err? then (s, r)
    else
      var (t, wrote) := FlushProject(s, id, faults);
      (t, if wrote.Err? then Err(StoreFailed(wrote.error)) else r)
  }

  /** An export: flush, then copy the checkpoint out. */
  function RunExport(s: Store, p: Project, io: Faults): (Store, Result<GraphState, ApplyError>) {
    var (s1, wrote) := FlushProject(s, p.id, io.flush);
    (s1, if wrote.Err? then Err(StoreFailed(wrote.error))
         else if p.id in io.read then Err(StoreFailed(Io))
         else Ok(Load(s1.disk, p.outputDir)))
  }

  // ---- in place ------------------------------------------------------------

  /** Every path out drops the guard; while it is held no other lock is taken. */
  method WithProjectApply(flusher: F.Flusher, p: Project, lane: Persistence, mutate: Mutate, io: Faults)
    returns (r: Result<nat, ApplyError>)
    requires flusher.locks.Valid() && flusher.locks.Free(p.id)
    modifies flusher, flusher.cache, flusher.locks
    ensures (flusher.Model(), r) == WithApply(old(flusher.Model()), p, lane, mutate, io)
    ensures flusher.locks.Valid() && flusher.locks.held == old(flusher.locks.held) && flusher.locks.Free(p.id)
  {
    var guard := flusher.locks.LockFor(p.id);
    flusher.locks.Acquire(guard);
    r := ApplyLocked(flusher, p, lane, mutate, io);
    flusher.locks.Release(guard);
  }

  method ApplyLocked(flusher: F.Flusher, p: Project, lane: Persistence, mutate: Mutate, io: Faults)
    returns (r: Result<nat, ApplyError>)
    modifies flusher, flusher.cache
    ensures (flusher.Model(), r) == WithApply(old(flusher.Model()), p, lane, mutate, io)
  {
    var prior := flusher.StateOf(p, io.read);
    if prior.Err? { return Err(StoreFailed(prior.error)); }
    var m := mutate(prior.value.value);
    if m.None? { return Err(PipelineFailed); }
    if m.value.merged.Some? {
      var done := flusher.RecordApply(p, m.value.merged.value, lane, io.record);
      if done.Err? { return Err(StoreFailed(done.error)); }
    }
    r := Ok(m.value.changed);
  }

  method Recluster(flusher: F.Flusher, p: Project, cluster: Cluster, io: Faults) returns (r: Result<nat, ApplyError>)
    requires flusher.locks.Valid() && flusher.locks.Free(p.id)
    modifies flusher, flusher.cache, flusher.locks
    ensures (flusher.Model(), r) == WithApply(old(flusher.Model()), p, Defer, Reclustering(cluster), io)
    ensures flusher.locks.Valid() && flusher.locks.held == old(flusher.locks.held) && flusher.locks.Free(p.id)
  {
    var guard := flusher.locks.LockFor(p.id);
    flusher.locks.Acquire(guard);
    r := ReclusterLocked(flusher, p, cluster, io);
    flusher.locks.Release(guard);
  }

  method ReclusterLocked(flusher: F.Flusher, p: Project, cluster: Cluster, io: Faults)
    returns (r: Result<nat, ApplyError>)
    modifies flusher, flusher.cache
    ensures (flusher.Model(), r) == WithApply(old(flusher.Model()), p, Defer, Reclustering(cluster), io)
  {
    var prior := flusher.StateOf(p, io.read);
    if prior.Err? { return Err(StoreFailed(prior.error)); }
    var g := prior.value.value;
    var partition := cluster(g);
    if partition.None? { return Err(PipelineFailed); }
    if partition.value == g.partition { return Ok(0); }
    var done := flusher.RecordApply(p, g.(partition := partition.value), Defer, io.record);
    r := if done.Err? then Err(StoreFailed(done.error)) else Ok(0);
  }

  /** `Exec::Apply`: the apply's guard is gone before the flush takes the lock again. */
  method ExecApply(flusher: F.Flusher, p: Project, mutate: Mutate, io: Faults) returns (r: Result<nat, ApplyError>)
    requires flusher.locks.Valid() && flusher.locks.Free(p.id)
    modifies flusher, flusher.cache, flusher.locks
    ensures (flusher.Model(), r) == RunCommand(old(flusher.Model()), p, mutate, io)
    ensures flusher.locks.Valid() && flusher.locks.held == old(flusher.locks.held)
  {
    r := WithProjectApply(flusher, p, Flush, mutate, io);
    if r.Err? { return; }
    var wrote := flusher.FlushProject(p.id, io.flush);
    if wrote.Err? { r := Err(StoreFailed(wrote.error)); }
  }

  /** `Exec::Export`: the lock is held already, so the flush is the one that does not take it. */
  method ExecExport(flusher: F.Flusher, p: Project, io: Faults) returns (r: Result<GraphState, ApplyError>)
    requires flusher.locks.Valid() && flusher.locks.Free(p.id)
    modifies flusher, flusher.cache, flusher.locks
    ensures (flusher.Model(), r) == RunExport(old(flusher.Model()), p, io)
    ensures flusher.locks.Valid() && flusher.locks.held == old(flusher.locks.held)
  {
    var guard := flusher.locks.LockFor(p.id);
    flusher.locks.Acquire(guard);
    var wrote := flusher.FlushLocked(p.id, io.flush);
    if wrote.Err? {
      r := Err(StoreFailed(wrote.error));
    } else if p.id in io.read {
      r := Err(StoreFailed(Io));
    } else {
      r := Ok(Load(flusher.disk, p.outputDir));
    }
    flusher.locks.Release(guard);
  }

  // ---- what an apply does --------------------------------------------------

  lemma MutatedKeeps(s: Store, reg: Registry, p: Project, lane: Persistence, m: Option<Mutation>, io: Faults)
    requires StoreInv(s, reg) && Registered(reg, p)
    ensures StoreInv(Mutated(s, p, lane, m, io).0, reg)
  {
    if m.Some? && m.value.merged.Some? {
      RecordKeeps(s, reg, p, m.value.merged.value, lane, io.record);
    }
  }

  lemma WithApplyKeeps(s: Store, reg: Registry, p: Project, lane: Persistence, mutate: Mutate, io: Faults)
    requires StoreInv(s, reg) && Registered(reg, p)
    ensures StoreInv(WithApply(s, p, lane, mutate, io).0, reg)
  {
    var (s1, prior) := StateOf(s, p, io.read);
    StateOfKeeps(s, reg, p, io.read);
    if prior.Ok? {
      MutatedKeeps(s1, reg, p, lane, mutate(prior.value.value), io);
    }
  }

  /** Neither store call of the apply pages out a dirty project it cannot write. */
  predicate NoLoss(s: Store, p: Project, lane: Persistence, io: Faults) {
    && !ReadLoses(s, p, io.read)
    && var s1 := StateOf(s, p, io.read).0;
       TakesUp(p, lane, io.record) ==> !LosesVictim(s1, p.id, io.record)
  }

  /** The state an update of `prior` leaves: its fresh one, or the prior. */
  function Updated(mutate: Mutate, prior: GraphState): GraphState {
    if mutate(prior).Some? && mutate(prior).value.merged.Some? then mutate(prior).value.merged.value else prior
  }

  /**
   * All or nothing: the update ran on the project's latest state (or its reloaded copy); a success
   * leaves exactly its result and answers its change count, a failure leaves what was there.
   */
  lemma ApplyIsAtomicUpdate(s: Store, reg: Registry, p: Project, lane: Persistence, mutate: Mutate, io: Faults)
    returns (prior: GraphState)
    requires StoreInv(s, reg) && Registered(reg, p) && NoLoss(s, p, lane, io)
    ensures Agrees(prior, Latest(s, reg, p.id))
    ensures var (t, r) := WithApply(s, p, lane, mutate, io);
            if r.Ok?
            then mutate(prior).Some? && r.value == mutate(prior).value.changed
                 && Agrees(Latest(t, reg, p.id), Updated(mutate, prior))
            else Agrees(Latest(t, reg, p.id), Latest(s, reg, p.id))
  {
    var (s1, read) := StateOf(s, p, io.read);
    ReadKeepsOwn(s, reg, p, io.read);
    prior := if read.Ok? then read.value.value else Latest(s, reg, p.id);
    AfterReadIsAtomic(s1, reg, read, prior, p, lane, mutate, io);
  }

  /** A read keeps the invariant and its own project's latest state, which is what it answers. */
  lemma ReadKeepsOwn(s: Store, reg: Registry, p: Project, faults: set<Id>)
    requires StoreInv(s, reg) && Registered(reg, p)
    ensures var (t, r) := StateOf(s, p, faults);
            && StoreInv(t, reg) && Agrees(Latest(t, reg, p.id), Latest(s, reg, p.id))
            && (r.Ok? ==> Latest(t, reg, p.id) == r.value.value)
  {
    StateOfKeeps(s, reg, p, faults);
    StateOfLatest(s, reg, p, faults, p.id);
    NotItsOwnVictim(s, p);
    ReadIsLatest(s, reg, p, faults);
  }

  lemma AfterReadIsAtomic(s: Store, reg: Registry, read: Result<Arc, Error>, prior: GraphState, p: Project,
                          lane: Persistence, mutate: Mutate, io: Faults)
    requires StoreInv(s, reg) && Registered(reg, p)
    requires read.Ok? ==> read.value.value == prior && Latest(s, reg, p.id) == prior
    requires TakesUp(p, lane, io.record) ==> !LosesVictim(s, p.id, io.record)
    ensures var (t, r) := AfterRead(s, read, p, lane, mutate, io);
            if r.Ok?
            then mutate(prior).Some? && r.value == mutate(prior).value.changed
                 && Latest(t, reg, p.id) == Updated(mutate, prior)
            else Latest(t, reg, p.id) == Latest(s, reg, p.id)
  {
    if read.Ok? {
      MutatedOwn(s, reg, p, lane, mutate(prior), io);
    }
  }

  lemma MutatedOwn(s: Store, reg: Registry, p: Project, lane: Persistence, m: Option<Mutation>, io: Faults)
    requires StoreInv(s, reg) && Registered(reg, p)
    requires TakesUp(p, lane, io.record) ==> !LosesVictim(s, p.id, io.record)
    ensures var (t, r) := Mutated(s, p, lane, m, io);
            && (r.Ok? ==> m.Some? && r.value == m.value.changed)
            && Latest(t, reg, p.id) ==
               if r.Ok? && m.value.merged.Some? then m.value.merged.value else Latest(s, reg, p.id)
  {
    if m.Some? && m.value.merged.Some? {
      RecordKeeps(s, reg, p, m.value.merged.value, lane, io.record);
      RecordLatest(s, reg, p, m.value.merged.value, lane, io.record, p.id);
    }
  }

  lemma NotItsOwnVictim(s: Store, p: Project)
    requires CacheInv(s.cache)
    ensures Victim(s.cache, p.id) != Some(p.id)
  {
    InsertEvicts(s.cache, p.id, DEFAULT, false);
  }

  /** What a successful read returns is what is resident after it. */
  lemma ReadIsLatest(s: Store, reg: Registry, p: Project, faults: set<Id>)
    requires StoreInv(s, reg) && Registered(reg, p)
    ensures var (t, r) := StateOf(s, p, faults);
            r.Ok? ==> p.id in t.cache.graphs && t.cache.graphs[p.id].state == r.value
                      && Agrees(r.value.value, Latest(s, reg, p.id))
  {
    if p.id !in s.cache.graphs && p.id !in faults {
      RememberKeeps(s, reg, p);
      MissIsAbsorb(s, reg, p, faults);
      AbsorbOwn(Remember(s, p), p.id, Load(s.disk, p.outputDir), false, faults);
    }
  }

  /** An apply to one project leaves every other one's latest state alone. */
  lemma ApplyKeepsOthers(s: Store, reg: Registry, p: Project, lane: Persistence, mutate: Mutate, io: Faults, x: Id)
    requires StoreInv(s, reg) && Registered(reg, p) && NoLoss(s, p, lane, io) && x in reg && x != p.id
    ensures Agrees(Latest(WithApply(s, p, lane, mutate, io).0, reg, x), Latest(s, reg, x))
  {
    var (s1, read) := StateOf(s, p, io.read);
    StateOfKeeps(s, reg, p, io.read);
    StateOfLatest(s, reg, p, io.read, x);
    if read.Ok? {
      MutatedKeepsOthers(s1, reg, p, lane, mutate(read.value.value), io, x);
    }
  }

  lemma MutatedKeepsOthers(s: Store, reg: Registry, p: Project, lane: Persistence, m: Option<Mutation>, io: Faults,
                           x: Id)
    requires StoreInv(s, reg) && Registered(reg, p) && x in reg && x != p.id
    requires TakesUp(p, lane, io.record) ==> !LosesVictim(s, p.id, io.record)
    ensures Agrees(Latest(Mutated(s, p, lane, m, io).0, reg, x), Latest(s, reg, x))
  {
    if m.Some? && m.value.merged.Some? {
      RecordLatest(s, reg, p, m.value.merged.value, lane, io.record, x);
    }
  }

  // ---- what clients are promised -------------------------------------------

  /**
   * A client command that reports success left nothing of its project unpersisted, whatever earlier
   * producer-lane work had deferred, and whatever the update did.
   */
  lemma SuccessIsPersisted(s: Store, reg: Registry, p: Project, mutate: Mutate, io: Faults)
    requires StoreInv(s, reg) && Registered(reg, p)
    ensures var (t, r) := RunCommand(s, p, mutate, io);
            r.Ok? ==> p.id !in t.dirty && Load(t.disk, reg[p.id]) == Erase(Latest(t, reg, p.id))
  {
    WithApplyKeeps(s, reg, p, Flush, mutate, io);
    var (s1, r) := WithApply(s, p, Flush, mutate, io);
    ThenFlushPersists(s1, reg, r, p.id, io.flush);
  }

  lemma ThenFlushPersists(s: Store, reg: Registry, r: Result<nat, ApplyError>, id: Id, faults: set<Id>)
    requires StoreInv(s, reg) && id in reg
    ensures var (t, done) := ThenFlush(s, r, id, faults);
            done.Ok? ==> id !in t.dirty && Load(t.disk, reg[id]) == Erase(Latest(t, reg, id))
  {
    FlushedIsPersisted(s, reg, id, faults);
  }

  lemma FlushedIsPersisted(s: Store, reg: Registry, id: Id, faults: set<Id>)
    requires StoreInv(s, reg) && id in reg
    ensures var (t, wrote) := FlushProject(s, id, faults);
            wrote.Ok? ==> id !in t.dirty && Load(t.disk, reg[id]) == Erase(Latest(t, reg, id))
  {
    FlushIs(s, reg, id, faults);
    FlushKeeps(s, reg, id, faults);
    if FlushProject(s, id, faults).1.Ok? {
      CleanIsPersisted(FlushProject(s, id, faults).0, reg, id);
    }
  }

  /** A client-lane apply that took up a state left no dirty window behind it. */
  lemma ClientRecordIsClean(s: Store, reg: Registry, p: Project, m: Option<Mutation>, io: Faults)
    requires StoreInv(s, reg) && Registered(reg, p) && m.Some? && m.value.merged.Some?
    ensures var (t, r) := Mutated(s, p, Flush, m, io); r.Ok? ==> p.id !in t.dirty
  {
    var merged := m.value.merged.value;
    RecordIsAbsorb(s, p, merged, Flush, io.record);
    BeforeInsertReady(s, reg, p, merged, Flush);
    AbsorbWindows(BeforeInsert(s, p, merged, Flush), p.id, merged, false, io.record);
  }

  /**
   * All or nothing for clients too: success means the update's result is the checkpoint, failure
   * that the project is as it was.
   */
  lemma CommandIsAllOrNothing(s: Store, reg: Registry, p: Project, mutate: Mutate, io: Faults)
    returns (prior: GraphState)
    requires StoreInv(s, reg) && Registered(reg, p) && NoLoss(s, p, Flush, io)
    ensures Agrees(prior, Latest(s, reg, p.id))
    ensures var (t, r) := RunCommand(s, p, mutate, io);
            if r.Ok?
            then mutate(prior).Some? && r.value == mutate(prior).value.changed
                 && Load(t.disk, reg[p.id]) == Erase(Updated(mutate, prior))
            else Agrees(Latest(t, reg, p.id), Latest(s, reg, p.id))
  {
    prior := ApplyIsAtomicUpdate(s, reg, p, Flush, mutate, io);
    var (s1, r1) := WithApply(s, p, Flush, mutate, io);
    WithApplyKeeps(s, reg, p, Flush, mutate, io);
    if r1.Ok? {
      FlushedIsPersisted(s1, reg, p.id, io.flush);
      FlushIs(s1, reg, p.id, io.flush);
      FlushLatest(s1, reg, p.id, io.flush, p.id);
      DirtyMeansNothingNew(s, reg, p, mutate, io);
    }
  }

  /** If the project is still dirty after a client's apply succeeded, the apply took up nothing. */
  lemma DirtyMeansNothingNew(s: Store, reg: Registry, p: Project, mutate: Mutate, io: Faults)
    requires StoreInv(s, reg) && Registered(reg, p) && NoLoss(s, p, Flush, io)
    ensures var (t, r) := WithApply(s, p, Flush, mutate, io);
            r.Ok? && p.id in t.dirty ==> Agrees(Latest(t, reg, p.id), Latest(s, reg, p.id))
  {
    var (s1, read) := StateOf(s, p, io.read);
    ReadKeepsOwn(s, reg, p, io.read);
    if read.Ok? {
      MutatedMeansNothingNew(s1, reg, p, mutate(read.value.value), io);
    }
  }

  lemma MutatedMeansNothingNew(s: Store, reg: Registry, p: Project, m: Option<Mutation>, io: Faults)
    requires StoreInv(s, reg) && Registered(reg, p)
    requires TakesUp(p, Flush, io.record) ==> !LosesVictim(s, p.id, io.record)
    ensures var (t, r) := Mutated(s, p, Flush, m, io);
            r.Ok? && p.id in t.dirty ==> Latest(t, reg, p.id) == Latest(s, reg, p.id)
  {
    MutatedOwn(s, reg, p, Flush, m, io);
    if m.Some? && m.value.merged.Some? {
      ClientRecordIsClean(s, reg, p, m, io);
    }
  }

  lemma CleanIsPersisted(s: Store, reg: Registry, id: Id)
    requires StoreInv(s, reg) && id in reg && id !in s.dirty
    ensures Load(s.disk, reg[id]) == Erase(Latest(s, reg, id))
  {
    assert Settled(s, reg, id);
    assert reg[id] in s.disk ==> Erase(s.disk[reg[id]]) == s.disk[reg[id]];
  }

  /** An export is the latest state, never the older checkpoint write-behind left on disk. */
  lemma ExportIsLatest(s: Store, reg: Registry, p: Project, io: Faults)
    requires StoreInv(s, reg) && Registered(reg, p)
    ensures var (t, r) := RunExport(s, p, io);
            && (r.Ok? ==> r.value == Erase(Latest(s, reg, p.id)))
            && Latest(t, reg, p.id) == Latest(s, reg, p.id)
            && (r.Err? <==> (p.id in s.dirty && p.id in io.flush) || p.id in io.read)
  {
    FlushIs(s, reg, p.id, io.flush);
    FlushKeeps(s, reg, p.id, io.flush);
    FlushLatest(s, reg, p.id, io.flush, p.id);
    var t := FlushProject(s, p.id, io.flush).0;
    if p.id !in t.dirty {
      CleanIsPersisted(t, reg, p.id);
    }
  }

  // ---- reclusters ----------------------------------------------------------

  /** A recluster changes the partition and nothing else, and does not touch the project's checkpoint. */
  lemma ReclusterOnlyPartition(s: Store, reg: Registry, p: Project, cluster: Cluster, io: Faults)
    returns (prior: GraphState)
    requires StoreInv(s, reg) && Registered(reg, p) && NoLoss(s, p, Defer, io)
    ensures Agrees(prior, Latest(s, reg, p.id))
    ensures var (t, r) := WithApply(s, p, Defer, Reclustering(cluster), io);
            && (r.Ok? ==> cluster(prior).Some? && r.value == 0
                          && Agrees(Latest(t, reg, p.id), prior.(partition := cluster(prior).value)))
            && (r.Err? ==> Agrees(Latest(t, reg, p.id), Latest(s, reg, p.id)))
  {
    prior := ApplyIsAtomicUpdate(s, reg, p, Defer, Reclustering(cluster), io);
    ReclusteringUpdates(cluster, prior);
  }

  lemma ReclusteringUpdates(cluster: Cluster, g: GraphState)
    ensures Reclustering(cluster)(g).Some? <==> cluster(g).Some?
    ensures cluster(g).Some? ==> Reclustering(cluster)(g).value.changed == 0
    ensures cluster(g).Some? ==> Updated(Reclustering(cluster), g) == g.(partition := cluster(g).value)
  {
  }

  /** Over a resident state whose partition comes out unchanged, a recluster only refreshes recency. */
  lemma UnchangedPartitionIsNoOp(s: Store, reg: Registry, p: Project, cluster: Cluster, io: Faults)
    requires StoreInv(s, reg) && Registered(reg, p) && p.id in s.cache.graphs
    requires cluster(Latest(s, reg, p.id)) == Some(Latest(s, reg, p.id).partition)
    ensures WithApply(s, p, Defer, Reclustering(cluster), io) == (s.(cache := Touch(s.cache, p.id)), Ok(0))
  {
    assert Remember(s, p).outDirs == s.outDirs;
  }
}
