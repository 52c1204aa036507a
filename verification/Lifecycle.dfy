/** The daemon's start-up and shutdown in place, and how they are steps of a life. */
module Lifecycle {
  import opened Prelude
  import opened Graph
  import opened CacheSpec
  import opened FlushSpec
  import opened StoreSteps
  import opened StoreOps
  import opened StoreRuns
  import opened Staleness
  import opened Lifetimes
  import opened Applies
  import opened Startup
  import F = Flush

  /** How far `fs::write` got: it creates the file, then fills it. */
  datatype MarkerWrite = NotCreated | Wrote(chars: nat)

  function WriteMarker(marker: Marker, w: MarkerWrite): Marker {
    match w
    case NotCreated => marker
    case Wrote(n) => File(CLEAN_MARKER[..if n < |CLEAN_MARKER| then n else |CLEAN_MARKER|])
  }

  /** Every registered project's checkpoint is its latest state. */
  ghost predicate AllPersisted(s: Store, reg: Registry) {
    forall id :: id in reg ==> Load(s.disk, reg[id]) == Erase(Latest(s, reg, id))
  }

  class Daemon {
    const flusher: F.Flusher
    var marker: Marker

    constructor (flusher: F.Flusher, marker: Marker)
      ensures this.flusher == flusher && this.marker == marker
    {
      this.flusher, this.marker := flusher, marker;
    }

    /**
     * `startup_reconcile`: the marker is read, then consumed whatever it said, and only then is the
     * first project touched. Over a store just started every project converges.
     */
    method StartupReconcile(ghost reg: Registry, readable: bool, removable: bool, watched: seq<Project>, walk: Walk,
                            io: Id -> Faults)
      returns (deep: bool)
      requires flusher.locks.Valid() && flusher.locks.held == {}
      modifies this, flusher, flusher.cache, flusher.locks
      ensures deep <==> !(readable && old(marker) == File(CLEAN_MARKER))
      ensures marker == if removable then Absent else old(marker)
      ensures flusher.Model() == ReconcileAll(old(flusher.Model()), watched, deep, walk, io)
      ensures var s := old(flusher.Model());
              StoreInv(s, reg) && s.dirty == map[] && s.cache.graphs == map[] && WatchedOf(reg, watched) ==>
                forall id :: id in reg ==> Converged(s, flusher.Model(), reg, watched, deep, walk, io, id)
      ensures flusher.locks.Valid() && flusher.locks.held == {}
    {
      var clean := readable && marker == File(CLEAN_MARKER);
      deep := !clean;
      if marker != Absent && removable {
        marker := Absent;
      }
      ghost var start := flusher.Model();
      ghost var whole := ReconcileAll(start, watched, deep, walk, io);
      for k := 0 to |watched|
        invariant whole == ReconcileAll(flusher.Model(), watched[k..], deep, walk, io)
        invariant flusher.locks.Valid() && flusher.locks.held == {}
        invariant marker == if removable then Absent else old(marker)
      {
        assert watched[k..][1..] == watched[k + 1..];
        var p := watched[k];
        var _ := WithProjectApply(flusher, p, Flush, walk(p.id, deep), io(p.id));
      }
      if StoreInv(start, reg) && start.dirty == map[] && start.cache.graphs == map[] && WatchedOf(reg, watched) {
        forall id | id in reg ensures Converged(start, whole, reg, watched, deep, walk, io, id) {
          StartConverges(start, reg, watched, deep, walk, io, id);
        }
      }
    }

    /**
     * `shutdown`: flush everything, and promise a clean shutdown only when every flush succeeded. The
     * marker it completes is never a lie, and completing it needs nothing but the writes to succeed.
     */
    method Shutdown(ghost reg: Registry, faults: set<Id>, write: MarkerWrite)
      returns (failures: seq<(Id, Error)>, ghost ids: seq<Id>)
      requires StoreInv(flusher.Model(), reg)
      requires flusher.locks.Valid() && flusher.locks.held == {}
      modifies this, flusher, flusher.cache, flusher.locks
      ensures NoDup(ids) && Elements(ids) == old(flusher.dirty).Keys
      ensures (flusher.Model(), failures) == FlushEach(old(flusher.Model()), ids, faults)
      ensures marker == if failures == [] then WriteMarker(old(marker), write) else old(marker)
      ensures failures == [] ==> flusher.dirty == map[] && AllPersisted(flusher.Model(), reg)
      ensures forall id :: id in old(flusher.dirty) && id in faults ==> (id, Io) in failures
    {
      ghost var before := flusher.Model();
      failures, ids := flusher.FlushAll(faults);
      FlushAllPersists(before, reg, ids, faults);
      if failures != [] { return; }
      marker := match write
                case NotCreated => marker
                case Wrote(n) => File(CLEAN_MARKER[..if n < |CLEAN_MARKER| then n else |CLEAN_MARKER|]);
    }
  }

  /** Flushing every dirty project without a failure leaves nothing dirty and everything on disk. */
  lemma FlushAllPersists(s: Store, reg: Registry, ids: seq<Id>, faults: set<Id>)
    requires StoreInv(s, reg) && Elements(ids) == s.dirty.Keys
    ensures var (t, failures) := FlushEach(s, ids, faults);
            && (failures == [] ==> t.dirty == map[] && AllPersisted(t, reg))
            && forall id :: id in s.dirty && id in faults ==> (id, Io) in failures
  {
    var (t, failures) := FlushEach(s, ids, faults);
    forall id | id in s.dirty ensures id in ids {
      assert id in Elements(ids);
    }
    FlushEachFailures(s, reg, ids, faults);
    FlushEachKeeps(s, reg, ids, faults);
    if failures == [] {
      forall id ensures id !in t.dirty {
        FlushEachClears(s, reg, ids, faults, id);
        assert id in s.dirty && id in faults ==> (id, Io) in failures;
      }
      forall id | id in reg ensures Load(t.disk, reg[id]) == Erase(Latest(t, reg, id)) {
        CleanIsPersisted(t, reg, id);
      }
    }
  }

  // ---- shutdown as steps of a life -----------------------------------------

  /** `n` more flushes of a shutdown pass. */
  function FlushSteps(reg: Registry, y: Sys, n: nat, faults: set<Id>): Sys
    decreases n
  {
    if n == 0 then y else FlushSteps(reg, Act1(reg, y, FlushNext(faults)), n - 1, faults)
  }

  function WriteSteps(reg: Registry, y: Sys, n: nat): Sys {
    if n == 0 then y else Act1(reg, WriteSteps(reg, y, n - 1), WriteChar(true))
  }

  /** The flush pass, step by step, is the pass the method makes. */
  lemma {:induction false} FlushStepsAre(reg: Registry, y: Sys, faults: set<Id>)
    requires y.phase.Flushing?
    ensures var (t, failures) := FlushEach(y.store, y.phase.ids, faults);
            FlushSteps(reg, y, |y.phase.ids|, faults) ==
            y.(store := t, phase := Flushing([], y.phase.failed || failures != []))
    decreases |y.phase.ids|
  {
    if y.phase.ids != [] {
      FlushStepsAre(reg, Act1(reg, y, FlushNext(faults)), faults);
    }
  }

  lemma {:induction false} WriteStepsAre(reg: Registry, y: Sys, n: nat)
    requires y.phase == Marking(0) && y.marker == File("") && !y.promised && n <= |CLEAN_MARKER|
    ensures WriteSteps(reg, y, n) ==
            y.(phase := Marking(n), marker := File(CLEAN_MARKER[..n]), promised := n == |CLEAN_MARKER|)
  {
    if n > 0 {
      WriteStepsAre(reg, y, n - 1);
    }
  }

  /** A whole shutdown: the pass, then as much of the marker as got written. */
  function ShutdownSteps(reg: Registry, y: Sys, ids: seq<Id>, faults: set<Id>, write: MarkerWrite): Sys {
    var flushed := FlushSteps(reg, Act1(reg, y, BeginShutdown(ids)), |ids|, faults);
    match write
    case NotCreated => Act1(reg, flushed, CreateMarker(false))
    case Wrote(n) =>
      var created := Act1(reg, flushed, CreateMarker(true));
      WriteSteps(reg, created, if n < |CLEAN_MARKER| then n else |CLEAN_MARKER|)
  }

  /** From a serving daemon those steps end with the store and the marker `Shutdown` leaves. */
  lemma ShutdownIsItsSteps(reg: Registry, y: Sys, ids: seq<Id>, faults: set<Id>, write: MarkerWrite)
    requires LifeInv(reg, y) && y.phase.Up? && Elements(ids) == y.store.dirty.Keys
    ensures var (t, failures) := FlushEach(y.store, ids, faults);
            var z := ShutdownSteps(reg, y, ids, faults, write);
            && z.store == t
            && z.marker == (if failures == [] then WriteMarker(y.marker, write) else y.marker)
            && (z.promised <==> failures == [] && write.Wrote? && write.chars >= |CLEAN_MARKER|)
  {
    var begun := Act1(reg, y, BeginShutdown(ids));
    assert (set id | id in ids) == Elements(ids);
    assert begun == y.(phase := Flushing(ids, false));
    FlushStepsAre(reg, begun, faults);
    var flushed := FlushSteps(reg, begun, |ids|, faults);
    if write.Wrote? {
      var n := if write.chars < |CLEAN_MARKER| then write.chars else |CLEAN_MARKER|;
      if flushed.phase.failed {
        DoneStays(reg, Act1(reg, flushed, CreateMarker(true)), n);
      } else {
        WriteStepsAre(reg, Act1(reg, flushed, CreateMarker(true)), n);
        assert CLEAN_MARKER[..|CLEAN_MARKER|] == CLEAN_MARKER;
      }
    }
  }

  lemma {:induction false} DoneStays(reg: Registry, y: Sys, n: nat)
    requires y.phase.Done?
    ensures WriteSteps(reg, y, n) == y
  {
    if n > 0 {
      DoneStays(reg, y, n - 1);
    }
  }
}
