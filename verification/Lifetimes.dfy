/** Daemon lifetimes, crashes and the clean-shutdown marker. */
module Lifetimes {
  import opened Prelude
  import opened Graph
  import opened CacheSpec
  import opened FlushSpec
  import opened StoreSteps
  import opened StoreOps
  import opened StoreRuns
  import opened StoreLaws
  import opened Staleness

  const CLEAN_MARKER := "clean"

  datatype Marker = Absent | File(content: string)

  /**
   * Where a daemon is in its life. `Consuming` has read the marker and not yet removed it; `Flushing`
   * is the shutdown pass with its remaining ids; `Marking` has created the marker file and filled in
   * its first `written` characters; `Done` has returned from shutdown.
   */
  datatype Phase =
    | Down
    | Consuming(shallow: bool)
    | Up
    | Flushing(ids: seq<Id>, failed: bool)
    | Marking(written: nat)
    | Done

  /**
   * `plain` is what the last serving lifetime took up; `promised` whether it completed its marker;
   * `stale` whether the complete marker on disk is an older one it failed to remove.
   */
  datatype Sys = Sys(phase: Phase, store: Store, marker: Marker, plain: Plain, promised: bool, stale: bool)

  datatype Act =
    | Start(readable: bool)
    | Consume
    | ConsumeFails
    | Call(e: Event)
    | BeginShutdown(ids: seq<Id>)
    | FlushNext(faults: set<Id>)
    | CreateMarker(ok: bool)
    | WriteChar(ok: bool)
    | Exit
    | Crash

  /** A call that cannot open a dirty window: all that client connections still make during shutdown. */
  predicate ClientCall(e: Event) {
    e.action.Record? ==> e.action.lane == Flush
  }

  function Reboot(s: Store): Store {
    StoreLaws.Crash(s, s.now)
  }

  function Serve(reg: Registry, y: Sys): Sys {
    y.(phase := Up, store := Reboot(y.store), plain := Checkpoints(reg, y.store.disk), promised := false)
  }

  /** One step of a life; a step its phase does not allow changes nothing. */
  function Act1(reg: Registry, y: Sys, a: Act): Sys {
    match a
    case Start(readable) =>
      if y.phase.Down? then y.(phase := Consuming(readable && y.marker == File(CLEAN_MARKER))) else y
    case Consume => if y.phase.Consuming? then Serve(reg, y.(marker := Absent, stale := false)) else y
    case ConsumeFails =>
      if y.phase.Consuming? then Serve(reg, y.(stale := y.marker == File(CLEAN_MARKER))) else y
    case Call(e) =>
      if y.phase.Up? || ((y.phase.Flushing? || y.phase.Marking? || y.phase.Done?) && ClientCall(e))
      then y.(store := Step(y.store, e).0, plain := PlainStep(y.plain, e))
      else y
    case BeginShutdown(ids) =>
      if y.phase.Up? && (set id | id in ids) == y.store.dirty.Keys then y.(phase := Flushing(ids, false)) else y
    case FlushNext(faults) =>
      if y.phase.Flushing? && y.phase.ids != [] then
        var (t, r) := FlushProject(y.store, y.phase.ids[0], faults);
        y.(store := t, phase := Flushing(y.phase.ids[1..], y.phase.failed || r.Err?))
      else y
    case CreateMarker(ok) =>
      if y.phase.Flushing? && y.phase.ids == [] then
        if y.phase.failed || !ok then y.(phase := Done) else y.(phase := Marking(0), marker := File(""), stale := false)
      else y
    case WriteChar(ok) =>
      if y.phase.Marking? && y.phase.written < |CLEAN_MARKER| then
        if !ok then y.(phase := Done)
        else
          var n := y.phase.written + 1;
          y.(phase := Marking(n), marker := File(CLEAN_MARKER[..n]), promised := n == |CLEAN_MARKER|)
      else y
    case Exit => if y.phase.Done? || (y.phase.Marking? && y.promised)
                 then y.(phase := Down, store := Reboot(y.store)) else y
    case Crash => y.(phase := Down, store := Reboot(y.store))
  }

  function Live(reg: Registry, y: Sys, acts: seq<Act>): Sys {
    if acts == [] then y else Act1(reg, Live(reg, y, acts[..|acts| - 1]), acts[|acts| - 1])
  }

  /** Calls are legal and lose no eviction write-back. */
  ghost predicate Fair(reg: Registry, y: Sys, a: Act) {
    a.Call? ==> Legal(y.store, reg, a.e) && Loses(y.store, a.e).None?
  }

  ghost predicate AllFair(reg: Registry, y: Sys, acts: seq<Act>) {
    acts != [] ==>
      var front := acts[..|acts| - 1];
      AllFair(reg, y, front) && Fair(reg, Live(reg, y, front), acts[|acts| - 1])
  }

  /** Every project's checkpoint is its latest state, as far as a checkpoint can say. */
  ghost predicate Durable(reg: Registry, y: Sys) {
    y.plain.Keys == reg.Keys && forall x :: x in reg ==> Load(y.store.disk, reg[x]) == Erase(y.plain[x])
  }

  /** A daemon has taken over the store: it serves, or is shutting down, or has. */
  predicate Serving(y: Sys) {
    !y.phase.Down? && !y.phase.Consuming?
  }

  ghost predicate MarkerInv(y: Sys) {
    && (y.marker == File(CLEAN_MARKER) <==> y.promised || y.stale) && !(y.promised && y.stale)
    && (y.phase.Consuming? ==> (y.phase.shallow ==> y.promised || y.stale))
    && (y.phase.Up? || y.phase.Flushing? ==> !y.promised)
    && (y.phase.Marking? ==>
          !y.stale && y.phase.written <= |CLEAN_MARKER| && y.marker == File(CLEAN_MARKER[..y.phase.written]))
  }

  ghost predicate LifeInv(reg: Registry, y: Sys) {
    && StoreInv(y.store, reg) && y.plain.Keys == reg.Keys && MarkerInv(y)
    && (!Serving(y) ==> y.store == Reboot(y.store) && (y.promised ==> Durable(reg, y)))
    && (Serving(y) ==> Refines(y.store, reg, y.plain))
    && (y.phase.Flushing? && !y.phase.failed ==> forall id :: id in y.store.dirty ==> id in y.phase.ids)
    && (y.phase.Marking? || (y.phase.Done? && y.promised) ==> y.store.dirty == map[])
  }

  // ---- pieces --------------------------------------------------------------

  lemma RebootInv(reg: Registry, s: Store)
    requires StoreInv(s, reg)
    ensures StoreInv(Reboot(s), reg) && Refines(Reboot(s), reg, Checkpoints(reg, s.disk))
    ensures Reboot(Reboot(s)) == Reboot(s)
  {
    FreshInv(reg, s.cache.capacity, s.cfg, s.now, s.disk);
  }

  lemma RebootKeeps(reg: Registry, s: Store)
    requires StoreInv(s, reg)
    ensures StoreInv(Reboot(s), reg) && Reboot(Reboot(s)) == Reboot(s)
  {
    RebootInv(reg, s);
  }

  /** With nothing dirty, what is on disk is what is latest. */
  lemma CleanIsDurable(reg: Registry, y: Sys)
    requires StoreInv(y.store, reg) && Refines(y.store, reg, y.plain) && y.store.dirty == map[]
    ensures Durable(reg, y)
  {
    forall x | x in reg ensures Load(y.store.disk, reg[x]) == Erase(y.plain[x]) {
      CrashKeepsTheClean(y.store, reg, y.store.now, x);
    }
  }

  lemma ReadAddsNoDirty(s: Store, reg: Registry, p: Project, faults: set<Id>)
    requires StoreInv(s, reg) && Registered(reg, p)
    ensures StateOf(s, p, faults).0.dirty.Keys <= s.dirty.Keys
  {
    if p.id !in s.cache.graphs && p.id !in faults {
      MissIsAbsorb(s, reg, p, faults);
      RememberKeeps(s, reg, p);
      AbsorbWindows(Remember(s, p), p.id, Load(s.disk, p.outputDir), false, faults);
    }
  }

  lemma ClientAddsNoDirty(s: Store, reg: Registry, e: Event)
    requires StoreInv(s, reg) && Legal(s, reg, e) && ClientCall(e)
    ensures Step(s, e).0.dirty.Keys <= s.dirty.Keys
  {
    match e.action
    case Read(p) => ReadAddsNoDirty(s, reg, p, e.faults);
    case Record(p, merged, lane) =>
      RecordIsAbsorb(s, p, merged, Flush, e.faults);
      BeforeInsertReady(s, reg, p, merged, Flush);
      AbsorbWindows(BeforeInsert(s, p, merged, Flush), p.id, merged, false, e.faults);
    case FlushOne(id) => FlushIs(s, reg, id, e.faults);
    case FlushMany(ids) =>
      forall x ensures x in FlushEach(s, ids, e.faults).0.dirty ==> x in s.dirty {
        FlushEachClears(s, reg, ids, e.faults, x);
      }
    case _ =>
  }

  lemma CallKeeps(reg: Registry, y: Sys, e: Event)
    requires LifeInv(reg, y) && Fair(reg, y, Call(e))
    ensures LifeInv(reg, Act1(reg, y, Call(e)))
  {
    var z := Act1(reg, y, Call(e));
    if !y.phase.Down? && !y.phase.Consuming? && (y.phase.Up? || ClientCall(e)) {
      StepKeepsInv(y.store, reg, e);
      StepRefines(y.store, reg, y.plain, e);
      if !y.phase.Up? {
        ClientAddsNoDirty(y.store, reg, e);
      }
    }
  }

  lemma FlushNextKeeps(reg: Registry, y: Sys, faults: set<Id>)
    requires LifeInv(reg, y)
    ensures LifeInv(reg, Act1(reg, y, FlushNext(faults)))
  {
    if y.phase.Flushing? && y.phase.ids != [] {
      var id := y.phase.ids[0];
      FlushKeeps(y.store, reg, id, faults);
      FlushIs(y.store, reg, id, faults);
      var z := Act1(reg, y, FlushNext(faults));
      forall x | x in reg ensures Agrees(Latest(z.store, reg, x), z.plain[x]) {
        FlushLatest(y.store, reg, id, faults, x);
      }
    }
  }

  lemma TakeOverKeeps(reg: Registry, y: Sys, a: Act)
    requires LifeInv(reg, y) && (a.Consume? || a.ConsumeFails?)
    ensures LifeInv(reg, Act1(reg, y, a))
  {
    RebootInv(reg, y.store);
  }

  lemma LeaveKeeps(reg: Registry, y: Sys, a: Act)
    requires LifeInv(reg, y) && (a.Exit? || a.Crash?)
    ensures LifeInv(reg, Act1(reg, y, a))
  {
    LeftKeeps(reg, y);
    var z := Act1(reg, y, a);
    assert z == y || z == y.(phase := Down, store := Reboot(y.store));
  }

  /** However a daemon leaves, its store is gone and its disk, marker and promise stay. */
  lemma LeftKeeps(reg: Registry, y: Sys)
    requires LifeInv(reg, y)
    ensures LifeInv(reg, y.(phase := Down, store := Reboot(y.store)))
  {
    RebootKeeps(reg, y.store);
    assert y.promised ==> Durable(reg, y.(phase := Down, store := Reboot(y.store))) by {
      if y.promised && Serving(y) {
        CleanIsDurable(reg, y);
      }
    }
  }

  lemma ShutdownKeeps(reg: Registry, y: Sys, a: Act)
    requires LifeInv(reg, y) && (a.BeginShutdown? || a.CreateMarker? || a.WriteChar?)
    ensures LifeInv(reg, Act1(reg, y, a))
  {
    if a.BeginShutdown? && y.phase.Up? && (set id | id in a.ids) == y.store.dirty.Keys {
      forall id | id in y.store.dirty ensures id in a.ids {
        assert id in (set x | x in a.ids);
      }
    } else if a.CreateMarker? && y.phase.Flushing? && y.phase.ids == [] && !y.phase.failed && a.ok {
      assert y.store.dirty == map[];
    } else if a.WriteChar? && y.phase.Marking? && a.ok && y.phase.written < |CLEAN_MARKER| {
      var n := y.phase.written + 1;
      assert n < |CLEAN_MARKER| ==> |CLEAN_MARKER[..n]| != |CLEAN_MARKER|;
      assert n == |CLEAN_MARKER| ==> CLEAN_MARKER[..n] == CLEAN_MARKER;
    }
  }

  lemma Act1Keeps(reg: Registry, y: Sys, a: Act)
    requires LifeInv(reg, y) && Fair(reg, y, a)
    ensures LifeInv(reg, Act1(reg, y, a))
  {
    match a
    case Call(e) => CallKeeps(reg, y, e);
    case FlushNext(faults) => FlushNextKeeps(reg, y, faults);
    case Start(_) =>
    case Consume => TakeOverKeeps(reg, y, a);
    case ConsumeFails => TakeOverKeeps(reg, y, a);
    case Exit => LeaveKeeps(reg, y, a);
    case Crash => LeaveKeeps(reg, y, a);
    case _ => ShutdownKeeps(reg, y, a);
  }

  // ---- the theorems --------------------------------------------------------

  /** A machine on which no daemon has run yet: some checkpoints, no marker. */
  function FirstBoot(reg: Registry, store: Store): Sys {
    Sys(Down, Reboot(store), Absent, Checkpoints(reg, store.disk), false, false)
  }

  lemma {:induction false} LiveKeeps(reg: Registry, store: Store, acts: seq<Act>)
    requires StoreInv(store, reg) && AllFair(reg, FirstBoot(reg, store), acts)
    ensures LifeInv(reg, Live(reg, FirstBoot(reg, store), acts))
  {
    if acts == [] {
      RebootInv(reg, store);
    } else {
      var front := acts[..|acts| - 1];
      LiveKeeps(reg, store, front);
      Act1Keeps(reg, Live(reg, FirstBoot(reg, store), front), acts[|acts| - 1]);
    }
  }

  /**
   * Over any sequence of lifetimes, crashes allowed between any two steps, a start chooses the
   * shallow reconcile exactly when the marker is readable and the last lifetime that served wrote it
   * in full, or left a complete older one it failed to remove; in the first case every project's
   * checkpoint is its latest state.
   */
  lemma ShallowIffMarked(reg: Registry, store: Store, acts: seq<Act>, readable: bool)
    requires StoreInv(store, reg) && AllFair(reg, FirstBoot(reg, store), acts)
    requires Live(reg, FirstBoot(reg, store), acts).phase.Down?
    ensures var y := Live(reg, FirstBoot(reg, store), acts);
            && (Act1(reg, y, Start(readable)).phase == Consuming(true) <==> readable && (y.promised || y.stale))
            && (y.promised ==> Durable(reg, y))
  {
    LiveKeeps(reg, store, acts);
  }

  ghost predicate AllRemoved(acts: seq<Act>) {
    forall i :: 0 <= i < |acts| ==> !acts[i].ConsumeFails?
  }

  lemma {:induction false} NeverStale(reg: Registry, y: Sys, acts: seq<Act>)
    requires AllRemoved(acts) && !y.stale
    ensures !Live(reg, y, acts).stale
  {
    if acts != [] {
      assert AllRemoved(acts[..|acts| - 1]);
      NeverStale(reg, y, acts[..|acts| - 1]);
    }
  }

  /** So while removing the marker succeeds, a shallow start is always right. */
  lemma ShallowIffPromised(reg: Registry, store: Store, acts: seq<Act>, readable: bool)
    requires StoreInv(store, reg) && AllFair(reg, FirstBoot(reg, store), acts) && AllRemoved(acts)
    requires Live(reg, FirstBoot(reg, store), acts).phase.Down?
    ensures var y := Live(reg, FirstBoot(reg, store), acts);
            var z := Act1(reg, y, Start(readable));
            && (z.phase == Consuming(true) <==> readable && y.promised)
            && (z.phase == Consuming(true) ==> Durable(reg, y))
  {
    ShallowIffMarked(reg, store, acts, readable);
    NeverStale(reg, FirstBoot(reg, store), acts);
  }

  /** What is dirty differs from its checkpoint in nothing a checkpoint keeps. */
  ghost predicate DirtyOnDisk(reg: Registry, s: Store) {
    forall id :: id in s.dirty && id in reg ==> Load(s.disk, reg[id]) == Erase(Latest(s, reg, id))
  }

  lemma OnDiskIff(reg: Registry, s: Store, plain: Plain, x: Id)
    requires StoreInv(s, reg) && Refines(s, reg, plain) && x in reg
    ensures Load(s.disk, reg[x]) == Erase(plain[x]) <==>
            x !in s.dirty || Load(s.disk, reg[x]) == Erase(Latest(s, reg, x))
  {
    if x !in s.dirty {
      CrashKeepsTheClean(s, reg, s.now, x);
    }
  }

  /** The disk holds every project's latest state exactly when the dirty windows hold nothing new. */
  lemma AllOnDiskIff(reg: Registry, s: Store, plain: Plain)
    requires StoreInv(s, reg) && Refines(s, reg, plain)
    ensures (forall x :: x in reg ==> Load(s.disk, reg[x]) == Erase(plain[x])) <==> DirtyOnDisk(reg, s)
  {
    forall x | x in reg
      ensures Load(s.disk, reg[x]) == Erase(plain[x]) <==>
              x !in s.dirty || Load(s.disk, reg[x]) == Erase(Latest(s, reg, x))
    {
      OnDiskIff(reg, s, plain, x);
    }
  }

  predicate Leaves(a: Act) {
    a.Crash? || a.Exit?
  }

  lemma LeavingKeeps(reg: Registry, y: Sys, a: Act)
    requires Leaves(a) && Act1(reg, y, a).phase.Down? && Serving(y)
    ensures var z := Act1(reg, y, a);
            && z.store.disk == y.store.disk && z.plain == y.plain && z.marker == y.marker
            && z.promised == y.promised && z.stale == y.stale
  {
  }

  /** Leaving a serving daemon, by exit or crash, keeps everything exactly when nothing new was dirty. */
  lemma LeavingIsDurableIff(reg: Registry, y: Sys, a: Act)
    requires LifeInv(reg, y) && Serving(y) && Leaves(a) && Act1(reg, y, a).phase.Down?
    ensures Durable(reg, Act1(reg, y, a)) <==> DirtyOnDisk(reg, y.store)
  {
    LeavingKeeps(reg, y, a);
    AllOnDiskIff(reg, y.store, y.plain);
  }

  lemma StartKeeps(reg: Registry, y: Sys, readable: bool)
    requires y.phase.Down?
    ensures var z := Act1(reg, y, Start(readable));
            && (z.phase == Consuming(true) <==> readable && y.marker == File(CLEAN_MARKER))
            && (Durable(reg, z) <==> Durable(reg, y))
  {
  }

  lemma PromisedIsOnDisk(reg: Registry, y: Sys)
    requires LifeInv(reg, y) && Serving(y) && y.promised
    ensures DirtyOnDisk(reg, y.store)
  {
  }

  /**
   * When a start over a serving daemon's remains is right, marker removal failing or not: it is shallow
   * exactly when the marker reads back complete, and a shallow start has every project's latest state
   * exactly when that daemon completed its shutdown, or what it left dirty was already on disk.
   */
  lemma ShallowIsRightIff(reg: Registry, store: Store, acts: seq<Act>, a: Act, readable: bool)
    requires StoreInv(store, reg) && AllFair(reg, FirstBoot(reg, store), acts) && Leaves(a)
    requires var y := Live(reg, FirstBoot(reg, store), acts);
             Serving(y) && Act1(reg, y, a).phase.Down?
    ensures var y := Live(reg, FirstBoot(reg, store), acts);
            var z := Act1(reg, Act1(reg, y, a), Start(readable));
            && (z.phase == Consuming(true) <==> readable && (y.promised || y.stale))
            && (z.phase == Consuming(true) ==> (Durable(reg, z) <==> y.promised || DirtyOnDisk(reg, y.store)))
  {
    LiveKeeps(reg, store, acts);
    StartIsRightIff(reg, Live(reg, FirstBoot(reg, store), acts), a, readable);
  }

  lemma StartIsRightIff(reg: Registry, y: Sys, a: Act, readable: bool)
    requires LifeInv(reg, y) && Serving(y) && Leaves(a) && Act1(reg, y, a).phase.Down?
    ensures var z := Act1(reg, Act1(reg, y, a), Start(readable));
            && (z.phase == Consuming(true) <==> readable && (y.promised || y.stale))
            && (Durable(reg, z) <==> y.promised || DirtyOnDisk(reg, y.store))
  {
    LeavingIsDurableIff(reg, y, a);
    LeavingKeeps(reg, y, a);
    StartKeeps(reg, Act1(reg, y, a), readable);
    if y.promised {
      PromisedIsOnDisk(reg, y);
    }
  }

  // ---- failed flushes ------------------------------------------------------

  /** A shutdown pass that failed, and all that can follow before another daemon serves. */
  ghost predicate Withheld(y: Sys) {
    && y.marker != File(CLEAN_MARKER)
    && ((y.phase.Flushing? && y.phase.failed) || y.phase.Done? || y.phase.Down? || y.phase.Consuming?)
  }

  lemma {:induction false} WithheldStays(reg: Registry, y: Sys, acts: seq<Act>)
    requires Withheld(y)
    requires forall i :: 0 <= i < |acts| ==> !acts[i].Consume? && !acts[i].ConsumeFails?
    ensures Withheld(Live(reg, y, acts))
  {
    if acts != [] {
      var n := |acts| - 1;
      WithheldStays(reg, y, acts[..n]);
      assert !acts[n].Consume? && !acts[n].ConsumeFails?;
    }
  }

  lemma FailedFlushIsWithheld(reg: Registry, y: Sys, faults: set<Id>)
    requires StoreInv(y.store, reg) && MarkerInv(y) && !y.stale && y.phase.Flushing? && y.phase.ids != []
    requires y.phase.ids[0] in y.store.dirty && y.phase.ids[0] in faults
    ensures Withheld(Act1(reg, y, FlushNext(faults)))
  {
    FlushIs(y.store, reg, y.phase.ids[0], faults);
  }

  /**
   * Once a flush of the shutdown pass fails, no complete marker exists until another daemon serves,
   * unless an older one was left unremoved: not for any crash, exit, client call or start in between.
   */
  lemma FailedFlushWithholds(reg: Registry, y: Sys, faults: set<Id>, acts: seq<Act>)
    requires LifeInv(reg, y) && !y.stale && y.phase.Flushing? && y.phase.ids != []
    requires y.phase.ids[0] in y.store.dirty && y.phase.ids[0] in faults
    requires forall i :: 0 <= i < |acts| ==> !acts[i].Consume? && !acts[i].ConsumeFails?
    ensures Live(reg, Act1(reg, y, FlushNext(faults)), acts).marker != File(CLEAN_MARKER)
  {
    FailedFlushIsWithheld(reg, y, faults);
    WithheldStays(reg, Act1(reg, y, FlushNext(faults)), acts);
  }

  /**
   * The immediately preceding process need not have shut down: one that dies between reading the
   * marker and removing it leaves it for its successor, which is shallow again, and rightly.
   */
  lemma CrashBeforeConsumeIsShallowAgain(reg: Registry, y: Sys)
    requires LifeInv(reg, y) && y.phase.Down? && y.promised
    ensures var z := Act1(reg, Act1(reg, Act1(reg, y, Start(true)), Crash), Start(true));
            z.phase == Consuming(true) && Durable(reg, z)
  {
    RebootInv(reg, y.store);
  }

  /** A marker that could not be removed, one deferred apply, a crash: the next start trusts a lie. */
  function UnsafeLife(reg: Registry, y: Sys, e: Event): Sys {
    var served := Act1(reg, Act1(reg, y, Start(true)), ConsumeFails);
    Act1(reg, Act1(reg, Act1(reg, served, Call(e)), Crash), Start(true))
  }

  lemma FailedRemovalIsUnsafe(reg: Registry, y: Sys, p: Project, merged: GraphState)
    requires LifeInv(reg, y) && y.phase.Down? && y.promised && Registered(reg, p)
    requires Erase(merged) != Load(y.store.disk, p.outputDir)
    ensures var z := UnsafeLife(reg, y, Event(Record(p, merged, Defer), {}));
            z.phase == Consuming(true) && !Durable(reg, z)
  {
    RebootInv(reg, y.store);
    var served := Serve(reg, y.(stale := true));
    assert Act1(reg, Act1(reg, y, Start(true)), ConsumeFails) == served by {
      StartUnremoved(reg, y);
    }
    var called := Act1(reg, served, Call(Event(Record(p, merged, Defer), {})));
    UnsafeCall(reg, served, p, merged);
    CrashThenStart(reg, called);
    assert called.plain[p.id] == merged && called.store.disk == y.store.disk;
  }

  lemma StartUnremoved(reg: Registry, y: Sys)
    requires y.phase.Down? && y.marker == File(CLEAN_MARKER)
    ensures Act1(reg, Act1(reg, y, Start(true)), ConsumeFails) == Serve(reg, y.(stale := true))
  {
  }

  lemma CrashThenStart(reg: Registry, y: Sys)
    requires y.marker == File(CLEAN_MARKER)
    ensures var z := Act1(reg, Act1(reg, y, Crash), Start(true));
            z.phase == Consuming(true) && z.store.disk == y.store.disk && z.plain == y.plain
  {
  }

  /** A deferred apply on a freshly started store reaches the plain map and not the disk. */
  lemma UnsafeCall(reg: Registry, y: Sys, p: Project, merged: GraphState)
    requires y.phase.Up? && y.store == Reboot(y.store) && 1 <= y.store.cache.capacity
    ensures var z := Act1(reg, y, Call(Event(Record(p, merged, Defer), {})));
            && z.phase.Up? && z.marker == y.marker && z.store.disk == y.store.disk
            && z.plain == y.plain[p.id := merged]
  {
    DeferOnFresh(y.store, p, merged);
  }

  lemma DeferOnFresh(s: Store, p: Project, merged: GraphState)
    requires s == Reboot(s) && 1 <= s.cache.capacity
    ensures RecordApply(s, p, merged, Defer, {}).0.disk == s.disk
  {
    RecordIsAbsorb(s, p, merged, Defer, {});
    AbsorbIs(BeforeInsert(s, p, merged, Defer), p.id, merged, true, {});
  }
}
