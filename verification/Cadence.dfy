/** The dirty windows and the scheduled flush, told from a run's calls and the clock alone. */
module Cadence {
  import opened Prelude
  import opened Graph
  import opened CacheSpec
  import opened FlushSpec
  import opened StoreSteps
  import opened StoreOps
  import opened StoreRuns
  import opened StoreLaws
  import opened Staleness
  import opened Applies

  /** What a clock that read `start` reads after a run. */
  function Clock(start: Time, es: seq<Event>): Time {
    if es == [] then start
    else
      var e := es[|es| - 1];
      Clock(start, es[..|es| - 1]) + if e.action.Advance? then e.action.elapsed else 0
  }

  /** A producer's apply of `id`. */
  predicate Defers(e: Event, id: Id) {
    e.action.Record? && e.action.p.id == id && e.action.lane == Defer
  }

  /** A client's apply of `id` or a flush that visits it, its write succeeding. */
  predicate Saves(e: Event, id: Id) {
    id !in e.faults &&
    match e.action
    case Record(p, _, lane) => p.id == id && lane == Flush
    case FlushOne(x) => x == id
    case FlushMany(ids) => id in ids
    case _ => false
  }

  /** A producer's apply of `id` has not been saved since: no later call saved it, and none paged it out. */
  ghost predicate Unsaved(s: Store, es: seq<Event>, id: Id) {
    if es == [] then id in s.dirty
    else
      var front, last := es[..|es| - 1], es[|es| - 1];
      Defers(last, id) || (Unsaved(s, front, id) && !Saves(last, id) && id in Run(s, es).cache.graphs)
  }

  /** When the first apply of `id` since it was last saved was taken up. */
  ghost function FirstUnsaved(s: Store, es: seq<Event>, id: Id): Time
    requires Unsaved(s, es, id)
  {
    if es == [] then s.dirty[id].firstDirty
    else
      var front := es[..|es| - 1];
      if Unsaved(s, front, id) then FirstUnsaved(s, front, id) else Clock(s.now, front)
  }

  /** When the last producer's apply of `id` was, 0 if there was none. */
  function LastDeferred(s: Store, es: seq<Event>, id: Id): Time {
    if es == [] then if id in s.dirty then s.dirty[id].lastApply else 0
    else
      var front := es[..|es| - 1];
      if Defers(es[|es| - 1], id) then Clock(s.now, front) else LastDeferred(s, front, id)
  }

  // ---- one call ------------------------------------------------------------

  /** `id`'s window after a call: opened or moved to now by a producer's apply, else closed or as it was. */
  ghost predicate WindowAfter(s: Store, e: Event, t: Store, id: Id) {
    && (id in t.dirty <==> Defers(e, id) || (id in s.dirty && !Saves(e, id) && id in t.cache.graphs))
    && (id in t.dirty ==>
          t.dirty[id] == Dirty(if id in s.dirty then s.dirty[id].firstDirty else s.now,
                               if Defers(e, id) then s.now else s.dirty[id].lastApply))
    && t.now == s.now + if e.action.Advance? then e.action.elapsed else 0
  }

  lemma PagedOut(s: Store, placed: Cache, v: Id, faults: set<Id>)
    requires v in placed.graphs && v in s.outDirs && placed.order != []
    ensures var t := PageOut(s, placed, v, faults);
            t.dirty == s.dirty - {v} && t.cache.graphs == placed.graphs - {v} && t.now == s.now
  {
  }

  /** An insert closes its victim's window and no other. */
  lemma AbsorbWindow(s: Store, id: Id, state: GraphState, dirty: bool, faults: set<Id>, x: Id)
    requires CacheInv(s.cache) && forall y :: y in s.cache.graphs ==> y in s.outDirs
    ensures var t := Absorb(s, id, state, dirty, faults).0;
            && t.dirty == (if Victim(s.cache, id).Some? then s.dirty - {Victim(s.cache, id).value} else s.dirty)
            && (x in t.cache.graphs <==> (x in s.cache.graphs || x == id) && Victim(s.cache, id) != Some(x))
            && t.now == s.now
  {
    AbsorbIs(s, id, state, dirty, faults);
    InsertEvicts(s.cache, id, state, dirty);
    if Victim(s.cache, id).Some? {
      PagedOut(s, Place(s.cache, id, state, dirty), Victim(s.cache, id).value, faults);
    }
  }

  lemma ReadWindow(s: Store, reg: Registry, e: Event, id: Id)
    requires StoreInv(s, reg) && Legal(s, reg, e) && e.action.Read?
    ensures WindowAfter(s, e, Step(s, e).0, id)
  {
    var p := e.action.p;
    assert Settled(s, reg, id);
    if p.id !in s.cache.graphs && p.id !in e.faults {
      MissIsAbsorb(s, reg, p, e.faults);
      RememberKeeps(s, reg, p);
      AbsorbWindow(Remember(s, p), p.id, Load(s.disk, p.outputDir), false, e.faults, id);
    }
  }

  /** A taken-up apply from its window on: the insert has yet to page anything out. */
  lemma TakenWindow(s: Store, reg: Registry, p: Project, merged: GraphState, lane: Persistence, faults: set<Id>, id: Id)
    requires StoreInv(s, reg) && Registered(reg, p)
    ensures var b := BeforeInsert(s, p, merged, lane);
            var t := Absorb(b, p.id, merged, lane == Defer, faults).0;
            && t.now == s.now
            && (id in t.dirty <==> id in b.dirty && id in t.cache.graphs)
            && (id in t.dirty ==> t.dirty[id] == b.dirty[id])
  {
    var b := BeforeInsert(s, p, merged, lane);
    assert Settled(s, reg, id);
    BeforeInsertReady(s, reg, p, merged, lane);
    AbsorbWindow(b, p.id, merged, lane == Defer, faults, id);
    InsertEvicts(s.cache, p.id, merged, lane == Defer);
  }

  lemma RecordWindow(s: Store, reg: Registry, e: Event, id: Id)
    requires StoreInv(s, reg) && Legal(s, reg, e) && e.action.Record?
    ensures WindowAfter(s, e, Step(s, e).0, id)
  {
    var p, merged, lane := e.action.p, e.action.merged, e.action.lane;
    RecordIsAbsorb(s, p, merged, lane, e.faults);
    if TakesUp(p, lane, e.faults) {
      TakenWindow(s, reg, p, merged, lane, e.faults, id);
      RecordedIsResident(s, reg, p, merged, lane, e.faults);
    } else {
      assert Settled(s, reg, id);
    }
  }

  lemma RecordedIsResident(s: Store, reg: Registry, p: Project, merged: GraphState, lane: Persistence, faults: set<Id>)
    requires StoreInv(s, reg) && Registered(reg, p)
    ensures p.id in Absorb(BeforeInsert(s, p, merged, lane), p.id, merged, lane == Defer, faults).0.cache.graphs
  {
    BeforeInsertReady(s, reg, p, merged, lane);
    AbsorbOwn(BeforeInsert(s, p, merged, lane), p.id, merged, lane == Defer, faults);
  }

  lemma FlushWindow(s: Store, reg: Registry, e: Event, id: Id)
    requires StoreInv(s, reg) && Legal(s, reg, e) && e.action.FlushOne?
    ensures WindowAfter(s, e, Step(s, e).0, id)
  {
    assert Settled(s, reg, id);
    FlushIs(s, reg, e.action.id, e.faults);
  }

  lemma WalkWindow(s: Store, reg: Registry, e: Event, id: Id)
    requires StoreInv(s, reg) && Legal(s, reg, e) && e.action.FlushMany?
    ensures WindowAfter(s, e, Step(s, e).0, id)
  {
    FlushEachClears(s, reg, e.action.ids, e.faults, id);
    FlushEachKeeps(s, reg, e.action.ids, e.faults);
    assert Settled(Step(s, e).0, reg, id);
  }

  lemma StepWindow(s: Store, reg: Registry, e: Event, id: Id)
    requires StoreInv(s, reg) && Legal(s, reg, e)
    ensures WindowAfter(s, e, Step(s, e).0, id)
  {
    match e.action
    case Read(_) => ReadWindow(s, reg, e, id);
    case Record(_, _, _) => RecordWindow(s, reg, e, id);
    case FlushOne(_) => FlushWindow(s, reg, e, id);
    case FlushMany(_) => WalkWindow(s, reg, e, id);
    case _ => assert Settled(s, reg, id);
  }

  // ---- every run -----------------------------------------------------------

  /**
   * In every reachable store, whichever writes failed, a window is open exactly for the projects with
   * an apply not saved since; it runs from the first of those applies to the last.
   */
  lemma {:induction false} WindowsAreTheRuns(s: Store, reg: Registry, es: seq<Event>, id: Id)
    requires StoreInv(s, reg) && AllLegal(s, reg, es)
    ensures var t := Run(s, es);
            && t.now == Clock(s.now, es)
            && (id in t.dirty <==> Unsaved(s, es, id))
            && (id in t.dirty ==> t.dirty[id] == Dirty(FirstUnsaved(s, es, id), LastDeferred(s, es, id)))
  {
    if es != [] {
      var n := |es| - 1;
      WindowsAreTheRuns(s, reg, es[..n], id);
      RunKeepsInv(s, reg, es[..n]);
      StepWindow(Run(s, es[..n]), reg, es[n], id);
    }
  }

  // ---- polls ---------------------------------------------------------------

  /** The walk of a `flush_due`: the due projects, each once, in whatever order. */
  ghost predicate Polls(s: Store, e: Event) {
    e.action.FlushMany? && NoDup(e.action.ids) && Elements(e.action.ids) == Due(s)
  }

  /** The project's last apply is a quiescence window ago, or its first unsaved one a dirty-age cap. */
  ghost predicate Ripe(s: Store, es: seq<Event>, id: Id)
    requires Unsaved(s, es, id)
  {
    var now := Clock(s.now, es);
    now - LastDeferred(s, es, id) >= s.cfg.quiescence || now - FirstUnsaved(s, es, id) >= s.cfg.maxDirtyAge
  }

  lemma DueIsRipe(s: Store, reg: Registry, es: seq<Event>, id: Id)
    requires StoreInv(s, reg) && AllLegal(s, reg, es)
    ensures id in Due(Run(s, es)) <==> Unsaved(s, es, id) && Ripe(s, es, id)
  {
    WindowsAreTheRuns(s, reg, es, id);
    RunConfig(s, reg, es);
  }

  /**
   * A poll flushes exactly the ripe projects: each that is unsaved and ripe is saved unless its write
   * fails, every other keeps its window, and where none is ripe the poll does nothing at all.
   */
  lemma PollFlushesTheRipe(s: Store, reg: Registry, es: seq<Event>, poll: Event, id: Id)
    requires StoreInv(s, reg) && AllLegal(s, reg, es) && Polls(Run(s, es), poll)
    ensures var t, u := Run(s, es), Step(Run(s, es), poll).0;
            && (id in t.dirty && id !in u.dirty <==> Unsaved(s, es, id) && Ripe(s, es, id) && id !in poll.faults)
            && (id in u.dirty ==> id in t.dirty && u.dirty[id] == t.dirty[id])
            && (id in reg && id in t.dirty && id !in u.dirty ==> Load(u.disk, reg[id]) == Erase(Latest(t, reg, id)))
            && ((forall x :: Unsaved(s, es, x) ==> !Ripe(s, es, x)) ==> u == t)
  {
    var t := Run(s, es);
    RunKeepsInv(s, reg, es);
    DueIsRipe(s, reg, es, id);
    FlushEachClears(t, reg, poll.action.ids, poll.faults, id);
    assert id in poll.action.ids <==> id in Elements(poll.action.ids);
    WindowsAreTheRuns(s, reg, es, id);
    if id in reg {
      PollSaves(t, reg, poll, id);
    }
    if poll.action.ids != [] {
      var x := poll.action.ids[0];
      assert x in Elements(poll.action.ids);
      DueIsRipe(s, reg, es, x);
    }
  }

  /** A project whose window a walk closes is on disk as it is. */
  lemma PollSaves(s: Store, reg: Registry, poll: Event, id: Id)
    requires StoreInv(s, reg) && poll.action.FlushMany? && id in reg
    ensures var t := Step(s, poll).0; id !in t.dirty ==> Load(t.disk, reg[id]) == Erase(Latest(s, reg, id))
  {
    StepKeepsInv(s, reg, poll);
    FlushEachKeeps(s, reg, poll.action.ids, poll.faults);
    var t := Step(s, poll).0;
    if id !in t.dirty {
      CleanIsPersisted(t, reg, id);
    }
  }

  /**
   * Bounded staleness over a run's own calls: with a poll for the project at most `period` ago, its
   * first unsaved apply is no older than the cap plus the period, its last than quiescence plus it.
   */
  lemma UnsavedIsBounded(s: Store, reg: Registry, es: seq<Event>, period: Time, id: Id)
    requires StoreInv(s, reg) && AllLegal(s, reg, es) && id !in s.dirty && Unsaved(s, es, id)
    requires Clock(s.now, es) - LastPoll(s, es, id) <= period
    ensures Clock(s.now, es) - FirstUnsaved(s, es, id) <= s.cfg.maxDirtyAge + period
    ensures Clock(s.now, es) - LastDeferred(s, es, id) <= s.cfg.quiescence + period
  {
    WindowsAreTheRuns(s, reg, es, id);
    BoundedStaleness(s, reg, es, period, id);
  }

  // ---- bursts among polls --------------------------------------------------

  /** Producer applies of one project, the clock moving, and polls anywhere among them. */
  ghost predicate PolledBurst(s: Store, p: Project, es: seq<Event>) {
    es != [] ==>
      var front, last := es[..|es| - 1], es[|es| - 1];
      && PolledBurst(s, p, front)
      && (last.action.Advance? || (Defers(last, p.id) && last.action.p == p) || Polls(Run(s, front), last))
  }

  /** At no time of the run was the last apply a quiescence window ago. */
  predicate Brisk(s: Store, es: seq<Event>, id: Id) {
    && Clock(s.now, es) - LastDeferred(s, es, id) < s.cfg.quiescence
    && (es != [] ==> Brisk(s, es[..|es| - 1], id))
  }

  lemma {:induction false} PolledBurstLegal(s: Store, reg: Registry, p: Project, es: seq<Event>)
    requires Registered(reg, p) && PolledBurst(s, p, es)
    ensures AllLegal(s, reg, es)
  {
    if es != [] {
      PolledBurstLegal(s, reg, p, es[..|es| - 1]);
    }
  }

  /** A walk that does not visit a project leaves its checkpoint alone. */
  lemma {:induction false} WalkSpares(s: Store, reg: Registry, ids: seq<Id>, faults: set<Id>, id: Id)
    requires StoreInv(s, reg) && id in reg && id !in ids
    ensures Load(FlushEach(s, ids, faults).0.disk, reg[id]) == Load(s.disk, reg[id])
    decreases |ids|
  {
    if ids != [] {
      FlushIs(s, reg, ids[0], faults);
      FlushKeeps(s, reg, ids[0], faults);
      WalkSpares(FlushProject(s, ids[0], faults).0, reg, ids[1..], faults, id);
    }
  }

  /** `id` is still unsaved since when it was, and no write of it was made. */
  ghost predicate StillUnsaved(s: Store, t: Store, reg: Registry, id: Id)
    requires id in s.dirty && id in reg
  {
    && id in t.dirty && t.dirty[id].firstDirty == s.dirty[id].firstDirty
    && Load(t.disk, reg[id]) == Load(s.disk, reg[id])
    && (s.dirty.Keys == {id} ==> t.dirty.Keys == {id} && t.writes == s.writes && t.disk == s.disk)
  }

  lemma ApplySpares(s: Store, t: Store, reg: Registry, p: Project, e: Event)
    requires StoreInv(t, reg) && Registered(reg, p) && p.id in s.dirty && StillUnsaved(s, t, reg, p.id)
    requires Defers(e, p.id) && e.action.p == p
    ensures StillUnsaved(s, Step(t, e).0, reg, p.id)
  {
    assert Settled(t, reg, p.id);
    DeferResident(t, reg, p, e.action.merged, e.faults);
  }

  lemma PollSpares(s: Store, t: Store, reg: Registry, poll: Event, id: Id)
    requires StoreInv(t, reg) && id in reg && id in s.dirty && StillUnsaved(s, t, reg, id)
    requires Polls(t, poll) && id !in Due(t)
    ensures StillUnsaved(s, Step(t, poll).0, reg, id)
  {
    var ids := poll.action.ids;
    assert id !in Elements(ids);
    FlushEachClears(t, reg, ids, poll.faults, id);
    WalkSpares(t, reg, ids, poll.faults, id);
    assert ids != [] ==> ids[0] in Elements(ids) && ids[0] in t.dirty.Keys;
  }

  lemma NotRipe(s: Store, reg: Registry, es: seq<Event>, id: Id)
    requires StoreInv(s, reg) && AllLegal(s, reg, es) && id in s.dirty && id in Run(s, es).dirty
    requires Run(s, es).dirty[id].firstDirty == s.dirty[id].firstDirty
    requires Brisk(s, es, id) && Clock(s.now, es) - s.dirty[id].firstDirty < s.cfg.maxDirtyAge
    ensures id !in Due(Run(s, es))
  {
    WindowsAreTheRuns(s, reg, es, id);
    RunConfig(s, reg, es);
  }

  /**
   * A burst whose applies follow each other within the quiescence window and which is shorter than the
   * cap is not written, wherever polls fall in it; if nothing else is unsaved, nothing is written at all.
   */
  lemma {:induction false} PolledBurstWritesNothing(s: Store, reg: Registry, p: Project, es: seq<Event>)
    requires StoreInv(s, reg) && Registered(reg, p) && p.id in s.dirty
    requires PolledBurst(s, p, es) && Brisk(s, es, p.id)
    requires Clock(s.now, es) - s.dirty[p.id].firstDirty < s.cfg.maxDirtyAge
    ensures StillUnsaved(s, Run(s, es), reg, p.id)
  {
    if es != [] {
      var front := es[..|es| - 1];
      PolledBurstWritesNothing(s, reg, p, front);
      PolledBurstLegal(s, reg, p, front);
      RunKeepsInv(s, reg, front);
      var t, last := Run(s, front), es[|es| - 1];
      if last.action.Record? {
        ApplySpares(s, t, reg, p, last);
      } else if last.action.FlushMany? {
        NotRipe(s, reg, front, p.id);
        PollSpares(s, t, reg, last, p.id);
      }
    }
  }
}
