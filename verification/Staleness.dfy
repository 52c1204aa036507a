/** How long a project can stay dirty when the cadence driver keeps polling. */
module Staleness {
  import opened Prelude
  import opened Graph
  import opened CacheSpec
  import opened FlushSpec
  import opened StoreSteps
  import opened StoreOps
  import opened StoreRuns

  /** Flushing a list closes exactly the windows of the listed projects whose write succeeds. */
  lemma {:induction false} FlushEachClears(s: Store, reg: Registry, ids: seq<Id>, faults: set<Id>, x: Id)
    requires StoreInv(s, reg)
    ensures var t := FlushEach(s, ids, faults).0;
            && (x in t.dirty <==> x in s.dirty && (x !in ids || x in faults))
            && (x in t.dirty ==> t.dirty[x] == s.dirty[x])
            && t.now == s.now && t.cfg == s.cfg
    decreases |ids|
  {
    if ids != [] {
      FlushIs(s, reg, ids[0], faults);
      FlushKeeps(s, reg, ids[0], faults);
      FlushEachClears(FlushProject(s, ids[0], faults).0, reg, ids[1..], faults, x);
    }
  }

  /** A dirty window after a call: the old one, the old one extended to now, or a new one. */
  predicate WindowFrom(before: map<Id, Dirty>, now: Time, id: Id, d: Dirty) {
    || (id in before && d == before[id])
    || (d.lastApply == now && d.firstDirty == if id in before then before[id].firstDirty else now)
  }

  ghost predicate WindowsFrom(s: Store, t: Store) {
    && t.cfg == s.cfg && t.now >= s.now
    && forall id :: id in t.dirty ==> WindowFrom(s.dirty, s.now, id, t.dirty[id])
  }

  lemma AbsorbWindows(s: Store, id: Id, state: GraphState, dirty: bool, faults: set<Id>)
    requires CacheInv(s.cache) && forall x :: x in s.cache.graphs ==> x in s.outDirs
    ensures var t := Absorb(s, id, state, dirty, faults).0;
            && t.cfg == s.cfg && t.now == s.now
            && forall x :: x in t.dirty ==> x in s.dirty && t.dirty[x] == s.dirty[x]
  {
    AbsorbIs(s, id, state, dirty, faults);
    InsertEvicts(s.cache, id, state, dirty);
  }

  lemma ReadWindows(s: Store, reg: Registry, p: Project, faults: set<Id>)
    requires StoreInv(s, reg) && Registered(reg, p)
    ensures WindowsFrom(s, StateOf(s, p, faults).0)
  {
    if p.id !in s.cache.graphs && p.id !in faults {
      MissIsAbsorb(s, reg, p, faults);
      RememberKeeps(s, reg, p);
      AbsorbWindows(Remember(s, p), p.id, Load(s.disk, p.outputDir), false, faults);
    }
  }

  lemma RecordWindows(s: Store, reg: Registry, p: Project, merged: GraphState, lane: Persistence, faults: set<Id>)
    requires StoreInv(s, reg) && Registered(reg, p)
    ensures WindowsFrom(s, RecordApply(s, p, merged, lane, faults).0)
  {
    RecordIsAbsorb(s, p, merged, lane, faults);
    if TakesUp(p, lane, faults) {
      BeforeInsertReady(s, reg, p, merged, lane);
      AbsorbWindows(BeforeInsert(s, p, merged, lane), p.id, merged, lane == Defer, faults);
    }
  }

  lemma FlushEachWindows(s: Store, reg: Registry, ids: seq<Id>, faults: set<Id>)
    requires StoreInv(s, reg)
    ensures WindowsFrom(s, FlushEach(s, ids, faults).0)
  {
    FlushEachClears(s, reg, ids, faults, "");
    forall x {
      FlushEachClears(s, reg, ids, faults, x);
    }
  }

  lemma StepWindows(s: Store, reg: Registry, e: Event)
    requires StoreInv(s, reg) && Legal(s, reg, e)
    ensures WindowsFrom(s, Step(s, e).0)
  {
    match e.action
    case Read(p) => ReadWindows(s, reg, p, e.faults);
    case Record(p, merged, lane) => RecordWindows(s, reg, p, merged, lane, e.faults);
    case FlushOne(id) => FlushIs(s, reg, id, e.faults);
    case FlushMany(ids) => FlushEachWindows(s, reg, ids, e.faults);
    case _ =>
  }

  /** A `flush_due` that does its duty by `id`: it visits it if it is due, and its write, if any, succeeds. */
  ghost predicate IsPoll(s: Store, e: Event, id: Id) {
    e.action.FlushMany? && (id in Due(s) ==> id in e.action.ids) && (id in e.action.ids ==> id !in e.faults)
  }

  /** When the run last polled for `id`, or its start. */
  ghost function LastPoll(s: Store, es: seq<Event>, id: Id): Time {
    if es == [] then s.now
    else
      var front, last := es[..|es| - 1], es[|es| - 1];
      if IsPoll(Run(s, front), last, id) then Run(s, front).now else LastPoll(s, front, id)
  }

  /** Seen from `since`, the project's open window was short of both triggers, or opened or extended later. */
  ghost predicate YoungAt(t: Store, since: Time, id: Id) {
    id in t.dirty ==>
      && t.dirty[id].firstDirty + t.cfg.maxDirtyAge >= since
      && t.dirty[id].lastApply + t.cfg.quiescence >= since
  }

  /** After a poll the project is not due, whatever became of the others. */
  lemma PollIsYoung(s: Store, reg: Registry, e: Event, id: Id)
    requires StoreInv(s, reg) && IsPoll(s, e, id)
    ensures YoungAt(Step(s, e).0, s.now, id) && id !in Due(Step(s, e).0)
  {
    FlushEachClears(s, reg, e.action.ids, e.faults, id);
  }

  lemma {:induction false} RunIsYoung(s: Store, reg: Registry, es: seq<Event>, id: Id)
    requires StoreInv(s, reg) && AllLegal(s, reg, es) && id !in s.dirty
    ensures YoungAt(Run(s, es), LastPoll(s, es, id), id) && LastPoll(s, es, id) <= Run(s, es).now
  {
    if es != [] {
      var n := |es| - 1;
      var front, last := es[..n], es[n];
      var prev := Run(s, front);
      RunIsYoung(s, reg, front, id);
      RunKeepsInv(s, reg, front);
      StepWindows(prev, reg, last);
      if IsPoll(prev, last, id) {
        PollIsYoung(prev, reg, last, id);
      }
    }
  }

  /**
   * Bounded staleness, project by project: whenever the last poll that did its duty by a project was
   * at most `period` ago, the project has been dirty no longer than the cap plus the period, nor than
   * the quiescence window plus the period since its last apply, however much it churned and whichever
   * other projects' writes fail.
   */
  lemma BoundedStaleness(s: Store, reg: Registry, es: seq<Event>, period: Time, id: Id)
    requires StoreInv(s, reg) && AllLegal(s, reg, es) && id !in s.dirty
    requires Run(s, es).now - LastPoll(s, es, id) <= period && id in Run(s, es).dirty
    ensures var t := Run(s, es);
            && t.now - t.dirty[id].firstDirty <= s.cfg.maxDirtyAge + period
            && t.now - t.dirty[id].lastApply <= s.cfg.quiescence + period
  {
    RunIsYoung(s, reg, es, id);
    RunConfig(s, reg, es);
  }

  lemma {:induction false} RunConfig(s: Store, reg: Registry, es: seq<Event>)
    requires StoreInv(s, reg) && AllLegal(s, reg, es)
    ensures Run(s, es).cfg == s.cfg
  {
    if es != [] {
      var n := |es| - 1;
      RunConfig(s, reg, es[..n]);
      RunKeepsInv(s, reg, es[..n]);
      StepWindows(Run(s, es[..n]), reg, es[n]);
    }
  }
}
