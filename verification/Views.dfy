/** Query views built outside the cache lock and published later. */
module Views {
  import opened Prelude
  import opened Graph
  import opened CacheSpec
  import opened FlushSpec
  import opened StoreSteps
  import opened StoreOps
  import opened StoreRuns

  /** After a call `id` has the same state object, none, or one made during the call. */
  ghost predicate EntryFrom(s: Store, t: Store, id: Id) {
    && s.cache.heap <= t.cache.heap
    && (id in t.cache.graphs ==>
          || (id in s.cache.graphs && t.cache.graphs[id].state == s.cache.graphs[id].state)
          || t.cache.graphs[id].state.addr >= |s.cache.heap|)
  }

  lemma AbsorbEntry(s: Store, id: Id, state: GraphState, dirty: bool, faults: set<Id>, x: Id)
    requires CacheInv(s.cache) && forall y :: y in s.cache.graphs ==> y in s.outDirs
    ensures EntryFrom(s, Absorb(s, id, state, dirty, faults).0, x)
  {
    AbsorbIs(s, id, state, dirty, faults);
    InsertEvicts(s.cache, id, state, dirty);
  }

  lemma {:induction false} FlushEachEntry(s: Store, reg: Registry, ids: seq<Id>, faults: set<Id>, x: Id)
    requires StoreInv(s, reg)
    ensures var t := FlushEach(s, ids, faults).0;
            t.cache.heap == s.cache.heap && t.cache.graphs == s.cache.graphs
    decreases |ids|
  {
    if ids != [] {
      FlushIs(s, reg, ids[0], faults);
      FlushKeeps(s, reg, ids[0], faults);
      FlushEachEntry(FlushProject(s, ids[0], faults).0, reg, ids[1..], faults, x);
    }
  }

  lemma ReadEntry(s: Store, reg: Registry, p: Project, faults: set<Id>, x: Id)
    requires StoreInv(s, reg) && Registered(reg, p)
    ensures EntryFrom(s, StateOf(s, p, faults).0, x)
  {
    if p.id !in s.cache.graphs && p.id !in faults {
      MissIsAbsorb(s, reg, p, faults);
      RememberKeeps(s, reg, p);
      AbsorbEntry(Remember(s, p), p.id, Load(s.disk, p.outputDir), false, faults, x);
    }
  }

  lemma RecordEntry(s: Store, reg: Registry, p: Project, merged: GraphState, lane: Persistence,
                    faults: set<Id>, x: Id)
    requires StoreInv(s, reg) && Registered(reg, p)
    ensures EntryFrom(s, RecordApply(s, p, merged, lane, faults).0, x)
  {
    RecordIsAbsorb(s, p, merged, lane, faults);
    if TakesUp(p, lane, faults) {
      BeforeInsertReady(s, reg, p, merged, lane);
      AbsorbEntry(BeforeInsert(s, p, merged, lane), p.id, merged, lane == Defer, faults, x);
    }
  }

  /** Serving and publishing views leave every state object where it was. */
  lemma ViewStepEntry(s: Store, e: Event, x: Id)
    requires e.action.ServeView? || e.action.Publish? || e.action.Advance?
    ensures EntryFrom(s, Step(s, e).0, x)
  {
  }

  lemma StepEntry(s: Store, reg: Registry, e: Event, x: Id)
    requires StoreInv(s, reg) && Legal(s, reg, e)
    ensures EntryFrom(s, Step(s, e).0, x)
  {
    match e.action
    case Read(p) => ReadEntry(s, reg, p, e.faults, x);
    case Record(p, merged, lane) => RecordEntry(s, reg, p, merged, lane, e.faults, x);
    case FlushOne(id) => FlushIs(s, reg, id, e.faults);
    case FlushMany(ids) => FlushEachEntry(s, reg, ids, e.faults, x);
    case _ => ViewStepEntry(s, e, x);
  }

  // ---- what a builder holds ------------------------------------------------

  /** The state object an event answered with, if it was a successful read. */
  predicate Answers(s: Store, e: Event, of: Arc) {
    Step(s, e).1 == StateReply(Ok(of))
  }

  /** Some read of the run answered with `of`. */
  predicate AnsweredIn(s: Store, es: seq<Event>, of: Arc) {
    es != [] &&
    var front := es[..|es| - 1];
    (AnsweredIn(s, front, of) || Answers(Run(s, front), es[|es| - 1], of))
  }

  /** Every published view was built from the `of` it is published under, one an earlier read answered. */
  ghost predicate Sourced(s: Store, es: seq<Event>) {
    es != [] ==>
      var front, last := es[..|es| - 1], es[|es| - 1];
      && Sourced(s, front)
      && (last.action.Publish? ==> last.action.view.of == last.action.of && AnsweredIn(s, front, last.action.of))
  }

  ghost predicate AllRegistered(reg: Registry, es: seq<Event>) {
    forall i :: 0 <= i < |es| ==>
                  && (es[i].action.Read? ==> Registered(reg, es[i].action.p))
                  && (es[i].action.Record? ==> Registered(reg, es[i].action.p))
  }

  lemma AnswerIsGenuine(s: Store, reg: Registry, e: Event, of: Arc)
    requires StoreInv(s, reg) && Legal(s, reg, e) && Answers(s, e, of)
    ensures Genuine(Step(s, e).0.cache, of)
  {
    var p := e.action.p;
    StateOfKeeps(s, reg, p, e.faults);
    StepKeepsInv(s, reg, e);
    if p.id in s.cache.graphs {
      assert Addressed(s.cache);
      StepEntry(s, reg, e, p.id);
    } else {
      RememberKeeps(s, reg, p);
      MissIsAbsorb(s, reg, p, e.faults);
      AbsorbOwn(Remember(s, p), p.id, Load(s.disk, p.outputDir), false, e.faults);
    }
  }

  lemma GenuineStep(s: Store, reg: Registry, e: Event, of: Arc)
    requires StoreInv(s, reg) && Legal(s, reg, e) && Genuine(s.cache, of)
    ensures Genuine(Step(s, e).0.cache, of)
  {
    StepEntry(s, reg, e, "");
  }

  lemma GenuineNext(s: Store, reg: Registry, es: seq<Event>, of: Arc)
    requires StoreInv(s, reg) && es != [] && AllLegal(s, reg, es) && Genuine(Run(s, es[..|es| - 1]).cache, of)
    ensures Genuine(Run(s, es).cache, of)
  {
    RunKeepsInv(s, reg, es[..|es| - 1]);
    GenuineStep(Run(s, es[..|es| - 1]), reg, es[|es| - 1], of);
  }

  lemma {:induction false} GenuineStays(s: Store, reg: Registry, es: seq<Event>, k: nat, of: Arc)
    requires StoreInv(s, reg) && AllLegal(s, reg, es) && k <= |es| && Genuine(Run(s, es[..k]).cache, of)
    ensures Genuine(Run(s, es).cache, of)
    decreases |es|
  {
    if k < |es| {
      var front := es[..|es| - 1];
      assert Genuine(Run(s, front[..k]).cache, of) by {
        assert front[..k] == es[..k];
      }
      GenuineStays(s, reg, front, k, of);
      GenuineNext(s, reg, es, of);
    } else {
      assert es[..k] == es;
    }
  }

  lemma {:induction false} LegalPrefix(s: Store, reg: Registry, es: seq<Event>, k: nat)
    requires AllLegal(s, reg, es) && k <= |es|
    ensures AllLegal(s, reg, es[..k])
    decreases |es|
  {
    if k < |es| {
      assert es[..|es| - 1][..k] == es[..k];
      LegalPrefix(s, reg, es[..|es| - 1], k);
    } else {
      assert es[..k] == es;
    }
  }

  /** Publishing only what reads answered is all the store's invariant asks of its callers. */
  lemma {:induction false} SourcedIsLegal(s: Store, reg: Registry, es: seq<Event>)
    requires StoreInv(s, reg) && AllRegistered(reg, es) && Sourced(s, es)
    ensures AllLegal(s, reg, es)
  {
    if es != [] {
      var front, last := es[..|es| - 1], es[|es| - 1];
      SourcedIsLegal(s, reg, front);
      if last.action.Publish? {
        AnsweredIsGenuine(s, reg, front, last.action.of);
      }
    }
  }

  lemma {:induction false} AnsweredIsGenuine(s: Store, reg: Registry, es: seq<Event>, of: Arc)
    requires StoreInv(s, reg) && AllLegal(s, reg, es) && AnsweredIn(s, es, of)
    ensures Genuine(Run(s, es).cache, of)
  {
    var front, last := es[..|es| - 1], es[|es| - 1];
    if AnsweredIn(s, front, of) {
      AnsweredIsGenuine(s, reg, front, of);
      GenuineNext(s, reg, es, of);
    } else {
      RunKeepsInv(s, reg, front);
      AnswerIsGenuine(Run(s, front), reg, last, of);
    }
  }

  // ---- the theorems --------------------------------------------------------

  /** A view handed out was built from exactly the state object resident for the project right then. */
  lemma ViewsAreCurrent(s: Store, reg: Registry, es: seq<Event>, id: Id)
    requires StoreInv(s, reg) && AllRegistered(reg, es) && Sourced(s, es)
    ensures var t := Run(s, es);
            var v := View(t.cache, id).1;
            v.Some? ==> id in t.cache.graphs && v.value.of == t.cache.graphs[id].state
  {
    SourcedIsLegal(s, reg, es);
    RunKeepsInv(s, reg, es);
  }

  ghost predicate Holds(c: Cache, id: Id, of: Arc) {
    id in c.graphs && c.graphs[id].state.addr == of.addr
  }

  lemma GoneStep(s: Store, reg: Registry, e: Event, id: Id, of: Arc)
    requires StoreInv(s, reg) && Legal(s, reg, e) && Genuine(s.cache, of) && !Holds(s.cache, id, of)
    ensures !Holds(Step(s, e).0.cache, id, of)
  {
    StepEntry(s, reg, e, id);
  }

  /** `of` is a state object of the cache that `id` does not hold. */
  ghost predicate Gone(s: Store, id: Id, of: Arc) {
    Genuine(s.cache, of) && !Holds(s.cache, id, of)
  }

  lemma {:induction false} GoneStaysGone(s: Store, reg: Registry, es: seq<Event>, k: nat, id: Id, of: Arc)
    requires StoreInv(s, reg) && AllLegal(s, reg, es) && k <= |es| && Gone(Run(s, es[..k]), id, of)
    ensures Gone(Run(s, es), id, of)
    decreases |es|
  {
    if k < |es| {
      var front, last := es[..|es| - 1], es[|es| - 1];
      assert front[..k] == es[..k];
      GoneStaysGone(s, reg, front, k, id, of);
      RunKeepsInv(s, reg, front);
      GenuineStep(Run(s, front), reg, last, of);
      GoneStep(Run(s, front), reg, last, id, of);
    } else {
      assert es[..k] == es;
    }
  }

  /**
   * A view of `of`, read after `k` events, is installed exactly when that object has been resident
   * for the project ever since: an apply, an eviction or a reload in between refuses it.
   */
  lemma InstallsIffNeverReplaced(s: Store, reg: Registry, es: seq<Event>, k: nat, id: Id, of: Arc, view: GraphView)
    requires StoreInv(s, reg) && AllLegal(s, reg, es) && k <= |es| && Genuine(Run(s, es[..k]).cache, of)
    ensures InstallView(Run(s, es).cache, id, of, view).1 <==>
            forall j: nat :: k <= j <= |es| ==> Holds(Run(s, es[..j]).cache, id, of)
  {
    assert es[..|es|] == es;
    forall j: nat | k <= j <= |es| && Holds(Run(s, es).cache, id, of)
      ensures Holds(Run(s, es[..j]).cache, id, of)
    {
      assert es[..j][..k] == es[..k];
      LegalPrefix(s, reg, es, j);
      GenuineStays(s, reg, es[..j], k, of);
      if !Holds(Run(s, es[..j]).cache, id, of) {
        GoneStaysGone(s, reg, es, j, id, of);
      }
    }
  }
}
