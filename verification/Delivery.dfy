/** From a producer's channel through drain, queue and backlog: item by item, nothing lost, doubled, moved or altered. */
module Delivery {
  import opened Prelude
  import opened Graph
  import opened LoopSpec
  import opened LoopOrder
  import opened Watchers

  /** The op stands for what was produced: a signal is gated later, a diff is exact, a rescan keeps its depth. */
  predicate StandsFor(op: Op, produced: Produced) {
    match produced
    case Signal(cs) => op.Apply? && op.changeset == cs
    case Authoritative(cs) => op.ApplyExact? && op.changeset == cs
    case Rescan(deep) => op.Reconcile? && op.deep == deep
  }

  /** The items are a channel's, one by one. */
  ghost predicate Carries(items: seq<Item>, id: Id, h: Handle) {
    && |items| == |h.channel|
    && forall k :: 0 <= k < |items| ==>
                     items[k].project == id && items[k].lane == h.lane && StandsFor(items[k].op, h.channel[k])
  }

  lemma ItemsCarry(id: Id, h: Handle)
    ensures Carries(ItemsOf(id, h), id, h)
  {
  }

  /** A drain holds of each project exactly what its producer's channel held, in order, and of nobody else. */
  lemma DrainCarriesEachChannel(ps: Producers, order: seq<Id>, id: Id)
    requires NoDup(order) && Elements(order) == ps.Keys
    ensures id in ps ==> Carries(About(DrainOf(ps, order), id), id, ps[id])
    ensures id !in ps ==> About(DrainOf(ps, order), id) == []
  {
    DrainIsEachChannel(ps, order, id);
    assert id in order <==> id in Elements(order);
    if id in ps {
      ItemsCarry(id, ps[id]);
    }
  }

  lemma Behind<T>(was: seq<T>, more: seq<T>)
    ensures (was + more)[..|was|] == was && (was + more)[|was|..] == more
  {
  }

  /**
   * Routing leaves in the queue, behind what was queued of a project on its producer's lane, exactly
   * what its channel held, in order; the project's other lanes stay as they were.
   */
  lemma RoutingCarriesEachChannel(q: Queue, ps: Producers, order: seq<Id>, lane: Lane, id: Id)
    requires LanesApart(q) && NoDup(order) && Elements(order) == ps.Keys
    ensures var was, now := Queued(q, lane, id), Queued(SubmitAll(q, DrainOf(ps, order)), lane, id);
            && |was| <= |now| && now[..|was|] == was
            && if id in ps && ps[id].lane == lane then Carries(now[|was|..], id, ps[id]) else now == was
  {
    RoutingKeepsEachChannel(q, ps, order, lane, id);
    if id in ps && ps[id].lane == lane {
      ItemsCarry(id, ps[id]);
      Behind(Queued(q, lane, id), ItemsOf(id, ps[id]));
    } else {
      Behind(Queued(q, lane, id), []);
    }
  }

  /** The jobs are a list of items', one by one. */
  ghost predicate Performs(jobs: seq<Job>, items: seq<Item>) {
    && |jobs| == |items|
    && forall k :: 0 <= k < |jobs| ==>
                     jobs[k].project == items[k].project && jobs[k].op == items[k].op && jobs[k].lane == Some(items[k].lane)
  }

  /** Each registered project's items become its jobs, one by one; an unregistered one's become none. */
  lemma {:induction false} JobsPerformItems(reg: set<Id>, items: seq<Item>, id: Id)
    ensures id in reg ==> Performs(Of(JobsOf(reg, items), id), About(items, id))
    ensures id !in reg ==> Of(JobsOf(reg, items), id) == []
  {
    if items != [] {
      var h, t := items[0], items[1..];
      JobsPerformItems(reg, t, id);
      var hj := if h.project in reg then [ToJob(h)] else [];
      OfConcat(hj, JobsOf(reg, t), id);
      assert hj != [] ==> hj[1..] == [];
    }
  }

  /** The jobs are a channel's, one by one. */
  ghost predicate Delivers(jobs: seq<Job>, id: Id, h: Handle) {
    && |jobs| == |h.channel|
    && forall k :: 0 <= k < |jobs| ==>
                     jobs[k].project == id && jobs[k].lane == Some(h.lane) && StandsFor(jobs[k].op, h.channel[k])
  }

  lemma PerformedIsDelivered(jobs: seq<Job>, id: Id, h: Handle)
    requires Performs(jobs, ItemsOf(id, h))
    ensures Delivers(jobs, id, h)
  {
  }

  /** What one lane of an empty queue holds of a project after the routing. */
  lemma LaneShare(ps: Producers, order: seq<Id>, lane: Lane, id: Id)
    requires NoDup(order) && Elements(order) == ps.Keys
    ensures Queued(SubmitAll(Queue([], [], []), DrainOf(ps, order)), lane, id) ==
            if id in ps && ps[id].lane == lane then Buffered(ps, id) else []
  {
    RoutingKeepsEachChannel(Queue([], [], []), ps, order, lane, id);
    var share := if id in ps && ps[id].lane == lane then Buffered(ps, id) else [];
    assert [] + share == share;
  }

  lemma OneOfThree<T>(a: seq<T>, b: seq<T>, c: seq<T>, all: seq<T>)
    requires (a == all && b == [] && c == []) || (a == [] && b == all && c == []) || (a == [] && b == [] && c == all)
    ensures a + b + c == all
  {
  }

  lemma DrainedAbout(q: Queue, id: Id)
    ensures About(Drained(q), id) == About(q.manual, id) + About(q.git, id) + About(q.fs, id)
  {
    DrainedIs(q);
    AboutConcat(q.manual + q.git, q.fs, id);
    AboutConcat(q.manual, q.git, id);
  }

  /** Popping the queue empty yields of a project what its channel held. */
  lemma QueuedAbout(ps: Producers, order: seq<Id>, id: Id)
    requires NoDup(order) && Elements(order) == ps.Keys
    ensures About(Drained(SubmitAll(Queue([], [], []), DrainOf(ps, order))), id) == Buffered(ps, id)
  {
    var r := SubmitAll(Queue([], [], []), DrainOf(ps, order));
    DrainedAbout(r, id);
    LaneShare(ps, order, Manual, id);
    LaneShare(ps, order, Git, id);
    LaneShare(ps, order, Fs, id);
    OneOfThree(About(r.manual, id), About(r.git, id), About(r.fs, id), Buffered(ps, id));
  }

  /**
   * The drain tick, end to end: with nothing queued before it, the backlog grows for each registered
   * project by exactly what its channel held, in order, on its producer's lane, and for an unregistered
   * one by nothing.
   */
  lemma TickDeliversEachChannel(reg: set<Id>, l: Loop, ps: Producers, order: seq<Id>, id: Id)
    requires l.queue == Queue([], [], []) && NoDup(order) && Elements(order) == ps.Keys
    ensures var m := Tick(reg, l, DrainOf(ps, order));
            var was, now := Of(l.deferred, id), Of(m.deferred, id);
            && m.queue == Queue([], [], [])
            && |was| <= |now| && now[..|was|] == was
            && if id in reg && id in ps then Delivers(now[|was|..], id, ps[id]) else now == was
  {
    var q := SubmitAll(l.queue, DrainOf(ps, order));
    var jobs := JobsOf(reg, Drained(q));
    DrainedIs(q);
    QueuedAbout(ps, order, id);
    JobsPerformItems(reg, Drained(q), id);
    OfConcat(l.deferred, jobs, id);
    Behind(Of(l.deferred, id), Of(jobs, id));
    if id in reg && id in ps {
      PerformedIsDelivered(Of(jobs, id), id, ps[id]);
    }
  }
}
