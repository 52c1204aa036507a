/** `WatcherSet`: one producer per project, and the drain that routes their items into the queue. */
module Watchers {
  import opened Prelude
  import opened Graph
  import opened LoopSpec
  import opened LoopOrder
  import opened LoopDebt
  import RunLoop

  /** A producer's output; a changeset is known by number. */
  datatype Produced = Signal(changeset: nat) | Authoritative(changeset: nat) | Rescan(deep: bool)

  /** The one map from what producers say to what jobs do: only a signal is gated later. */
  function OpOf(produced: Produced): Op {
    match produced
    case Signal(cs) => Op.Apply(cs)
    case Authoritative(cs) => ApplyExact(cs)
    case Rescan(deep) => Reconcile(deep)
  }

  /** A live producer: the lane it declares and what its channel holds, oldest first. */
  datatype Handle = Handle(lane: Lane, channel: seq<Produced>)

  type Producers = map<Id, Handle>

  function ItemOf(id: Id, produced: Produced, lane: Lane): Item {
    Item(id, OpOf(produced), lane)
  }

  /** The queue items of one channel. */
  function ItemsOf(id: Id, h: Handle): seq<Item> {
    seq(|h.channel|, i requires 0 <= i < |h.channel| => ItemOf(id, h.channel[i], h.lane))
  }

  /** A drain in the order it walks the producers. */
  function DrainOf(ps: Producers, order: seq<Id>): seq<Item> {
    if order == [] then [] else DrainOf(ps, order[..|order| - 1]) + Buffered(ps, order[|order| - 1])
  }

  function Buffered(ps: Producers, id: Id): seq<Item> {
    if id in ps then ItemsOf(id, ps[id]) else []
  }

  /** The items of `id`, in order. */
  function About(items: seq<Item>, id: Id): seq<Item> {
    if items == [] then [] else (if items[0].project == id then [items[0]] else []) + About(items[1..], id)
  }

  ghost predicate AllEmpty(ps: Producers) {
    forall id :: id in ps ==> ps[id].channel == []
  }

  /** A handle still to be drained, or one that has been. */
  function Left(h: Handle, untouched: bool): Handle {
    if untouched then h else h.(channel := [])
  }

  lemma DrainSnoc(ps: Producers, order: seq<Id>, id: Id)
    ensures DrainOf(ps, order + [id]) == DrainOf(ps, order) + Buffered(ps, id)
  {
    assert (order + [id])[..|order|] == order;
  }

  class WatcherSet {
    var producers: Producers

    constructor ()
      ensures producers == map[]
    {
      producers := map[];
    }

    /** Idempotent: a project already watched keeps its producer and whatever is buffered in it. */
    method Start(id: Id, binds: bool) returns (ok: bool)
      modifies this
      ensures ok <==> id in old(producers) || binds
      ensures producers == if id in old(producers) || !binds then old(producers)
                           else old(producers)[id := Handle(Fs, [])]
    {
      if id in producers { return true; }
      if !binds { return false; }
      producers := producers[id := Handle(Fs, [])];
      ok := true;
    }

    /** A project that cannot be watched does not keep the others from it. */
    method StartAll(ids: seq<Id>, binds: set<Id>)
      modifies this
      ensures forall id :: id in producers <==> id in old(producers) || (id in ids && id in binds)
      ensures forall id :: id in old(producers) ==> producers[id] == old(producers)[id]
      ensures forall id :: id in producers && id !in old(producers) ==> producers[id] == Handle(Fs, [])
    {
      for k := 0 to |ids|
        invariant forall id :: id in producers <==> id in old(producers) || (id in ids[..k] && id in binds)
        invariant forall id :: id in old(producers) ==> producers[id] == old(producers)[id]
        invariant forall id :: id in producers && id !in old(producers) ==> producers[id] == Handle(Fs, [])
      {
        assert ids[..k + 1] == ids[..k] + [ids[k]];
        var _ := Start(ids[k], ids[k] in binds);
      }
    }

    /** The producer goes, and with it its channel: nothing of a stopped project can reach the queue. */
    method Stop(id: Id)
      modifies this
      ensures producers == old(producers) - {id}
    {
      if id in producers {
        producers := producers - {id};
      }
    }

    /** Empty every channel, in whatever order the producers are walked. */
    method Drain() returns (items: seq<Item>, ghost order: seq<Id>)
      modifies this
      ensures NoDup(order) && Elements(order) == old(producers).Keys
      ensures items == DrainOf(old(producers), order)
      ensures producers.Keys == old(producers).Keys && AllEmpty(producers)
      ensures forall id :: id in producers ==> producers[id].lane == old(producers)[id].lane
    {
      items, order := [], [];
      var rest := producers.Keys;
      while rest != {}
        invariant rest <= producers.Keys == old(producers).Keys
        invariant NoDup(order) && forall id :: id in order <==> id in old(producers).Keys - rest
        invariant items == DrainOf(old(producers), order)
        invariant forall id :: id in producers ==> producers[id] == Left(old(producers)[id], id in rest)
        decreases rest
      {
        var id :| id in rest;
        rest := rest - {id};
        NoDupSnoc(order, id);
        DrainSnoc(old(producers), order, id);
        order := order + [id];
        var more := Receive(id);
        items := items + more;
      }
    }

    /** Take items off one channel until it has none. */
    method Receive(id: Id) returns (items: seq<Item>)
      requires id in producers
      modifies this
      ensures items == ItemsOf(id, old(producers)[id])
      ensures producers == old(producers)[id := old(producers)[id].(channel := [])]
    {
      items := [];
      ghost var whole := producers[id];
      while producers[id].channel != []
        invariant producers.Keys == old(producers).Keys
        invariant forall x :: x in producers && x != id ==> producers[x] == old(producers)[x]
        invariant producers[id].lane == whole.lane
        invariant |items| + |producers[id].channel| == |whole.channel|
        invariant producers[id].channel == whole.channel[|items|..]
        invariant items == ItemsOf(id, whole)[..|items|]
        decreases |producers[id].channel|
      {
        var h := producers[id];
        producers := producers[id := h.(channel := h.channel[1..])];
        items := items + [ItemOf(id, h.channel[0], h.lane)];
      }
    }
  }

  /** `route_watcher_events`: drain the producers and submit each item on its lane, in order. */
  method Route(watchers: WatcherSet, queue: RunLoop.PriorityQueue) returns (ghost order: seq<Id>)
    modifies watchers, queue
    ensures NoDup(order) && Elements(order) == old(watchers.producers).Keys
    ensures queue.Model() == SubmitAll(old(queue.Model()), DrainOf(old(watchers.producers), order))
    ensures watchers.producers.Keys == old(watchers.producers).Keys && AllEmpty(watchers.producers)
  {
    var items;
    items, order := watchers.Drain();
    for k := 0 to |items|
      invariant SubmitAll(old(queue.Model()), items) == SubmitAll(queue.Model(), items[k..])
      invariant watchers.producers.Keys == old(watchers.producers).Keys && AllEmpty(watchers.producers)
    {
      assert items[k..][1..] == items[k + 1..];
      queue.Submit(items[k]);
    }
  }

  /** The drain tick: route what the producers have, then collect the whole queue into jobs. */
  method DrainTick(daemon: RunLoop.Daemon, watchers: WatcherSet) returns (ghost order: seq<Id>)
    modifies daemon, daemon.queue, watchers
    ensures NoDup(order) && Elements(order) == old(watchers.producers).Keys
    ensures daemon.Model() == Tick(daemon.registry, old(daemon.Model()), DrainOf(old(watchers.producers), order))
    ensures watchers.producers.Keys == old(watchers.producers).Keys && AllEmpty(watchers.producers)
  {
    order := Route(watchers, daemon.queue);
    daemon.Collect(DrainOf(old(watchers.producers), order));
  }

  /** The branch a turn of the loop takes: the drain tick, a job that finished, or anything else. */
  datatype Branch = DrainTicked | Finished(i: nat, outcome: Outcome) | Other

  /** One turn of the loop: its head, the idle exit, and the branch taken. */
  method LoopTurn(daemon: RunLoop.Daemon, watchers: WatcherSet, timedOut: bool, branch: Branch)
    returns (ghost turn: Turn)
    requires !daemon.exited
    modifies daemon, daemon.queue, daemon.scheduler, watchers
    ensures Walks(old(daemon.Model()), turn) && turn.timedOut == timedOut
    ensures turn.branch.Ticked? ==> ProducersOnly(turn.branch.items)
    ensures daemon.Model() == DoTurn(daemon.registry, old(daemon.Model()), turn)
  {
    ghost var order := daemon.Top();
    assert forall id :: id in order <==> id in Elements(order);
    turn := Turn(order, timedOut, Elsewhere);
    daemon.TryIdleExit(timedOut);
    if daemon.exited { return; }
    match branch
    case DrainTicked =>
      ghost var walk := DrainTick(daemon, watchers);
      ghost var items := DrainOf(old(watchers.producers), walk);
      DrainsAreProduced(old(watchers.producers), walk);
      turn := Turn(order, timedOut, Ticked(items));
    case Finished(i, outcome) =>
      turn := Turn(order, timedOut, Joined(i, outcome));
      if i < |daemon.scheduler.tasks| {
        daemon.Complete(i, outcome);
      }
    case Other =>
  }

  /** What a `watch` command leads to at once: a deep converge when a watcher was started. */
  datatype Planned = AlreadyWatching | StartFailed | Converge | Stopped(wasWatching: bool)

  /** `plan_watch`: on, the watcher is started first and the converge asked for after; off, it is dropped. */
  method PlanWatch(watchers: WatcherSet, id: Id, on: bool, binds: bool) returns (plan: Planned)
    modifies watchers
    ensures var was := old(watchers.producers);
            && (plan == AlreadyWatching <==> on && id in was)
            && (plan == StartFailed <==> on && id !in was && !binds)
            && (plan == Converge <==> on && id !in was && binds)
            && (plan.Stopped? ==> plan.wasWatching == (id in was))
            && watchers.producers == (if !on then was - {id} else if plan == Converge then was[id := Handle(Fs, [])] else was)
  {
    var watching := id in watchers.producers;
    if !on {
      watchers.Stop(id);
      return Stopped(watching);
    }
    if watching { return AlreadyWatching; }
    var ok := watchers.Start(id, binds);
    plan := if ok then Converge else StartFailed;
  }

  // ---- nothing is lost, doubled or reordered on the way --------------------

  /** No producer asks for a recluster: those are the loop's own. */
  lemma {:induction false} DrainsAreProduced(ps: Producers, order: seq<Id>)
    ensures ProducersOnly(DrainOf(ps, order))
  {
    if order != [] {
      DrainsAreProduced(ps, order[..|order| - 1]);
    }
  }

  lemma {:induction false} AboutConcat(a: seq<Item>, b: seq<Item>, id: Id)
    ensures About(a + b, id) == About(a, id) + About(b, id)
  {
    if a == [] {
      assert a + b == b;
    } else {
      assert (a + b)[1..] == a[1..] + b;
      AboutConcat(a[1..], b, id);
      Assoc(if a[0].project == id then [a[0]] else [], About(a[1..], id), About(b, id));
    }
  }

  lemma {:induction false} AboutOne(items: seq<Item>, of: Id, id: Id)
    requires forall i :: 0 <= i < |items| ==> items[i].project == of
    ensures About(items, id) == if of == id then items else []
  {
    if items != [] {
      AboutOne(items[1..], of, id);
    }
  }

  /** A drain holds exactly each project's channel, in order, once. */
  lemma {:induction false} DrainIsEachChannel(ps: Producers, order: seq<Id>, id: Id)
    requires NoDup(order)
    ensures About(DrainOf(ps, order), id) == if id in order then Buffered(ps, id) else []
  {
    if order != [] {
      var n := |order| - 1;
      assert order[n] !in order[..n];
      DrainIsEachChannel(ps, order[..n], id);
      AboutConcat(DrainOf(ps, order[..n]), Buffered(ps, order[n]), id);
      AboutOne(Buffered(ps, order[n]), order[n], id);
    }
  }

  lemma {:induction false} LaneAbout(items: seq<Item>, lane: Lane, id: Id)
    ensures About(LaneItems(items, lane), id) == LaneItems(About(items, id), lane)
  {
    if items != [] {
      var h, t := items[0], items[1..];
      LaneAbout(t, lane, id);
      var hl := if h.lane == lane then [h] else [];
      var ha := if h.project == id then [h] else [];
      AboutConcat(hl, LaneItems(t, lane), id);
      LaneConcat(ha, About(t, id), lane);
      AboutSingle(h, lane, id);
    }
  }

  lemma AboutSingle(h: Item, lane: Lane, id: Id)
    ensures About(if h.lane == lane then [h] else [], id) == LaneItems(if h.project == id then [h] else [], lane)
  {
    assert [h][1..] == [];
    assert About([h], id) == if h.project == id then [h] else [];
    assert LaneItems([h], lane) == if h.lane == lane then [h] else [];
  }

  /** What the queue holds for one project on one lane. */
  function Queued(q: Queue, lane: Lane, id: Id): seq<Item> {
    About(match lane case Manual => q.manual case Git => q.git case Fs => q.fs, id)
  }

  /**
   * Routing appends to what is queued for a project on its producer's lane exactly its channel, in
   * the order it was produced, and to its other lanes nothing.
   */
  lemma RoutingKeepsEachChannel(q: Queue, ps: Producers, order: seq<Id>, lane: Lane, id: Id)
    requires LanesApart(q) && NoDup(order) && Elements(order) == ps.Keys
    ensures Queued(SubmitAll(q, DrainOf(ps, order)), lane, id) ==
            Queued(q, lane, id) + if id in ps && ps[id].lane == lane then ItemsOf(id, ps[id]) else []
  {
    var items := DrainOf(ps, order);
    SubmitAllShape(q, items);
    var was := match lane case Manual => q.manual case Git => q.git case Fs => q.fs;
    AboutConcat(was, LaneItems(items, lane), id);
    LaneAbout(items, lane, id);
    DrainIsEachChannel(ps, order, id);
    assert id in order <==> id in Elements(order);
    if id in ps {
      LaneAll(ItemsOf(id, ps[id]), ps[id].lane, lane);
    }
  }
}
