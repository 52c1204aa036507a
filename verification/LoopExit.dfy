/** How the loop ends, and which needs of a recluster are left behind. */
module LoopExit {
  import opened Prelude
  import opened Graph
  import opened LoopSpec
  import opened LoopOrder
  import opened LoopDebt

  // ---- leaving the loop ----------------------------------------------------

  lemma {:induction false} ExitedIsIdle(reg: set<Id>, permits: nat, ts: seq<Turn>)
    requires Turns(reg, Start(permits), ts).exited
    ensures Idle(Turns(reg, Start(permits), ts))
  {
    if ts != [] {
      var prev := Turns(reg, Start(permits), ts[..|ts| - 1]);
      if prev.exited {
        ExitedIsIdle(reg, permits, ts[..|ts| - 1]);
      }
    }
  }

  /**
   * An idle exit leaves every admitted job finished, and a project in need of a recluster if and only
   * if its recluster errored with no change-making apply since.
   */
  lemma IdleExitIsSettled(reg: set<Id>, permits: nat, ts: seq<Turn>, id: Id)
    requires AllWalk(reg, Start(permits), ts) && AllProduced(ts)
    requires Turns(reg, Start(permits), ts).exited
    ensures var l := Turns(reg, Start(permits), ts);
            && (Needs(l.hist.marks, id) <==> ErroredLast(l.hist.marks, id))
            && multiset(l.hist.admitted) == multiset(l.hist.finished)
  {
    var l := Turns(reg, Start(permits), ts);
    ExitedIsIdle(reg, permits, ts);
    DebtHolds(reg, permits, ts);
    assert |l.sched.tasks| == 0;
    assert l.sched.tasks == [];
    DebtIsExact(reg, permits, ts, id);
  }

  lemma {:induction false} DrainDebt(reg: set<Id>, l: Loop, picks: seq<nat>, outcome: Job -> Outcome)
    requires LoopInv(reg, l) && DebtInv(reg, l) && Known(reg, l)
    ensures var m := DrainBy(l, picks, outcome);
            LoopInv(reg, m) && DebtInv(reg, m) && m.deferred == l.deferred
    decreases |picks|
  {
    if picks != [] && picks[0] < |l.sched.tasks| {
      var out := outcome(l.sched.tasks[picks[0]]);
      assert l.sched.tasks[picks[0]] in l.sched.tasks;
      CompleteKeeps(reg, l, picks[0], out);
      CompleteDebt(reg, l, picks[0], out);
      CompleteKnown(reg, l, picks[0], out);
      DrainDebt(reg, Complete(l, picks[0], out), picks[1..], outcome);
    }
  }

  /** The reclusters run at the end meet the needs of exactly their projects, those that error aside. */
  lemma {:induction false} SettledNeeds(reg: set<Id>, marks: seq<Mark>, order: seq<Id>, failing: set<Id>, id: Id)
    requires forall x :: x in order ==> x in reg
    ensures Needs(marks + SettlingMarks(reg, order, failing), id) <==>
            Needs(marks, id) && (id in order ==> id in failing)
  {
    if order == [] {
      assert marks + [] == marks;
    } else {
      var n := |order| - 1;
      var front := marks + SettlingMarks(reg, order[..n], failing);
      var last := if order[n] in failing then Errored(order[n]) else Reclustered(order[n]);
      SettledNeeds(reg, marks, order[..n], failing, id);
      MarkStep(front, last, id);
      Assoc(marks, SettlingMarks(reg, order[..n], failing), [last]);
      assert id in order <==> id in order[..n] || id == order[n];
    }
  }

  /**
   * A forced exit, stopping any run of the loop: a project is left in need of a recluster if and only
   * if its Recluster job was in the dropped backlog, or its recluster errored, before the exit with no
   * change-making apply since, or at it.
   */
  lemma ForcedExitIsExact(reg: set<Id>, permits: nat, ts: seq<Turn>, picks: seq<nat>, outcome: Job -> Outcome,
                          order: seq<Id>, failing: set<Id>, id: Id)
    requires AllWalk(reg, Start(permits), ts) && AllProduced(ts)
    requires var drained := DrainBy(Turns(reg, Start(permits), ts), picks, outcome);
             drained.sched.tasks == [] && Elements(order) == drained.owes
    ensures var l := Turns(reg, Start(permits), ts);
            var drained := DrainBy(l, picks, outcome);
            Needs(SettleDebts(reg, drained, order, failing).hist.marks, id) <==>
            || (exists j :: j in l.deferred && IsRecluster(j, id))
            || ErroredLast(drained.hist.marks, id)
            || (id in drained.owes && id in failing)
  {
    var l := Turns(reg, Start(permits), ts);
    DebtHolds(reg, permits, ts);
    DrainDebt(reg, l, picks, outcome);
    var drained := DrainBy(l, picks, outcome);
    forall x | x in order ensures x in reg {
      assert x in Elements(order);
    }
    SettledNeeds(reg, drained.hist.marks, order, failing, id);
    assert Recorded(drained, id);
    PendingIsHead(drained, id);
    assert id in order <==> id in Elements(order);
  }

  // ---- the run that forgets ------------------------------------------------

  /** Three turns: an apply arrives; it completes, having changed a file; its recluster runs and errors. */
  function ForgettingRun(id: Id): seq<Turn> {
    [Turn([], false, Ticked([Item(id, Op.Apply(0), Fs)])),
     Turn([], false, Joined(0, Applied(1))),
     Turn([id], false, Joined(0, Failed))]
  }

  lemma TurnsThree(reg: set<Id>, l: Loop, a: Turn, b: Turn, c: Turn)
    ensures Turns(reg, l, [a, b, c]) == DoTurn(reg, DoTurn(reg, DoTurn(reg, l, a), b), c)
    ensures AllWalk(reg, l, [a, b, c]) <==>
            Walks(l, a) && Walks(DoTurn(reg, l, a), b) && Walks(DoTurn(reg, DoTurn(reg, l, a), b), c)
  {
    assert [a, b, c][..2] == [a, b] && [a, b][..1] == [a] && [a][..0] == [];
    assert Turns(reg, l, [a]) == DoTurn(reg, l, a);
    assert Turns(reg, l, [a, b]) == DoTurn(reg, DoTurn(reg, l, a), b);
    assert AllWalk(reg, l, [a]) <==> Walks(l, a);
    assert AllWalk(reg, l, [a, b]) <==> AllWalk(reg, l, [a]) && Walks(DoTurn(reg, l, a), b);
  }

  /** The loop after each turn of that run. */
  function Forgetting(id: Id, permits: nat, turns: nat): Loop {
    var item := Item(id, Op.Apply(0), Fs);
    var apply, recluster := ToJob(item), Job(id, Recluster, None);
    var h := History([item], [apply], [], [], []);
    match turns
    case 0 => Start(permits)
    case 1 => Start(permits).(deferred := [apply], hist := h)
    case 2 => Start(permits).(owes := {id}, hist := h.(started := [apply], finished := [apply], marks := [Owed(id)]))
    case _ =>
      Start(permits).(hist := History([item], [apply, recluster], [apply, recluster], [apply, recluster],
                                      [Owed(id), Made(id), Errored(id)]))
  }

  lemma OneStarts(s: Scheduler, j: Job)
    requires !Blocked(s, j.project)
    ensures Dispatch(s, [j]) == Dispatched(Spawn(s, j), [j], [])
  {
    assert [j][1..] == [] && [j] + [] == [j];
  }

  /** With no debts, the loop's head only dispatches the backlog. */
  lemma NoDebtTop(reg: set<Id>, l: Loop)
    requires l.owes == {}
    ensures Top(reg, l, []) == TopDispatch(l)
  {
    var d := TopDispatch(l);
    assert d.hist.admitted + [] == d.hist.admitted && d.hist.started + [] == d.hist.started;
    assert d.hist.marks + [] == d.hist.marks && d.deferred + [] == d.deferred;
    assert (set id: Id | id in []) == {};
  }

  lemma ForgetTicks(id: Id, permits: nat)
    ensures DoTurn({id}, Forgetting(id, permits, 0), ForgettingRun(id)[0]) == Forgetting(id, permits, 1)
  {
    var l, item := Start(permits), Item(id, Op.Apply(0), Fs);
    NoDebtTop({id}, l);
    assert TopDispatch(l) == l;
    var q := Queue([], [], [item]);
    assert SubmitAll(l.queue, [item]) == q by {
      assert [item][1..] == [] && [] + [item] == [item];
    }
    DrainedIs(q);
    assert Drained(q) == [item];
    assert JobsOf({id}, [item]) == [ToJob(item)] by {
      assert [item][1..] == [];
    }
    assert [] + [item] == [item] && [] + [ToJob(item)] == [ToJob(item)];
  }

  lemma ForgetApplies(id: Id, permits: nat)
    ensures DoTurn({id}, Forgetting(id, permits, 1), ForgettingRun(id)[1]) == Forgetting(id, permits, 2)
  {
    var l, apply := Forgetting(id, permits, 1), Job(id, Op.Apply(0), Some(Fs));
    NoDebtTop({id}, l);
    OneStarts(l.sched, apply);
    assert [] + [apply] == [apply];
    var top := TopDispatch(l);
    assert top.sched == Spawn(l.sched, apply) && top.sched.tasks == [apply];
    assert Join(top.sched, 0) == l.sched by {
      assert {id} - {id} == {} && [apply][..0] + [apply][1..] == [];
    }
    assert FinishMarks(apply, Applied(1)) == [Owed(id)] && [] + [Owed(id)] == [Owed(id)];
    assert {} + {id} == {id};
  }

  lemma ForgetReclusters(id: Id, permits: nat)
    ensures DoTurn({id}, Forgetting(id, permits, 2), ForgettingRun(id)[2]) == Forgetting(id, permits, 3)
  {
    var l, job := Forgetting(id, permits, 2), Job(id, Recluster, None);
    assert l.hist.started + [] == l.hist.started;
    assert TopDispatch(l) == l;
    assert QuietOf(l, [id]) == [id] by {
      assert [id][1..] == [] && [id] + [] == [id];
    }
    assert ReclusterJobs({id}, [id]) == [job] by {
      assert [id][1..] == [] && [job] + [] == [job];
    }
    assert MadeMarks([job]) == [Made(id)] by {
      assert [job][1..] == [] && [Made(id)] + [] == [Made(id)];
    }
    OneStarts(l.sched, job);
    assert (set x | x in [id]) == {id} && {id} - {id} == {};
    var top := Top({id}, l, [id]);
    assert top.sched == Spawn(l.sched, job) && top.sched.tasks == [job] && top.owes == {};
    assert Join(top.sched, 0) == l.sched by {
      assert [job][..0] + [job][1..] == [];
    }
    assert FinishMarks(job, Failed) == [Errored(id)];
    assert [Owed(id)] + [Made(id)] + [Errored(id)] == [Owed(id), Made(id), Errored(id)];
  }

  lemma ForgettingEnds(id: Id, permits: nat)
    ensures AllWalk({id}, Start(permits), ForgettingRun(id))
    ensures Turns({id}, Start(permits), ForgettingRun(id)) == Forgetting(id, permits, 3)
  {
    var ts := ForgettingRun(id);
    var t0, t1, t2 := ts[0], ts[1], ts[2];
    assert ts == [t0, t1, t2];
    TurnsThree({id}, Start(permits), t0, t1, t2);
    ForgetTicks(id, permits);
    ForgetApplies(id, permits);
    ForgetReclusters(id, permits);
    assert Walks(Forgetting(id, permits, 0), t0) && Walks(Forgetting(id, permits, 1), t1);
    NoDupOne(id);
    assert Walks(Forgetting(id, permits, 2), t2);
  }

  /** That run of the loop ends with the project in need of a recluster and nothing that will make one. */
  lemma FailedReclusterForgets(id: Id, permits: nat)
    ensures AllWalk({id}, Start(permits), ForgettingRun(id)) && AllProduced(ForgettingRun(id))
    ensures var l := Turns({id}, Start(permits), ForgettingRun(id));
            Needs(l.hist.marks, id) && id !in l.owes && !Pending(l, id) && l.deferred == [] && l.sched.tasks == []
  {
    ForgettingEnds(id, permits);
    Forgotten(id, permits);
    ForgettingIsProduced(id);
  }

  lemma Forgotten(id: Id, permits: nat)
    ensures var l := Forgetting(id, permits, 3);
            Needs(l.hist.marks, id) && id !in l.owes && !Pending(l, id) && l.deferred == [] && l.sched.tasks == []
  {
    ForgottenMarks(id);
  }

  lemma ForgettingIsProduced(id: Id)
    ensures AllProduced(ForgettingRun(id))
  {
  }

  lemma NoDupOne(id: Id)
    ensures NoDup([id]) && forall x :: x in [id] <==> x in {id}
  {
  }

  lemma ForgottenMarks(id: Id)
    ensures Needs([Owed(id), Made(id), Errored(id)], id)
  {
    MarkStep([Owed(id), Made(id)], Errored(id), id);
    MarkStep([Owed(id)], Made(id), id);
    MarkStep([], Owed(id), id);
    assert [Owed(id)] + [Made(id)] == [Owed(id), Made(id)] && [] + [Owed(id)] == [Owed(id)];
    assert [Owed(id), Made(id)] + [Errored(id)] == [Owed(id), Made(id), Errored(id)];
  }
}
