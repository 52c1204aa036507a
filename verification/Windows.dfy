/** A read that loads a checkpoint and installs it later: the window `state_of` leaves between its two steps. */
module Windows {
  import opened Prelude
  import opened Graph
  import opened CacheSpec
  import opened FlushSpec
  import opened StoreSteps
  import opened StoreOps
  import opened StoreRuns

  /** The second half of a read that missed: `loaded`, from its checkpoint a while ago, goes in as clean. */
  function InstallLate(s: Store, p: Project, loaded: GraphState, faults: set<Id>): Store {
    Absorb(Remember(s, p), p.id, loaded, false, faults).0
  }

  /** An apply of the project was taken up during these calls. */
  predicate TakenUp(es: seq<Event>, id: Id) {
    es != [] &&
    var e := es[|es| - 1];
    (TakenUp(es[..|es| - 1], id) || (e.action.Record? && e.action.p.id == id && TakesUp(e.action.p, e.action.lane, e.faults)))
  }

  /** What is installed late is the project's latest state from then on, whatever it was before. */
  lemma LateInstallIs(s: Store, reg: Registry, p: Project, loaded: GraphState, faults: set<Id>)
    requires StoreInv(s, reg) && Registered(reg, p)
    ensures Latest(InstallLate(s, p, loaded, faults), reg, p.id) == loaded
  {
    RememberKeeps(s, reg, p);
    AbsorbOwn(Remember(s, p), p.id, loaded, false, faults);
  }

  /** A late install loses the project's state exactly when it no longer is what was loaded. */
  lemma LateInstallLosesIff(s: Store, reg: Registry, p: Project, loaded: GraphState, faults: set<Id>)
    requires StoreInv(s, reg) && Registered(reg, p)
    ensures Erase(Latest(InstallLate(s, p, loaded, faults), reg, p.id)) != Erase(Latest(s, reg, p.id)) <==>
            Erase(loaded) != Erase(Latest(s, reg, p.id))
  {
    LateInstallIs(s, reg, p, loaded, faults);
  }

  /** Only an apply that is taken up changes what a project's state saves as. */
  lemma {:induction false} QuietWindow(s: Store, reg: Registry, es: seq<Event>, id: Id)
    requires StoreInv(s, reg) && AllLegal(s, reg, es) && Reliable(s, es) && id in reg && !TakenUp(es, id)
    ensures Erase(Latest(Run(s, es), reg, id)) == Erase(Latest(s, reg, id))
  {
    if es != [] {
      var n := |es| - 1;
      QuietWindow(s, reg, es[..n], id);
      RunKeepsInv(s, reg, es[..n]);
      StepLatest(Run(s, es[..n]), reg, es[n], id);
    }
  }

  /**
   * So the window between a read's load and its install loses nothing when no apply of the project is
   * taken up in it, whatever other calls, evictions and write-backs fall there.
   */
  lemma NoApplyNoLoss(s: Store, reg: Registry, es: seq<Event>, p: Project, faults: set<Id>)
    requires StoreInv(s, reg) && AllLegal(s, reg, es) && Reliable(s, es) && Registered(reg, p)
    requires p.id !in s.cache.graphs && !TakenUp(es, p.id)
    ensures var t := InstallLate(Run(s, es), p, Load(s.disk, p.outputDir), faults);
            Erase(Latest(t, reg, p.id)) == Erase(Latest(s, reg, p.id))
  {
    RunKeepsInv(s, reg, es);
    QuietWindow(s, reg, es, p.id);
    LateInstallIs(Run(s, es), reg, p, Load(s.disk, p.outputDir), faults);
  }

  /** And one apply taken up in it is lost exactly when its state saves otherwise than the checkpoint did. */
  lemma ApplyInWindow(s: Store, reg: Registry, p: Project, merged: GraphState, lane: Persistence)
    requires StoreInv(s, reg) && Registered(reg, p) && p.id !in s.cache.graphs
    ensures var loaded := Load(s.disk, p.outputDir);
            var (t, done) := RecordApply(s, p, merged, lane, {});
            && done == Ok(()) && Latest(t, reg, p.id) == merged
            && (Erase(Latest(InstallLate(t, p, loaded, {}), reg, p.id)) != Erase(merged) <==> Erase(merged) != Erase(loaded))
  {
    RecordKeeps(s, reg, p, merged, lane, {});
    RecordLatest(s, reg, p, merged, lane, {}, p.id);
    LateInstallIs(RecordApply(s, p, merged, lane, {}).0, reg, p, Load(s.disk, p.outputDir), {});
  }
}
