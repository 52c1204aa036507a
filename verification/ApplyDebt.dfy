/** What the run loop hears of a producer apply, and when a taken-up change leaves no debt. */
module ApplyDebt {
  import opened Prelude
  import opened Graph
  import opened CacheSpec
  import opened FlushSpec
  import opened StoreSteps
  import opened StoreOps
  import opened Applies
  import Loop = LoopSpec

  /** The loop sees a job's change count, or that it errored. */
  function OutcomeOf(r: Result<nat, ApplyError>): Loop.Outcome {
    if r.Ok? then Loop.Applied(r.value) else Loop.Failed
  }

  /**
   * A producer apply whose update is taken up leaves a recluster debt if and only if it reports a
   * change and loses no write-back: when the dirty project it pages out cannot be written, the new
   * state is resident all the same, but the job errors and its own project owes nothing.
   */
  lemma LostWriteBackHidesTheDebt(s: Store, reg: Registry, p: Project, mutate: Mutate, io: Faults, job: Loop.Job)
    requires StoreInv(s, reg) && Registered(reg, p) && !job.op.Recluster?
    requires var (s1, read) := StateOf(s, p, io.read);
             read.Ok? && mutate(read.value.value).Some? && mutate(read.value.value).value.merged.Some?
    ensures var (s1, read) := StateOf(s, p, io.read);
            var m := mutate(read.value.value).value;
            var (t, r) := WithApply(s, p, Defer, mutate, io);
            && Latest(t, reg, p.id) == m.merged.value
            && (Loop.Owes(job, OutcomeOf(r)) <==> m.changed > 0 && !LosesVictim(s1, p.id, io.record))
  {
    var (s1, read) := StateOf(s, p, io.read);
    StateOfKeeps(s, reg, p, io.read);
    var merged := mutate(read.value.value).value.merged.value;
    DeferReply(s1, reg, p, merged, io.record);
  }

  lemma DeferReply(s: Store, reg: Registry, p: Project, merged: GraphState, faults: set<Id>)
    requires StoreInv(s, reg) && Registered(reg, p)
    ensures var (t, r) := RecordApply(s, p, merged, Defer, faults);
            Latest(t, reg, p.id) == merged && r == if LosesVictim(s, p.id, faults) then Err(Io) else Ok(())
  {
    RecordKeeps(s, reg, p, merged, Defer, faults);
    RecordLatest(s, reg, p, merged, Defer, faults, p.id);
  }
}
