/** One file through the apply pipeline: what a job leaves indexed, look by look. */
module Pipeline {
  import opened Prelude

  type Content = nat

  datatype File = File(content: Content, mtime: nat)

  /** A manifest entry; a fresh one has neither its hash nor its time yet. */
  datatype Entry = Entry(hash: Option<Content>, mtime: Option<nat>)

  /** What is held of one path: the content its nodes were extracted from, and its manifest entry. */
  datatype Held = Held(graph: Option<Content>, entry: Option<Entry>)

  /** The looks a job takes at the file: to detect or gate, to extract, and to stamp the manifest. */
  datatype Looks = Looks(gate: Option<File>, read: Option<File>, stamp: Option<File>)

  datatype Verdict = Unchanged | Changed | NotFound

  predicate SameTime(entry: Option<Entry>, file: Option<File>) {
    entry.Some? && file.Some? && entry.value.mtime == Some(file.value.mtime)
  }

  predicate SameHash(entry: Option<Entry>, file: Option<File>) {
    entry.Some? && file.Some? && entry.value.hash == Some(file.value.content)
  }

  /** The two-stage gate: the time of the last write unless the check is deep, then the hash. */
  function Dedup(entry: Option<Entry>, file: File, deep: bool): Verdict {
    if entry.None? then NotFound
    else if !deep && SameTime(entry, Some(file)) then Unchanged
    else if SameHash(entry, Some(file)) then Unchanged
    else Changed
  }

  /** The entry a stamp leaves; a file gone by then keeps the fresh one. */
  function Stamped(file: Option<File>): Entry {
    if file.None? then Entry(None, None) else Entry(Some(file.value.content), Some(file.value.mtime))
  }

  /**
   * An authoritative apply that names the path for indexing, for removal, or both: a file that has
   * vanished is folded into the removals, and a removal takes the manifest entry even of a path just
   * indexed.
   */
  function ApplyPath(s: Held, index: bool, removed: bool, read: Option<File>, stamp: Option<File>): Held {
    var indexed := index && read.Some?;
    var dropped := removed || (index && read.None?);
    Held(if indexed then Some(read.value.content) else if dropped then None else s.graph,
         if dropped then None else if indexed then Some(Stamped(stamp)) else s.entry)
  }

  /** A watcher's signal: what it names for indexing is gated, what it names as removed is not. */
  function Signalled(s: Held, named: bool, removed: bool, looks: Looks): Held {
    var drop := looks.gate.Some? && Dedup(s.entry, looks.gate.value, false) == Unchanged;
    ApplyPath(s, named && !drop, removed, looks.read, looks.stamp)
  }

  /** A reconcile: a listed file that is not unchanged is indexed, an entry for an unlisted one removed. */
  function Walked(s: Held, deep: bool, looks: Looks): Held {
    ApplyPath(s, looks.gate.Some? && Dedup(s.entry, looks.gate.value, deep) != Unchanged,
              looks.gate.None? && s.entry.Some?, looks.read, looks.stamp)
  }

  // ---- jobs over a file that holds still -----------------------------------

  datatype Job = Signal(named: bool, removed: bool) | Walk(deep: bool)

  function Run(s: Held, job: Job, looks: Looks): Held {
    match job
    case Signal(named, removed) => Signalled(s, named, removed, looks)
    case Walk(deep) => Walked(s, deep, looks)
  }

  function Still(file: Option<File>): Looks {
    Looks(file, file, file)
  }

  function RunAll(s: Held, jobs: seq<Job>, file: Option<File>): Held {
    if jobs == [] then s else Run(RunAll(s, jobs[..|jobs| - 1], file), jobs[|jobs| - 1], Still(file))
  }

  /** The nodes are those of the file as it is. */
  predicate Exact(s: Held, file: Option<File>) {
    s.graph == if file.Some? then Some(file.value.content) else None
  }

  /** Whether the job's gate finds the file unchanged, by its time or its hash. */
  predicate Passes(s: Held, job: Job, file: File) {
    Dedup(s.entry, file, job.Walk? && job.deep) != Unchanged
  }

  /** What a job over a still file settles, from any manifest whatever. */
  predicate Settles(s: Held, job: Job, file: Option<File>) {
    match (job, file)
    case (Signal(named, removed), None) => true
    case (Walk(_), None) => s.entry.Some? || s.graph.None?
    case (Signal(named, removed), Some(f)) =>
      (named && Passes(s, job, f)) || (!removed && s.graph == Some(f.content))
    case (Walk(_), Some(f)) => Passes(s, job, f) || s.graph == Some(f.content)
  }

  /** A job over a still file leaves its nodes exact if and only if it settles the path. */
  lemma ExactIffSettles(s: Held, job: Job, file: Option<File>)
    requires job.Signal? ==> job.named || job.removed
    ensures Exact(Run(s, job, Still(file)), file) <==> Settles(s, job, file)
  {
  }

  /** The manifest has the file's time or hash, so that a shallow gate passes it over, and the graph another content. */
  predicate PassedOver(s: Held, file: File) {
    (SameTime(s.entry, Some(file)) || SameHash(s.entry, Some(file))) && s.graph != Some(file.content)
  }

  /** The manifest has the file's own hash, so that every gate passes it over, and the graph another content. */
  predicate Torn(s: Held, file: File) {
    SameHash(s.entry, Some(file)) && s.graph != Some(file.content)
  }

  /** A write between extraction and stamping tears. */
  lemma WriteBeforeStampTears(s: Held, job: Job, before: File, after: File)
    requires before.content != after.content && (job.Signal? ==> job.named && !job.removed)
    requires Passes(s, job, before)
    ensures Torn(Run(s, job, Looks(Some(before), Some(before), Some(after))), after)
  {
  }

  /**
   * What a shallow gate passes over stays so for every run of signals and shallow reconciles, and what
   * is torn for deep ones too, until the file itself changes or is named as removed.
   */
  lemma {:induction false} PassedOverLasts(s: Held, jobs: seq<Job>, file: File)
    requires PassedOver(s, file) && forall i :: 0 <= i < |jobs| ==> (jobs[i].Signal? ==> !jobs[i].removed)
    requires Torn(s, file) || forall i :: 0 <= i < |jobs| ==> (jobs[i].Walk? ==> !jobs[i].deep)
    ensures RunAll(s, jobs, Some(file)) == s
  {
    if jobs != [] {
      var n := |jobs| - 1;
      PassedOverLasts(s, jobs[..n], file);
      assert jobs[n].Signal? ==> !jobs[n].removed;
      assert Torn(s, file) || (jobs[n].Walk? ==> !jobs[n].deep);
    }
  }

  /** A deep reconcile repairs exactly what is passed over and not torn. */
  lemma DeepRepairsTheUntorn(s: Held, file: File)
    requires PassedOver(s, file)
    ensures Exact(Run(s, Walk(true), Still(Some(file))), Some(file)) <==> !Torn(s, file)
  {
  }
}
