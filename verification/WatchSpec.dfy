/** One project's edits from the filesystem to the index, look by look. */
module WatchSpec {
  import opened Prelude
  import opened Pipeline

  /** An indexable path; only its identity matters here. */
  type Path = nat

  /** A producer's item: the paths a settled batch names to index and as removed, or a request to re-scope. */
  datatype Change = Signal(named: set<Path>, removed: set<Path>) | Rescan

  /**
   * A job under the project's lock: the paths whose time, then whose hash, it has yet to compare, those
   * it keeps to extract, those it removes unread; what it extracted, a vanished file as nothing; and the
   * times and hashes it stamped since. Its paths proceed independently.
   */
  datatype Work = Work(
    untimed: set<Path>, unhashed: set<Path>, kept: set<Path>, removed: set<Path>,
    seen: map<Path, Option<Content>>, times: map<Path, Option<nat>>, hashes: map<Path, Option<Content>>)

  /**
   * `graph` and `manifest` are what is recorded of each path. An edit of a watched tree passes through
   * the debouncer's batch (`touched` and `gone`), the producer's channel, the priority queue and the
   * deferred backlog. `converges` counts reconciles waiting for the lock.
   */
  datatype Sys = Sys(
    files: map<Path, File>,
    clock: nat,
    graph: map<Path, Content>,
    manifest: map<Path, Entry>,
    watching: bool,
    touched: set<Path>,
    gone: set<Path>,
    channel: seq<Change>,
    queue: seq<Change>,
    backlog: seq<Change>,
    converges: nat,
    running: Option<Work>)

  /**
   * `StartWatcher` is a watcher started without a converge behind it, as daemon startup does; a waiting
   * reconcile starts deep (`watch on`, an index command, a start after a crash) or shallow.
   */
  datatype Act =
    | Write(p: Path, file: File)
    | Remove(p: Path)
    | Settle
    | Emit
    | WatchOn
    | StartWatcher
    | WatchOff
    | Index
    | Route
    | Collect
    | StartConverge(deep: bool)
    | StartBacklog
    | GateTime(p: Path)
    | GateHash(p: Path)
    | Extract(p: Path)
    | StampTime(p: Path)
    | StampHash(p: Path)
    | Finish
    | Fail

  function Get<T>(m: map<Path, T>, p: Path): Option<T> {
    if p in m then Some(m[p]) else None
  }

  function ContentOf(file: Option<File>): Option<Content> {
    if file.Some? then Some(file.value.content) else None
  }

  function TimeOf(file: Option<File>): Option<nat> {
    if file.Some? then Some(file.value.mtime) else None
  }

  // ---- jobs ----------------------------------------------------------------

  /** A walk lists what exists; entries for anything else are removed. A deep one skips the times. */
  function Listing(s: Sys, deep: bool): Work {
    var listed := s.files.Keys;
    Work(if deep then {} else listed, if deep then listed else {}, {}, s.manifest.Keys - listed, map[], map[], map[])
  }

  function Begin(s: Sys, c: Change): Work {
    match c
    case Signal(named, removed) => Work(named, {}, {}, removed, map[], map[], map[])
    case Rescan => Listing(s, false)
  }

  predicate Stamping(w: Work, p: Path) {
    p in w.seen && w.seen[p].Some? && p !in w.removed && p !in w.hashes
  }

  predicate Done(w: Work) {
    && w.untimed == {} && w.unhashed == {} && w.kept == {}
    && forall p :: p in w.seen ==> !Stamping(w, p)
  }

  function AtGateTime(w: Work, p: Path, entry: Option<Entry>, file: Option<File>): Work {
    if p !in w.untimed then w
    else if SameTime(entry, file) then w.(untimed := w.untimed - {p})
    else w.(untimed := w.untimed - {p}, unhashed := w.unhashed + {p})
  }

  function AtGateHash(w: Work, p: Path, entry: Option<Entry>, file: Option<File>): Work {
    if p !in w.unhashed then w
    else if SameHash(entry, file) then w.(unhashed := w.unhashed - {p})
    else w.(unhashed := w.unhashed - {p}, kept := w.kept + {p})
  }

  function AtExtract(w: Work, p: Path, file: Option<File>): Work {
    if p in w.kept then w.(kept := w.kept - {p}, seen := w.seen[p := ContentOf(file)]) else w
  }

  function AtStampTime(w: Work, p: Path, file: Option<File>): Work {
    if Stamping(w, p) && p !in w.times then w.(times := w.times[p := TimeOf(file)]) else w
  }

  function AtStampHash(w: Work, p: Path, file: Option<File>): Work {
    if Stamping(w, p) && p in w.times then w.(hashes := w.hashes[p := ContentOf(file)]) else w
  }

  /** What the graph holds of `p` once `w` is recorded over `graph`. */
  function GraphAfter(w: Work, graph: map<Path, Content>, p: Path): Option<Content> {
    if p in w.seen then w.seen[p] else if p in w.removed then None else Get(graph, p)
  }

  /** What the manifest holds of `p` then; a removal takes the entry even of a path just extracted. */
  function EntryAfter(w: Work, manifest: map<Path, Entry>, p: Path): Option<Entry> {
    if p in w.removed || (p in w.seen && w.seen[p].None?) then None
    else if p in w.seen then
      Some(Entry(if p in w.hashes then w.hashes[p] else None, if p in w.times then w.times[p] else None))
    else Get(manifest, p)
  }

  function Record(s: Sys, w: Work): Sys {
    s.(graph := map p | p in s.graph.Keys + w.seen.Keys && GraphAfter(w, s.graph, p).Some? ::
                  GraphAfter(w, s.graph, p).value,
       manifest := map p | p in s.manifest.Keys + w.seen.Keys && EntryAfter(w, s.manifest, p).Some? ::
                     EntryAfter(w, s.manifest, p).value,
       running := None)
  }

  // ---- steps ---------------------------------------------------------------

  /** A step; one its guard does not allow changes nothing. */
  function Do(s: Sys, a: Act): Sys {
    match a
    case Write(p, file) =>
      s.(files := s.files[p := file],
         clock := if s.clock < file.mtime then file.mtime else s.clock,
         touched := if s.watching then s.touched + {p} else s.touched)
    case Remove(p) =>
      if p in s.files then s.(files := s.files - {p}, gone := if s.watching then s.gone + {p} else s.gone) else s
    case Settle =>
      if s.watching && (s.touched != {} || s.gone != {})
      then s.(touched := {}, gone := {}, channel := s.channel + [Change.Signal(s.touched, s.gone)]) else s
    case Emit => if s.watching then s.(channel := s.channel + [Rescan]) else s
    case WatchOn => if s.watching then s else s.(watching := true, converges := s.converges + 1)
    case StartWatcher => s.(watching := true)
    case WatchOff => s.(watching := false, touched := {}, gone := {}, channel := [])
    case Index => s.(converges := s.converges + 1)
    case Route => s.(channel := [], queue := s.queue + s.channel)
    case Collect => s.(queue := [], backlog := s.backlog + s.queue)
    case StartConverge(deep) =>
      if s.running.None? && s.converges > 0
      then s.(converges := s.converges - 1, running := Some(Listing(s, deep))) else s
    case StartBacklog =>
      if s.running.None? && s.backlog != []
      then s.(backlog := s.backlog[1..], running := Some(Begin(s, s.backlog[0]))) else s
    case Finish => if s.running.Some? && Done(s.running.value) then Record(s, s.running.value) else s
    case Fail => s.(running := None)
    case _ => if s.running.Some? then s.(running := Some(Look(s, s.running.value, a))) else s
  }

  /** A look a job takes at one path. */
  function Look(s: Sys, w: Work, a: Act): Work {
    match a
    case GateTime(p) => AtGateTime(w, p, Get(s.manifest, p), Get(s.files, p))
    case GateHash(p) => AtGateHash(w, p, Get(s.manifest, p), Get(s.files, p))
    case Extract(p) => AtExtract(w, p, Get(s.files, p))
    case StampTime(p) => AtStampTime(w, p, Get(s.files, p))
    case StampHash(p) => AtStampHash(w, p, Get(s.files, p))
    case _ => w
  }

  function DoAll(s: Sys, acts: seq<Act>): Sys {
    if acts == [] then s else Do(DoAll(s, acts[..|acts| - 1]), acts[|acts| - 1])
  }

  ghost predicate Quiet(s: Sys) {
    && s.touched == {} && s.gone == {} && s.channel == [] && s.queue == [] && s.backlog == []
    && s.converges == 0 && s.running.None?
  }

  // ---- where a path is -----------------------------------------------------

  /** What is recorded of `p`, or will be once the running job is. */
  function GraphOf(s: Sys, p: Path): Option<Content> {
    if s.running.Some? then GraphAfter(s.running.value, s.graph, p) else Get(s.graph, p)
  }

  function EntryOf(s: Sys, p: Path): Option<Entry> {
    if s.running.Some? then EntryAfter(s.running.value, s.manifest, p) else Get(s.manifest, p)
  }

  /** The manifest has the file as it is; without an entry the graph itself has; nothing is held of no file. */
  predicate Known(file: Option<File>, graph: Option<Content>, entry: Option<Entry>) {
    match file
    case None => graph.None? && entry.None?
    case Some(f) => if entry.Some? then entry.value.hash == Some(f.content) else graph == Some(f.content)
  }

  predicate Right(s: Sys, p: Path) {
    Known(Get(s.files, p), GraphOf(s, p), EntryOf(s, p))
  }

  predicate Gating(w: Work, p: Path) {
    p in w.untimed || p in w.unhashed || p in w.kept
  }

  /** The running job has yet to look at `p` again; a look at no file only stamps an empty entry. */
  predicate InWork(s: Sys, p: Path) {
    s.running.Some? && (Gating(s.running.value, p) || (p in s.files && Stamping(s.running.value, p)))
  }

  predicate Names(c: Change, p: Path) {
    c.Signal? && p in c.named
  }

  /** The item removes `p` unread. */
  predicate Drops(c: Change, p: Path) {
    c.Signal? && p in c.removed && p !in c.named
  }

  /** What is on its way to the scheduler, in the order jobs will start. */
  function Pipe(s: Sys): seq<Change> {
    s.backlog + s.queue + s.channel + [Change.Signal(s.touched, s.gone)]
  }

  ghost predicate Named(cs: seq<Change>, p: Path) {
    exists i :: 0 <= i < |cs| && Names(cs[i], p)
  }

  ghost predicate Dropped(cs: seq<Change>, p: Path) {
    exists i :: 0 <= i < |cs| && Drops(cs[i], p)
  }

  ghost predicate Rescans(cs: seq<Change>) {
    exists i :: 0 <= i < |cs| && cs[i].Rescan?
  }

  /** An event is on its way that leaves `p` as it now is. */
  ghost predicate EventComing(s: Sys, p: Path) {
    Named(Pipe(s), p) || (p !in s.files && Dropped(Pipe(s), p))
  }

  ghost predicate WalkComing(s: Sys) {
    s.converges > 0 || Rescans(Pipe(s))
  }

  /** A walk settles what it lists or has an entry for; nodes with neither it never finds. */
  predicate Rotten(s: Sys, p: Path) {
    p !in s.files && EntryOf(s, p).None? && GraphOf(s, p).Some?
  }

  /** `p` is recorded as it is, absence included, or something is still coming for it. */
  ghost predicate Covered(s: Sys, p: Path) {
    Right(s, p) || InWork(s, p) || EventComing(s, p) || (WalkComing(s) && !Rotten(s, p))
  }

  /** No removal of an existing file is on its way without an event naming it behind. */
  ghost predicate InOrder(cs: seq<Change>, p: Path) {
    forall i :: 0 <= i < |cs| && Drops(cs[i], p) ==> exists j :: i < j < |cs| && Names(cs[j], p)
  }

  ghost predicate PipeOk(s: Sys, p: Path) {
    p in s.files ==> InOrder(Pipe(s), p)
  }

  /** A path is in one phase of its job at a time. */
  predicate Phased(w: Work, p: Path) {
    && !(p in w.untimed && p in w.unhashed) && !(p in w.untimed && p in w.kept) && !(p in w.unhashed && p in w.kept)
    && (p in w.seen ==> !Gating(w, p)) && (p in w.times ==> p in w.seen) && (p in w.hashes ==> p in w.times)
  }

  predicate WorkOk(s: Sys, p: Path) {
    s.running.Some? ==> Phased(s.running.value, p)
  }
}
