/** Projects a daemon starts with: the walk first, then the watcher; and what news does after. */
module WatchStart {
  import opened Prelude
  import opened Pipeline
  import opened WatchSpec
  import opened Watch
  import opened WatchExact

  /** While startup's walk runs nothing else does, but the tree goes on changing; the walk may fail. */
  predicate DuringStartup(a: Act) {
    a.Write? || a.Remove? || IsLook(a) || a.Finish? || a.Fail?
  }

  ghost predicate AllDuringStartup(acts: seq<Act>) {
    forall i :: 0 <= i < |acts| ==> DuringStartup(acts[i])
  }

  /** The startup walk of an idle project that is not watched yet, as it begins. */
  function StartupWalk(s: Sys, deep: bool): Sys {
    Do(Do(s, Index), StartConverge(deep))
  }

  /**
   * How the walk left a path: absent by its listing or at extraction; as a content it compared or
   * stamped; with an entry that has no hash; or, the walk having failed, as it was before.
   */
  datatype Settled = Absent | As(content: Content) | Unstamped | AsBefore

  function OfHash(hash: Option<Content>): Settled {
    if hash.Some? then As(hash.value) else Unstamped
  }

  /** What a step of the walk settles `p` as, if it does; a file of the manifest's time is taken for the manifest's. */
  function SettledBy(t: Sys, a: Act, p: Path): Option<Settled> {
    if t.running.None? then None
    else
      var w, entry, file := t.running.value, Get(t.manifest, p), Get(t.files, p);
      if a == GateTime(p) && p in w.untimed && SameTime(entry, file) then Some(OfHash(entry.value.hash))
      else if a == GateHash(p) && p in w.unhashed && SameHash(entry, file) then Some(OfHash(entry.value.hash))
      else if a == Extract(p) && p in w.kept && file.None? then Some(Absent)
      else if a == StampHash(p) && Stamping(w, p) && p in w.times then Some(OfHash(ContentOf(file)))
      else if a.Fail? then Some(AsBefore)
      else None
  }

  function LastSettled(s: Sys, acts: seq<Act>, p: Path): Settled {
    if acts == [] then Absent
    else
      var left := SettledBy(DoAll(s, acts[..|acts| - 1]), acts[|acts| - 1], p);
      if left.Some? then left.value else LastSettled(s, acts[..|acts| - 1], p)
  }

  /** Nothing but the walk is in flight. */
  ghost predicate OnlyWalking(t: Sys) {
    !t.watching && t.touched == {} && t.gone == {} && t.channel == [] && t.queue == [] && t.backlog == [] && t.converges == 0
  }

  /** What is, or will be, recorded of a path the walk left as `how`; `s` is where it started. */
  predicate HeldAs(s: Sys, t: Sys, how: Settled, p: Path) {
    match how
    case Absent => EntryOf(t, p).None? && GraphOf(t, p) == if Rotten(s, p) then Get(s.graph, p) else None
    case As(content) => EntryOf(t, p).Some? && EntryOf(t, p).value.hash == Some(content)
    case Unstamped => EntryOf(t, p).Some? && EntryOf(t, p).value.hash.None?
    case AsBefore => t.running.None? && GraphOf(t, p) == Get(s.graph, p) && EntryOf(t, p) == Get(s.manifest, p)
  }

  ghost predicate WalkInv(s: Sys, t: Sys, how: Settled, p: Path) {
    && OnlyWalking(t) && WorkOk(t, p)
    && (t.running.Some? ==> t.graph == s.graph && t.manifest == s.manifest
                            && (p in t.running.value.removed ==> !Gating(t.running.value, p) && p !in t.running.value.seen)
                            && (Rotten(s, p) ==> !Gating(t.running.value, p) && p !in t.running.value.seen))
    && ((t.running.Some? && (Gating(t.running.value, p) || Stamping(t.running.value, p))) || HeldAs(s, t, how, p))
  }

  lemma EditKeepsWalk(s: Sys, t: Sys, a: Act, how: Settled, p: Path)
    requires (a.Write? || a.Remove?) && WalkInv(s, t, how, p)
    ensures WalkInv(s, Do(t, a), how, p) && SettledBy(t, a, p).None?
  {
  }

  lemma LookElsewhereKeepsWalk(s: Sys, t: Sys, a: Act, how: Settled, p: Path)
    requires IsLook(a) && a.p != p && WalkInv(s, t, how, p)
    ensures WalkInv(s, Do(t, a), how, p) && SettledBy(t, a, p).None?
  {
    if t.running.Some? {
      var w := t.running.value;
      LookElsewhere(t, w, a, p);
      SameWorkWalks(s, t, w, Look(t, w, a), how, p);
    }
  }

  lemma SameWorkWalks(s: Sys, t: Sys, w: Work, v: Work, how: Settled, p: Path)
    requires t.running == Some(w) && WalkInv(s, t, how, p) && SameAt(w, v, p)
    ensures WalkInv(s, t.(running := Some(v)), how, p)
  {
    assert Gating(v, p) == Gating(w, p) && Stamping(v, p) == Stamping(w, p);
  }

  lemma OwnLookKeepsWalk(s: Sys, t: Sys, a: Act, how: Settled, p: Path)
    requires IsLook(a) && a.p == p && WalkInv(s, t, how, p)
    ensures var left := SettledBy(t, a, p);
            WalkInv(s, Do(t, a), if left.Some? then left.value else how, p)
  {
    match a
    case GateTime(_) =>
    case GateHash(_) =>
    case Extract(_) =>
    case StampTime(_) =>
    case StampHash(_) =>
  }

  lemma EndKeepsWalk(s: Sys, t: Sys, a: Act, how: Settled, p: Path)
    requires (a.Finish? || a.Fail?) && WalkInv(s, t, how, p)
    ensures var left := SettledBy(t, a, p);
            WalkInv(s, Do(t, a), if left.Some? then left.value else how, p)
  {
    if a.Finish? && t.running.Some? && Done(t.running.value) {
      RecordedIs(t, p);
    }
  }

  lemma {:induction false} WalkKeeps(s: Sys, deep: bool, acts: seq<Act>, p: Path)
    requires !s.watching && Quiet(s) && AllDuringStartup(acts)
    ensures var walk := StartupWalk(s, deep);
            WalkInv(s, DoAll(walk, acts), LastSettled(walk, acts, p), p)
  {
    if acts != [] {
      var n := |acts| - 1;
      var walk, a := StartupWalk(s, deep), acts[n];
      assert AllDuringStartup(acts[..n]) && DuringStartup(a);
      WalkKeeps(s, deep, acts[..n], p);
      var t, how := DoAll(walk, acts[..n]), LastSettled(walk, acts[..n], p);
      if a.Write? || a.Remove? {
        EditKeepsWalk(s, t, a, how, p);
      } else if !IsLook(a) {
        EndKeepsWalk(s, t, a, how, p);
      } else if a.p == p {
        OwnLookKeepsWalk(s, t, a, how, p);
      } else {
        LookElsewhereKeepsWalk(s, t, a, how, p);
      }
    }
  }

  /** Whether a path left so is recorded as it is now; `s` is where the walk started. */
  predicate LeftRight(s: Sys, file: Option<File>, how: Settled, p: Path) {
    match how
    case Absent => ContentOf(file) == if Rotten(s, p) then Get(s.graph, p) else None
    case As(content) => ContentOf(file) == Some(content)
    case Unstamped => false
    case AsBefore => Known(file, Get(s.graph, p), Get(s.manifest, p))
  }

  /**
   * Startup walks every watched project, deep or shallow, and whether that failed or not starts its
   * watcher with no walk behind it. The project is then quiet, and a path is covered if and only if it
   * is now as the walk left it.
   */
  lemma StartupCoversExactly(s: Sys, deep: bool, acts: seq<Act>, p: Path)
    requires !s.watching && Quiet(s) && AllDuringStartup(acts)
    requires DoAll(StartupWalk(s, deep), acts).running.None?
    ensures var t := Do(DoAll(StartupWalk(s, deep), acts), StartWatcher);
            && t.watching && Quiet(t) && PipeOk(t, p) && WorkOk(t, p)
            && (Covered(t, p) <==> LeftRight(s, Get(t.files, p), LastSettled(StartupWalk(s, deep), acts, p), p))
            && (TornNow(t, p) <==> TornIn(StartupWalk(s, deep), acts, p))
  {
    WalkKeeps(s, deep, acts, p);
    TornNowIffTornIn(StartupWalk(s, deep), acts, p);
    var t := Do(DoAll(StartupWalk(s, deep), acts), StartWatcher);
    QuietPipe(t, p);
  }

  /** In a quiet system nothing is on its way. */
  lemma QuietPipe(s: Sys, p: Path)
    requires Quiet(s)
    ensures PipeOk(s, p) && !EventComing(s, p) && !WalkComing(s)
  {
    var empty := Change.Signal({}, {});
    assert Pipe(s) == [empty];
    OneItem(empty, p);
  }

  // ---- what brings a path back ---------------------------------------------

  /** What brings news of `p`: an edit of it, or a walk asked for that will find it. */
  predicate News(s: Sys, a: Act, p: Path) {
    || (a.Write? && a.p == p) || (a.Remove? && a.p == p && p in s.files)
    || (((a.Emit? && s.watching) || (a.WatchOn? && !s.watching) || a.Index?) && !Rotten(s, p))
  }

  predicate AnyNews(s: Sys, acts: seq<Act>, p: Path) {
    acts != [] &&
    var front := acts[..|acts| - 1];
    (AnyNews(s, front, p) || News(DoAll(s, front), acts[|acts| - 1], p))
  }

  lemma NewsCovers(s: Sys, a: Act, p: Path)
    requires News(s, a, p) && Do(s, a).watching
    ensures Covered(Do(s, a), p) && (a.Write? || a.Remove? ==> PipeOk(Do(s, a), p))
  {
    PipeParts(Do(s, a), p);
    if a.Emit? {
      EmitPipe(Base(s), Change.Signal(s.touched, s.gone), p);
      assert Base(Do(s, a)) == Base(s) + [Rescan];
    }
  }

  lemma LossAtRest(s: Sys, a: Act, p: Path)
    requires !Covered(s, p) && !News(s, a, p)
    requires a.Write? || a.Remove? || a.Settle? || a.Emit? || a.Route? || a.Collect?
    ensures !Covered(Do(s, a), p)
  {
    if a.Settle? || a.Emit? {
      SettlePipe(s, a, p);
    } else if a.Route? || a.Collect? {
      MovesKeepPipe(s, a);
    } else {
      PipeParts(s, p);
      PipeParts(Do(s, a), p);
    }
  }

  lemma LossAtSwitch(s: Sys, a: Act, p: Path)
    requires !Covered(s, p) && !News(s, a, p)
    requires a.WatchOn? || a.StartWatcher? || a.WatchOff? || a.Index?
    ensures !Covered(Do(s, a), p)
  {
    var t := Do(s, a);
    if a.WatchOff? {
      PipeParts(s, p);
      PipeParts(t, p);
      NamedConcat(s.backlog + s.queue, s.channel, p);
      DroppedConcat(s.backlog + s.queue, s.channel, p);
      RescansConcat(s.backlog + s.queue, s.channel);
      assert Base(t) == s.backlog + s.queue;
    } else {
      assert Pipe(t) == Pipe(s);
    }
  }

  lemma LossAtStart(s: Sys, a: Act, p: Path)
    requires !Covered(s, p) && (a.StartConverge? || a.StartBacklog?)
    ensures !Covered(Do(s, a), p)
  {
    var t := Do(s, a);
    if a.StartConverge? && t != s {
      WalkSettles(s, a.deep, p);
      assert Pipe(t) == Pipe(s);
    } else if a.StartBacklog? && s.running.None? && s.backlog != [] {
      HeadComesOff(s, p);
      assert Pipe(t) == Pipe(s.(backlog := s.backlog[1..]));
      if s.backlog[0].Rescan? {
        WalkSettles(s, false, p);
      }
    }
  }

  lemma LossAtLook(s: Sys, a: Act, p: Path)
    requires !Covered(s, p) && WorkOk(s, p) && (IsLook(a) || a.Finish?)
    ensures !Covered(Do(s, a), p)
  {
    var t := Do(s, a);
    assert Pipe(t) == Pipe(s);
    if s.running.Some? {
      if a.Finish? {
        RecordedIs(s, p);
      } else if a.p != p {
        LossElsewhere(s, s.running.value, a, p);
      } else {
        LossAtOwnLook(s, a, p);
      }
    }
  }

  lemma LossElsewhere(s: Sys, w: Work, a: Act, p: Path)
    requires s.running == Some(w) && WorkOk(s, p) && IsLook(a) && a.p != p
    requires !Right(s, p) && !InWork(s, p)
    ensures var t := Do(s, a); !Right(t, p) && !InWork(t, p) && (Rotten(s, p) ==> Rotten(t, p))
  {
    var v := Look(s, w, a);
    LookElsewhere(s, w, a, p);
    assert SameAt(v, w, p) && Phased(v, p);
    SameIsHeld(s.(running := Some(v)), v, w, p);
  }

  lemma LossAtOwnLook(s: Sys, a: Act, p: Path)
    requires !Covered(s, p) && WorkOk(s, p) && IsLook(a) && a.p == p
    ensures !Right(Do(s, a), p) && !InWork(Do(s, a), p) && Rotten(Do(s, a), p) == Rotten(s, p)
  {
  }

  /** A step that is neither news nor risky leaves an uncovered path uncovered. */
  lemma StepKeepsLoss(s: Sys, a: Act, p: Path)
    requires !Covered(s, p) && WorkOk(s, p) && !News(s, a, p) && !(a.Fail? && s.running.Some?)
    ensures !Covered(Do(s, a), p)
  {
    match a
    case WatchOn => LossAtSwitch(s, a, p);
    case StartWatcher => LossAtSwitch(s, a, p);
    case WatchOff => LossAtSwitch(s, a, p);
    case Index => LossAtSwitch(s, a, p);
    case StartConverge(_) => LossAtStart(s, a, p);
    case StartBacklog => LossAtStart(s, a, p);
    case Fail =>
    case _ =>
      if IsLook(a) || a.Finish? {
        LossAtLook(s, a, p);
      } else {
        LossAtRest(s, a, p);
      }
  }

  /** The parts of safety that hold of an uncovered path too. */
  ghost predicate Orderly(s: Sys, p: Path) {
    WorkOk(s, p) && (s.watching ==> PipeOk(s, p))
  }

  lemma PipeStaysOk(s: Sys, a: Act, p: Path)
    requires Orderly(s, p) && !(a.StartWatcher? && !s.watching) && !(a.WatchOn? && !s.watching && !PipeOk(s, p))
    ensures Do(s, a).watching ==> PipeOk(Do(s, a), p)
  {
    if a.Write? || a.Remove? {
      PipeParts(s, p);
      PipeParts(Do(s, a), p);
      if a.p != p {
        OtherEditKeepsOrder(s, Do(s, a), p);
      }
    } else if a.Settle? || a.Emit? {
      SettlePipe(s, a, p);
    } else if a.Route? || a.Collect? {
      MovesKeepPipe(s, a);
    } else if a.StartBacklog? && s.running.None? && s.backlog != [] {
      HeadComesOff(s, p);
      assert Pipe(Do(s, a)) == Pipe(s.(backlog := s.backlog[1..]));
    } else if !a.WatchOff? {
      assert Pipe(Do(s, a)) == Pipe(s);
    }
  }

  lemma WorkStaysOk(s: Sys, a: Act, p: Path)
    requires WorkOk(s, p)
    ensures WorkOk(Do(s, a), p)
  {
    if IsLook(a) && s.running.Some? {
      if a.p != p {
        LookElsewhere(s, s.running.value, a, p);
      } else {
        OwnLookPhased(s, s.running.value, a, p);
      }
    }
  }

  lemma OwnLookPhased(s: Sys, w: Work, a: Act, p: Path)
    requires IsLook(a) && a.p == p && Phased(w, p)
    ensures Phased(Look(s, w, a), p)
  {
  }

  /**
   * In a run without a risky step for `p`, a path left uncovered stays so until it is edited again or a
   * walk is asked for that finds it, and is covered from then on whenever the project is watched.
   */
  lemma {:induction false} NewsDecides(s: Sys, acts: seq<Act>, p: Path)
    requires s.watching && Orderly(s, p) && NoRisk(s, acts, p)
    ensures Orderly(DoAll(s, acts), p)
    ensures !Covered(s, p) && !AnyNews(s, acts, p) ==> !Covered(DoAll(s, acts), p)
    ensures DoAll(s, acts).watching ==> (Covered(DoAll(s, acts), p) <==> Covered(s, p) || AnyNews(s, acts, p))
  {
    if acts != [] {
      var prev, a := DoAll(s, acts[..|acts| - 1]), acts[|acts| - 1];
      NewsDecides(s, acts[..|acts| - 1], p);
      NewsStep(prev, a, p);
    }
  }

  lemma NewsStep(s: Sys, a: Act, p: Path)
    requires Orderly(s, p) && !Risky(s, a, p)
    ensures Orderly(Do(s, a), p)
    ensures News(s, a, p) && Do(s, a).watching ==> Covered(Do(s, a), p)
    ensures !News(s, a, p) && !Covered(s, p) ==> !Covered(Do(s, a), p)
    ensures !News(s, a, p) && Covered(s, p) && s.watching && Do(s, a).watching ==> Covered(Do(s, a), p)
    ensures !s.watching && Do(s, a).watching ==> News(s, a, p)
  {
    PipeStaysOk(s, a, p);
    WorkStaysOk(s, a, p);
    if News(s, a, p) {
      if Do(s, a).watching {
        NewsCovers(s, a, p);
      }
    } else if !Covered(s, p) {
      StepKeepsLoss(s, a, p);
    } else if s.watching {
      StepSafe(s, a, p);
    }
  }

  /**
   * The whole watched life of a project a daemon starts with, in a run without a risky step for `p`:
   * whenever it is quiet, `p` is recorded right if and only if it was edited or found by a walk since
   * its watcher started, or was then as the startup walk left it; and the graph has it then unless the
   * job that last recorded it tore it.
   */
  lemma StartedProjectIsExact(s: Sys, deep: bool, acts: seq<Act>, more: seq<Act>, p: Path)
    requires !s.watching && Quiet(s) && AllDuringStartup(acts)
    requires DoAll(StartupWalk(s, deep), acts).running.None?
    requires var t := Do(DoAll(StartupWalk(s, deep), acts), StartWatcher);
             NoRisk(t, more, p) && DoAll(t, more).watching && Quiet(DoAll(t, more))
    ensures var walk := StartupWalk(s, deep);
            var t := Do(DoAll(walk, acts), StartWatcher);
            Right(DoAll(t, more), p) <==>
            AnyNews(t, more, p) || LeftRight(s, Get(t.files, p), LastSettled(walk, acts, p), p)
    ensures var u := DoAll(Do(DoAll(StartupWalk(s, deep), acts), StartWatcher), more);
            Right(u, p) ==>
              (Get(u.graph, p) == ContentOf(Get(u.files, p)) <==>
               !TornIn(Do(DoAll(StartupWalk(s, deep), acts), StartWatcher), more, p))
  {
    StartupCoversExactly(s, deep, acts, p);
    var t := Do(DoAll(StartupWalk(s, deep), acts), StartWatcher);
    NewsDecides(t, more, p);
    QuietPipe(DoAll(t, more), p);
    TornNowIffTornIn(t, more, p);
    if Right(DoAll(t, more), p) {
      RightIsExactUnlessTorn(DoAll(t, more), p);
    }
  }

  // ---- the start-up order loses an edit ------------------------------------

  /** A daemon's deep walk reads the only file, which is written again before its watcher starts. */
  function LossyStart(p: Path): Sys {
    var walk := StartupWalk(OneFile(p).(watching := false), true);
    Do(Do(Do(Do(walk, GateHash(p)), Write(p, File(2, 20))), Finish), StartWatcher)
  }

  lemma StartupLosesAnEdit(p: Path)
    ensures var t := LossyStart(p);
            t.watching && Quiet(t) && t.files == map[p := File(2, 20)] && t.graph == map[p := 1]
  {
    var walk := StartupWalk(OneFile(p).(watching := false), true);
    assert walk.running == Some(Work({}, {p}, {}, {}, map[], map[], map[])) by {
      assert OneFile(p).files.Keys == {p} && OneFile(p).manifest.Keys - {p} == {};
    }
    var gated := Do(walk, GateHash(p));
    assert gated.running == Some(Work({}, {}, {}, {}, map[], map[], map[])) by {
      assert {p} - {p} == {};
    }
    EmptyJobRecordsNothing(Do(gated, Write(p, File(2, 20))));
  }
}
