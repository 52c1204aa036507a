/** Nothing is lost once a project is watched: which steps can lose an edit, and that no other does. */
module Watch {
  import opened Prelude
  import opened Pipeline
  import opened WatchSpec

  // ---- the steps that can lose an edit -------------------------------------

  /** A gate that passes `p` over, though the file is other than the manifest has it. */
  predicate GateErrs(s: Sys, a: Act, p: Path) {
    s.running.Some? &&
    var w, entry, file := s.running.value, Get(s.manifest, p), Get(s.files, p);
    || (a == GateTime(p) && p in w.untimed && SameTime(entry, file) && !SameHash(entry, file))
    || (a == GateTime(p) && p in w.untimed && SameTime(entry, file) && p in w.removed)
    || (a == GateHash(p) && p in w.unhashed && SameHash(entry, file) && p in w.removed)
  }

  /**
   * The steps that can leave `p` uncovered: a job fails; a watcher starts with no converge behind it; a
   * watcher starts over an older removal of the file still queued, or over nodes a walk never finds; or
   * a gate passes over a file of an older time, or one the same batch names as removed.
   */
  ghost predicate Risky(s: Sys, a: Act, p: Path) {
    || (a.Fail? && s.running.Some?)
    || (a.StartWatcher? && !s.watching)
    || (a.WatchOn? && !s.watching && (!PipeOk(s, p) || Rotten(s, p)))
    || GateErrs(s, a, p)
  }

  ghost predicate NoRisk(s: Sys, acts: seq<Act>, p: Path) {
    acts != [] ==>
      var front := acts[..|acts| - 1];
      NoRisk(s, front, p) && !Risky(DoAll(s, front), acts[|acts| - 1], p)
  }

  ghost predicate Safe(s: Sys, p: Path) {
    WorkOk(s, p) && (s.watching ==> Covered(s, p) && PipeOk(s, p))
  }

  // ---- the pipe ------------------------------------------------------------

  lemma NamedConcat(a: seq<Change>, b: seq<Change>, p: Path)
    ensures Named(a + b, p) <==> Named(a, p) || Named(b, p)
  {
    if i :| 0 <= i < |a| && Names(a[i], p) {
      assert Names((a + b)[i], p);
    }
    if i :| 0 <= i < |b| && Names(b[i], p) {
      assert Names((a + b)[|a| + i], p);
    }
    if i :| 0 <= i < |a + b| && Names((a + b)[i], p) {
      assert (a + b)[i] == if i < |a| then a[i] else b[i - |a|];
    }
  }

  lemma DroppedConcat(a: seq<Change>, b: seq<Change>, p: Path)
    ensures Dropped(a + b, p) <==> Dropped(a, p) || Dropped(b, p)
  {
    if i :| 0 <= i < |a| && Drops(a[i], p) {
      assert Drops((a + b)[i], p);
    }
    if i :| 0 <= i < |b| && Drops(b[i], p) {
      assert Drops((a + b)[|a| + i], p);
    }
    if i :| 0 <= i < |a + b| && Drops((a + b)[i], p) {
      assert (a + b)[i] == if i < |a| then a[i] else b[i - |a|];
    }
  }

  lemma RescansConcat(a: seq<Change>, b: seq<Change>)
    ensures Rescans(a + b) <==> Rescans(a) || Rescans(b)
  {
    if i :| 0 <= i < |a| && a[i].Rescan? {
      assert (a + b)[i].Rescan?;
    }
    if i :| 0 <= i < |b| && b[i].Rescan? {
      assert (a + b)[|a| + i].Rescan?;
    }
    if i :| 0 <= i < |a + b| && (a + b)[i].Rescan? {
      assert (a + b)[i] == if i < |a| then a[i] else b[i - |a|];
    }
  }

  lemma OneItem(c: Change, p: Path)
    ensures Named([c], p) == Names(c, p) && Dropped([c], p) == Drops(c, p) && Rescans([c]) == c.Rescan?
    ensures InOrder([c], p) == !Drops(c, p)
  {
    assert [c][0] == c;
  }

  /** Removals stay followed when items that drop nothing, or name the path last, are put behind. */
  lemma InOrderConcat(a: seq<Change>, b: seq<Change>, p: Path)
    requires InOrder(b, p) && (InOrder(a, p) || Named(b, p))
    ensures InOrder(a + b, p)
  {
    forall i | 0 <= i < |a + b| && Drops((a + b)[i], p) ensures exists j :: i < j < |a + b| && Names((a + b)[j], p) {
      if i >= |a| {
        var j :| i - |a| < j < |b| && Names(b[j], p);
        assert Names((a + b)[|a| + j], p);
      } else if Named(b, p) {
        var j :| 0 <= j < |b| && Names(b[j], p);
        assert Names((a + b)[|a| + j], p);
      } else {
        var j :| i < j < |a| && Names(a[j], p);
        assert Names((a + b)[j], p);
      }
    }
  }

  lemma InOrderSuffix(a: seq<Change>, b: seq<Change>, p: Path)
    requires InOrder(a + b, p)
    ensures InOrder(b, p) && (Dropped(a, p) ==> Named(a + b, p))
  {
    forall i | 0 <= i < |b| && Drops(b[i], p) ensures exists j :: i < j < |b| && Names(b[j], p) {
      assert Drops((a + b)[|a| + i], p);
      var j :| |a| + i < j < |a + b| && Names((a + b)[j], p);
      assert Names(b[j - |a|], p);
    }
    if i :| 0 <= i < |a| && Drops(a[i], p) {
      assert Drops((a + b)[i], p);
    }
  }

  function Base(s: Sys): seq<Change> {
    s.backlog + s.queue + s.channel
  }

  /** The pipe, with the batch still settling as its last item. */
  lemma PipeParts(s: Sys, p: Path)
    ensures Named(Pipe(s), p) <==> Named(Base(s), p) || p in s.touched
    ensures Dropped(Pipe(s), p) <==> Dropped(Base(s), p) || (p in s.gone && p !in s.touched)
    ensures Rescans(Pipe(s)) <==> Rescans(Base(s))
    ensures p in s.touched ==> InOrder(Pipe(s), p)
  {
    var last := Change.Signal(s.touched, s.gone);
    NamedConcat(Base(s), [last], p);
    DroppedConcat(Base(s), [last], p);
    RescansConcat(Base(s), [last]);
    OneItem(last, p);
    if p in s.touched {
      InOrderConcat(Base(s), [last], p);
    }
  }

  /** Moving items along changes nothing of the pipe. */
  lemma MovesKeepPipe(s: Sys, a: Act)
    requires a.Route? || a.Collect?
    ensures Pipe(Do(s, a)) == Pipe(s)
  {
  }

  /** A batch that settles leaves an empty one behind it; a re-scope queues before the batch. */
  lemma SettlePipe(s: Sys, a: Act, p: Path)
    requires a.Settle? || a.Emit?
    ensures var t := Do(s, a);
            && (Named(Pipe(t), p) <==> Named(Pipe(s), p)) && (Dropped(Pipe(t), p) <==> Dropped(Pipe(s), p))
            && (Rescans(Pipe(s)) ==> Rescans(Pipe(t))) && (a.Settle? && Rescans(Pipe(t)) ==> Rescans(Pipe(s)))
            && (InOrder(Pipe(s), p) ==> InOrder(Pipe(t), p))
  {
    var t := Do(s, a);
    var empty := Change.Signal({}, {});
    OneItem(empty, p);
    if t != s && a.Settle? {
      assert Pipe(t) == Pipe(s) + [empty];
      NamedConcat(Pipe(s), [empty], p);
      DroppedConcat(Pipe(s), [empty], p);
      RescansConcat(Pipe(s), [empty]);
      if InOrder(Pipe(s), p) {
        InOrderConcat(Pipe(s), [empty], p);
      }
    } else if t != s {
      EmitPipe(Base(s), Change.Signal(s.touched, s.gone), p);
      assert Base(t) == Base(s) + [Rescan];
    }
  }

  lemma EmitPipe(base: seq<Change>, last: Change, p: Path)
    ensures var was, now := base + [last], base + [Rescan] + [last];
            && (Named(now, p) <==> Named(was, p)) && (Dropped(now, p) <==> Dropped(was, p)) && Rescans(now)
            && (InOrder(was, p) ==> InOrder(now, p))
  {
    OneItem(Rescan, p);
    OneItem(last, p);
    NamedConcat(base + [Rescan], [last], p);
    NamedConcat(base, [Rescan], p);
    NamedConcat(base, [last], p);
    DroppedConcat(base + [Rescan], [last], p);
    DroppedConcat(base, [Rescan], p);
    DroppedConcat(base, [last], p);
    RescansConcat(base + [Rescan], [last]);
    RescansConcat(base, [Rescan]);
    var was, now := base + [last], base + [Rescan] + [last];
    if InOrder(was, p) {
      forall i | 0 <= i < |now| && Drops(now[i], p) ensures exists j :: i < j < |now| && Names(now[j], p) {
        var k := if i < |base| then i else |base|;
        assert was[k] == now[i];
        var j :| k < j < |was| && Names(was[j], p);
        assert now[if j < |base| then j else j + 1] == was[j];
      }
    }
  }

  /** The front of the pipe comes off when its job starts. */
  lemma HeadComesOff(s: Sys, p: Path)
    requires s.backlog != []
    ensures var head, rest := s.backlog[0], Pipe(s.(backlog := s.backlog[1..]));
            && (Named(Pipe(s), p) <==> Names(head, p) || Named(rest, p))
            && (Dropped(Pipe(s), p) <==> Drops(head, p) || Dropped(rest, p))
            && (Rescans(Pipe(s)) <==> head.Rescan? || Rescans(rest))
            && (InOrder(Pipe(s), p) ==> InOrder(rest, p) && (Drops(head, p) ==> Named(rest, p)))
  {
    var head, rest := s.backlog[0], Pipe(s.(backlog := s.backlog[1..]));
    assert Pipe(s) == [head] + rest;
    OneItem(head, p);
    NamedConcat([head], rest, p);
    DroppedConcat([head], rest, p);
    RescansConcat([head], rest);
    if InOrder(Pipe(s), p) {
      InOrderSuffix([head], rest, p);
    }
  }

  // ---- each kind of step ---------------------------------------------------

  /** An edit is heard: what it did to `p` is on its way, and to others it did nothing. */
  lemma EditSafe(s: Sys, a: Act, p: Path)
    requires (a.Write? || a.Remove?) && Safe(s, p)
    ensures Safe(Do(s, a), p)
  {
    PipeParts(s, p);
    PipeParts(Do(s, a), p);
    if s.watching && a.p != p {
      OtherEditKeepsOrder(s, Do(s, a), p);
    }
  }

  lemma OtherEditKeepsOrder(s: Sys, t: Sys, p: Path)
    requires Base(t) == Base(s) && (p in t.touched <==> p in s.touched) && (p in t.gone <==> p in s.gone)
    ensures InOrder(Pipe(s), p) ==> InOrder(Pipe(t), p)
  {
    assert |Pipe(t)| == |Pipe(s)| == |Base(s)| + 1;
    assert forall i :: 0 <= i < |Base(s)| ==> Pipe(t)[i] == Pipe(s)[i];
    if InOrder(Pipe(s), p) {
      forall i | 0 <= i < |Pipe(t)| && Drops(Pipe(t)[i], p) ensures exists j :: i < j < |Pipe(t)| && Names(Pipe(t)[j], p) {
        assert Drops(Pipe(s)[i], p);
        var j :| i < j < |Pipe(s)| && Names(Pipe(s)[j], p);
        assert Names(Pipe(t)[j], p);
      }
    }
  }

  lemma MoveSafe(s: Sys, a: Act, p: Path)
    requires (a.Settle? || a.Emit? || a.Route? || a.Collect?) && Safe(s, p)
    ensures Safe(Do(s, a), p)
  {
    if a.Settle? || a.Emit? {
      SettlePipe(s, a, p);
    } else {
      MovesKeepPipe(s, a);
    }
  }

  /** A walk looks at what exists, and has settled what does not, nodes it never finds aside. */
  lemma WalkSettles(s: Sys, deep: bool, p: Path)
    requires s.running.None?
    ensures var t := s.(running := Some(Listing(s, deep)));
            if p in s.files then InWork(t, p) else (Right(t, p) <==> !Rotten(s, p)) && (Rotten(t, p) <==> Rotten(s, p))
  {
  }

  lemma StartConvergeSafe(s: Sys, deep: bool, p: Path)
    requires Safe(s, p)
    ensures Safe(Do(s, StartConverge(deep)), p)
  {
    if s.running.None? && s.converges > 0 {
      WalkSettles(s, deep, p);
      assert Pipe(Do(s, StartConverge(deep))) == Pipe(s);
    }
  }

  lemma StartBacklogSafe(s: Sys, p: Path)
    requires Safe(s, p)
    ensures Safe(Do(s, StartBacklog), p)
  {
    if s.running.None? && s.backlog != [] {
      HeadComesOff(s, p);
      assert Pipe(Do(s, StartBacklog)) == Pipe(s.(backlog := s.backlog[1..]));
      if s.backlog[0].Rescan? {
        WalkSettles(s, false, p);
      }
    }
  }

  predicate IsLook(a: Act) {
    a.GateTime? || a.GateHash? || a.Extract? || a.StampTime? || a.StampHash?
  }

  /** What a job had settled of `p`, or had yet to look at, is still one or the other. */
  predicate StillHeld(s: Sys, t: Sys, p: Path) {
    && WorkOk(t, p) && (Right(s, p) || InWork(s, p) ==> Right(t, p) || InWork(t, p))
    && (!Rotten(s, p) ==> !Rotten(t, p))
  }

  /** Two states of a job agree on `p`. */
  predicate SameAt(w: Work, v: Work, p: Path) {
    && (p in v.untimed <==> p in w.untimed) && (p in v.unhashed <==> p in w.unhashed)
    && (p in v.kept <==> p in w.kept) && (p in v.removed <==> p in w.removed)
    && Get(v.seen, p) == Get(w.seen, p) && Get(v.times, p) == Get(w.times, p) && Get(v.hashes, p) == Get(w.hashes, p)
  }

  lemma LookElsewhere(s: Sys, w: Work, a: Act, p: Path)
    requires IsLook(a) && a.p != p
    ensures SameAt(w, Look(s, w, a), p)
  {
    var entry, file := Get(s.manifest, a.p), Get(s.files, a.p);
    GateElsewhere(w, a.p, entry, file, p);
    StampElsewhere(w, a.p, file, p);
  }

  lemma GateElsewhere(w: Work, q: Path, entry: Option<Entry>, file: Option<File>, p: Path)
    requires q != p
    ensures SameAt(w, AtGateTime(w, q, entry, file), p) && SameAt(w, AtGateHash(w, q, entry, file), p)
  {
  }

  lemma StampElsewhere(w: Work, q: Path, file: Option<File>, p: Path)
    requires q != p
    ensures SameAt(w, AtExtract(w, q, file), p)
    ensures SameAt(w, AtStampTime(w, q, file), p) && SameAt(w, AtStampHash(w, q, file), p)
  {
  }

  lemma SameIsHeld(s: Sys, w: Work, v: Work, p: Path)
    requires s.running == Some(w) && WorkOk(s, p) && SameAt(w, v, p)
    ensures StillHeld(s, s.(running := Some(v)), p)
  {
    assert Gating(v, p) == Gating(w, p) && Stamping(v, p) == Stamping(w, p);
  }

  lemma GateHolds(s: Sys, a: Act, p: Path)
    requires (a.GateTime? || a.GateHash?) && WorkOk(s, p) && a.p == p && !GateErrs(s, a, p)
    ensures StillHeld(s, Do(s, a), p)
  {
  }

  lemma ExtractHolds(s: Sys, p: Path)
    requires WorkOk(s, p)
    ensures StillHeld(s, Do(s, Extract(p)), p)
  {
  }

  lemma StampHolds(s: Sys, a: Act, p: Path)
    requires (a.StampTime? || a.StampHash?) && WorkOk(s, p) && a.p == p
    ensures StillHeld(s, Do(s, a), p)
  {
  }

  /** A look that errs nowhere keeps every path covered. */
  lemma LookSafe(s: Sys, a: Act, p: Path)
    requires IsLook(a) && Safe(s, p) && !GateErrs(s, a, p)
    ensures Safe(Do(s, a), p)
  {
    var t := Do(s, a);
    assert StillHeld(s, t, p) by {
      if a.p != p {
        if s.running.Some? {
          LookElsewhere(s, s.running.value, a, p);
          SameIsHeld(s, s.running.value, Look(s, s.running.value, a), p);
        }
      } else if a.Extract? {
        ExtractHolds(s, p);
      } else if a.GateTime? || a.GateHash? {
        GateHolds(s, a, p);
      } else {
        StampHolds(s, a, p);
      }
    }
    SameAround(s, t, p);
  }

  lemma SameAround(s: Sys, t: Sys, p: Path)
    requires Safe(s, p) && StillHeld(s, t, p)
    requires Pipe(t) == Pipe(s) && t.files == s.files && t.converges == s.converges && t.watching == s.watching
    ensures Safe(t, p)
  {
  }

  lemma RecordedIs(s: Sys, p: Path)
    requires s.running.Some?
    ensures var t := Record(s, s.running.value);
            GraphOf(t, p) == GraphOf(s, p) && EntryOf(t, p) == EntryOf(s, p)
  {
  }

  lemma FinishSafe(s: Sys, p: Path)
    requires Safe(s, p)
    ensures Safe(Do(s, Finish), p)
  {
    if s.running.Some? && Done(s.running.value) {
      RecordedIs(s, p);
      assert Pipe(Do(s, Finish)) == Pipe(s);
    }
  }

  lemma StepSafe(s: Sys, a: Act, p: Path)
    requires Safe(s, p) && !Risky(s, a, p)
    ensures Safe(Do(s, a), p)
  {
    match a
    case Write(_, _) => EditSafe(s, a, p);
    case Remove(_) => EditSafe(s, a, p);
    case Settle => MoveSafe(s, a, p);
    case Emit => MoveSafe(s, a, p);
    case Route => MoveSafe(s, a, p);
    case Collect => MoveSafe(s, a, p);
    case StartConverge(deep) => StartConvergeSafe(s, deep, p);
    case StartBacklog => StartBacklogSafe(s, p);
    case Finish => FinishSafe(s, p);
    case WatchOn =>
    case StartWatcher =>
    case WatchOff =>
    case Index => assert Pipe(Do(s, Index)) == Pipe(s);
    case Fail =>
    case _ => LookSafe(s, a, p);
  }

  /**
   * No lost edit: whatever is created, written or removed, in every interleaving of looks, each path of
   * a watched project is recorded as it is, or a job has yet to look at it, or an event or a walk is on
   * its way for it, unless one of the risky steps was taken for it.
   */
  lemma {:induction false} NoLostEdit(s: Sys, acts: seq<Act>, p: Path)
    requires Safe(s, p) && NoRisk(s, acts, p)
    ensures Safe(DoAll(s, acts), p)
  {
    if acts != [] {
      NoLostEdit(s, acts[..|acts| - 1], p);
      StepSafe(DoAll(s, acts[..|acts| - 1]), acts[|acts| - 1], p);
    }
  }

  // ---- what each risky step costs ------------------------------------------

  /** A gate that errs uncovers the path exactly when nothing more is on its way. */
  lemma GateErrCosts(s: Sys, a: Act, p: Path)
    requires WorkOk(s, p) && GateErrs(s, a, p)
    ensures Covered(Do(s, a), p) <==> EventComing(s, p) || WalkComing(s)
  {
    assert Pipe(Do(s, a)) == Pipe(s);
  }

  /** A failing job uncovers exactly the paths recorded otherwise than they are that nothing is coming for. */
  lemma FailureCosts(s: Sys, p: Path)
    requires s.running.Some?
    ensures var held := Known(Get(s.files, p), Get(s.graph, p), Get(s.manifest, p));
            Covered(Do(s, Fail), p) <==>
            held || EventComing(s, p) || (WalkComing(s) && (p in s.files || p in s.manifest || p !in s.graph))
  {
    assert Pipe(Do(s, Fail)) == Pipe(s);
  }

  // ---- times that tell -----------------------------------------------------

  /** A recorded time that is the file's comes with the file's content. */
  predicate TellsOf(entry: Option<Entry>, file: Option<File>) {
    SameTime(entry, file) ==> SameHash(entry, file)
  }

  /** No time on record is later than the clock, and what was stamped since a file's last write is the file. */
  predicate Told(s: Sys, p: Path) {
    && (p in s.files ==> s.files[p].mtime <= s.clock)
    && (p in s.manifest && s.manifest[p].mtime.Some? ==> s.manifest[p].mtime.value <= s.clock)
    && TellsOf(Get(s.manifest, p), Get(s.files, p))
    && (s.running.Some? ==>
          var w := s.running.value;
          && (p in w.times && w.times[p].Some? ==> w.times[p].value <= s.clock)
          && (p in w.times && p in w.hashes ==> TellsOf(Some(Entry(w.hashes[p], w.times[p])), Get(s.files, p)))
          && (p in w.hashes ==> p in w.times))
  }

  /** Every write of `p` moves its time past every earlier one. */
  ghost predicate FreshTimes(s: Sys, acts: seq<Act>, p: Path) {
    acts != [] ==>
      var front, a := acts[..|acts| - 1], acts[|acts| - 1];
      FreshTimes(s, front, p) && (a.Write? && a.p == p ==> a.file.mtime > DoAll(s, front).clock)
  }

  lemma StepTold(s: Sys, a: Act, p: Path)
    requires Told(s, p) && (a.Write? && a.p == p ==> a.file.mtime > s.clock)
    ensures Told(Do(s, a), p)
  {
    if IsLook(a) && s.running.Some? {
      if a.p == p {
        OwnLookTold(s, a, p);
      } else {
        LookElsewhere(s, s.running.value, a, p);
      }
    } else if !IsLook(a) {
      OtherTold(s, a, p);
    }
  }

  lemma OwnLookTold(s: Sys, a: Act, p: Path)
    requires Told(s, p) && IsLook(a) && a.p == p
    ensures Told(Do(s, a), p)
  {
  }

  lemma OtherTold(s: Sys, a: Act, p: Path)
    requires Told(s, p) && (a.Write? && a.p == p ==> a.file.mtime > s.clock) && !IsLook(a)
    ensures Told(Do(s, a), p)
  {
  }

  lemma {:induction false} TimesStayTold(s: Sys, acts: seq<Act>, p: Path)
    requires Told(s, p) && FreshTimes(s, acts, p)
    ensures Told(DoAll(s, acts), p)
  {
    if acts != [] {
      TimesStayTold(s, acts[..|acts| - 1], p);
      StepTold(DoAll(s, acts[..|acts| - 1]), acts[|acts| - 1], p);
    }
  }

  /**
   * While writes move a file's time, no gate takes an old time for the file: what it passes over in
   * error is then only what the same batch names as removed.
   */
  lemma FreshTimesNeverLie(s: Sys, acts: seq<Act>, a: Act, p: Path)
    requires Told(s, p) && FreshTimes(s, acts, p) && GateErrs(DoAll(s, acts), a, p)
    ensures p in DoAll(s, acts).running.value.removed
  {
    TimesStayTold(s, acts, p);
  }
}
