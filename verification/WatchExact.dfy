/** What a watched project's graph is once it is quiet, and when it is not its tree. */
module WatchExact {
  import opened Prelude
  import opened Pipeline
  import opened WatchSpec
  import opened Watch

  // ---- the graph against the manifest --------------------------------------

  /** What a job recorded of a path: nothing, its removal, or the content extracted and what was stamped. */
  datatype Recorded = Untouched | Erased | Indexed(extracted: Content, entry: bool, stamped: Option<Content>)

  function RecordOf(w: Work, p: Path): Recorded {
    if p in w.seen && w.seen[p].Some? then
      Indexed(w.seen[p].value, p !in w.removed, if p in w.hashes then w.hashes[p] else None)
    else if p in w.seen || p in w.removed then Erased
    else Untouched
  }

  /** What the run's last job to record `p` recorded. */
  function LastRecord(s: Sys, acts: seq<Act>, p: Path): Recorded {
    if acts == [] then Untouched
    else
      var t, a := DoAll(s, acts[..|acts| - 1]), acts[|acts| - 1];
      if a.Finish? && t.running.Some? && Done(t.running.value) && !RecordOf(t.running.value, p).Untouched?
      then RecordOf(t.running.value, p)
      else LastRecord(s, acts[..|acts| - 1], p)
  }

  /** The graph and manifest of `p` after a run, by its last record. */
  predicate HeldBy(s: Sys, t: Sys, r: Recorded, p: Path) {
    match r
    case Untouched => Get(t.graph, p) == Get(s.graph, p) && Get(t.manifest, p) == Get(s.manifest, p)
    case Erased => p !in t.graph && p !in t.manifest
    case Indexed(extracted, entry, stamped) =>
      && Get(t.graph, p) == Some(extracted)
      && (if entry then p in t.manifest && t.manifest[p].hash == stamped else p !in t.manifest)
  }

  lemma FinishHolds(s: Sys, t: Sys, r: Recorded, p: Path)
    requires HeldBy(s, t, r, p) && t.running.Some?
    ensures var now := RecordOf(t.running.value, p);
            HeldBy(s, Record(t, t.running.value), if now.Untouched? then r else now, p)
  {
  }

  lemma OtherStepHolds(s: Sys, a: Act, p: Path)
    requires !a.Finish?
    ensures Do(s, a).graph == s.graph && Do(s, a).manifest == s.manifest
  {
  }

  lemma {:induction false} RecordHolds(s: Sys, acts: seq<Act>, p: Path)
    ensures HeldBy(s, DoAll(s, acts), LastRecord(s, acts, p), p)
  {
    if acts != [] {
      var front, a := acts[..|acts| - 1], acts[|acts| - 1];
      var t := DoAll(s, front);
      RecordHolds(s, front, p);
      if a.Finish? && t.running.Some? && Done(t.running.value) {
        FinishHolds(s, t, LastRecord(s, front, p), p);
      } else if !a.Finish? {
        OtherStepHolds(t, a, p);
      }
    }
  }

  /**
   * The job that last recorded `p` stamped another content than it extracted; where none did, the
   * manifest was of another content from the start.
   */
  predicate TornIn(s: Sys, acts: seq<Act>, p: Path) {
    match LastRecord(s, acts, p)
    case Untouched => p in s.manifest && s.manifest[p].hash != Get(s.graph, p)
    case Erased => false
    case Indexed(extracted, entry, stamped) => entry && stamped != Some(extracted)
  }

  /** The manifest has another content of `p` than the graph. */
  predicate TornNow(s: Sys, p: Path) {
    p in s.manifest && s.manifest[p].hash != Get(s.graph, p)
  }

  /** After any run a path is torn if and only if the job that last recorded it tore it. */
  lemma TornNowIffTornIn(s: Sys, acts: seq<Act>, p: Path)
    ensures TornNow(DoAll(s, acts), p) <==> TornIn(s, acts, p)
  {
    RecordHolds(s, acts, p);
  }

  /** Where the manifest is right, the graph is unless torn. */
  lemma RightIsExactUnlessTorn(s: Sys, p: Path)
    requires s.running.None? && Right(s, p)
    ensures Get(s.graph, p) == ContentOf(Get(s.files, p)) <==> !TornNow(s, p)
  {
  }

  /**
   * A watched project with nothing in flight, after a run without a risky step for `p`: the manifest
   * has `p` as it is, and the graph does if and only if the job that last recorded `p` extracted the
   * content it stamped.
   */
  lemma QuietPathIsExact(s: Sys, acts: seq<Act>, p: Path)
    requires Safe(s, p) && NoRisk(s, acts, p) && DoAll(s, acts).watching && Quiet(DoAll(s, acts))
    ensures var t := DoAll(s, acts);
            && (p in t.manifest ==> p in t.files && t.manifest[p].hash == Some(t.files[p].content))
            && (p in t.graph ==> p in t.files) && (p in t.files ==> p in t.manifest || p in t.graph)
            && (Get(t.graph, p) == ContentOf(Get(t.files, p)) <==> !TornIn(s, acts, p))
  {
    NoLostEdit(s, acts, p);
    QuietIsRight(DoAll(s, acts), p);
    TornNowIffTornIn(s, acts, p);
    RightIsExactUnlessTorn(DoAll(s, acts), p);
  }

  lemma QuietIsRight(s: Sys, p: Path)
    requires Quiet(s) && Covered(s, p)
    ensures Right(s, p)
  {
    PipeParts(s, p);
    assert Base(s) == [];
  }

  function Contents(files: map<Path, File>): map<Path, Content> {
    map p | p in files :: files[p].content
  }

  lemma GraphIsContents(s: Sys)
    ensures s.graph == Contents(s.files) <==> forall p :: Get(s.graph, p) == ContentOf(Get(s.files, p))
  {
    if forall p :: Get(s.graph, p) == ContentOf(Get(s.files, p)) {
      assert forall p :: p in s.graph <==> p in s.files by {
        forall p ensures p in s.graph <==> p in s.files {
          assert Get(s.graph, p) == ContentOf(Get(s.files, p));
        }
      }
      forall p | p in s.files ensures s.graph[p] == s.files[p].content {
        assert Get(s.graph, p) == ContentOf(Get(s.files, p));
      }
    } else {
      var p :| Get(s.graph, p) != ContentOf(Get(s.files, p));
      assert Get(Contents(s.files), p) == ContentOf(Get(s.files, p));
    }
  }

  /** So its graph is of exactly its tree if and only if no path is torn. */
  lemma QuietIsExact(s: Sys, acts: seq<Act>)
    requires forall p :: Safe(s, p) && NoRisk(s, acts, p)
    requires DoAll(s, acts).watching && Quiet(DoAll(s, acts))
    ensures DoAll(s, acts).graph == Contents(DoAll(s, acts).files) <==> forall p :: !TornIn(s, acts, p)
  {
    var t := DoAll(s, acts);
    GraphIsContents(t);
    forall p ensures Get(t.graph, p) == ContentOf(Get(t.files, p)) <==> !TornIn(s, acts, p) {
      assert Safe(s, p) && NoRisk(s, acts, p);
      QuietPathIsExact(s, acts, p);
    }
  }

  /** Where `watch on` starts from: nothing in flight, and no nodes outside the manifest. */
  lemma IdleIsSafe(s: Sys, p: Path)
    requires !s.watching && Quiet(s)
    ensures Safe(s, p) && (Risky(s, WatchOn, p) <==> Rotten(s, p))
  {
    PipeParts(s, p);
    assert Base(s) == [];
    OneItem(Change.Signal({}, {}), p);
    assert Pipe(s) == [Change.Signal({}, {})] by {
      assert s.touched == {} && s.gone == {};
    }
  }

  // ---- the edit that is lost -----------------------------------------------

  /** A watched project of one indexed file. */
  function OneFile(p: Path): Sys {
    Sys(map[p := File(1, 10)], 10, map[p := 1], map[p := Entry(Some(1), Some(10))],
        true, {}, {}, [], [], [], 0, None)
  }

  /** A settled batch travels to the backlog and its job starts. */
  function Delivered(s: Sys): Sys {
    Do(Do(Do(Do(s, Settle), Route), Collect), StartBacklog)
  }

  /** The file is written; its job extracts it; it is written again before that job stamps and records. */
  function TornJob(p: Path): Sys {
    var started := Delivered(Do(OneFile(p), Write(p, File(2, 20))));
    var extracted := Do(Do(Do(started, GateTime(p)), GateHash(p)), Extract(p));
    Do(Do(Do(Do(extracted, Write(p, File(3, 30))), StampTime(p)), StampHash(p)), Finish)
  }

  /** The second write's own event comes through, and the gate passes it over. */
  function TornRun(p: Path): Sys {
    Do(Do(Delivered(TornJob(p)), GateTime(p)), Finish)
  }

  lemma DeliveredIs(s: Sys)
    requires s.watching && s.touched != {} && s.channel == [] && s.queue == [] && s.backlog == [] && s.running.None?
    ensures Delivered(s) ==
            s.(touched := {}, gone := {}, running := Some(Work(s.touched, {}, {}, s.gone, map[], map[], map[])))
  {
    var c := Change.Signal(s.touched, s.gone);
    var settled := Do(s, Settle);
    assert settled == s.(touched := {}, gone := {}, channel := [c]);
    var collected := Do(Do(settled, Route), Collect);
    assert collected == s.(touched := {}, gone := {}, backlog := [c]);
    assert [c][1..] == [];
  }

  lemma TornExtracts(s: Sys, p: Path)
    requires s.running == Some(Work({p}, {}, {}, {}, map[], map[], map[])) && p in s.files
    requires !SameTime(Get(s.manifest, p), Get(s.files, p)) && !SameHash(Get(s.manifest, p), Get(s.files, p))
    ensures Do(Do(Do(s, GateTime(p)), GateHash(p)), Extract(p)) ==
            s.(running := Some(Work({}, {}, {}, {}, map[p := Some(s.files[p].content)], map[], map[])))
  {
    assert {p} - {p} == {} && {} + {p} == {p};
  }

  lemma TornStamps(s: Sys, p: Path, c: Content)
    requires s.running == Some(Work({}, {}, {}, {}, map[p := Some(c)], map[], map[])) && p in s.files
    ensures Do(Do(s, StampTime(p)), StampHash(p)) ==
            s.(running := Some(Work({}, {}, {}, {}, map[p := Some(c)], map[p := Some(s.files[p].mtime)],
                                    map[p := Some(s.files[p].content)])))
  {
  }

  lemma TornJobIs(p: Path)
    ensures TornJob(p) == OneFile(p).(files := map[p := File(3, 30)], clock := 30, touched := {p},
                                      graph := map[p := 2], manifest := map[p := Entry(Some(3), Some(30))])
  {
    var written := Do(OneFile(p), Write(p, File(2, 20)));
    assert written.files == map[p := File(2, 20)] && written.touched == {p};
    DeliveredIs(written);
    TornExtracts(Delivered(written), p);
    var extracted := Do(Do(Do(Delivered(written), GateTime(p)), GateHash(p)), Extract(p));
    var again := Do(extracted, Write(p, File(3, 30)));
    assert again.files == map[p := File(3, 30)] && again.touched == {p};
    TornStamps(again, p, 2);
    TornFinish(Do(Do(again, StampTime(p)), StampHash(p)), p);
  }

  lemma TornFinish(s: Sys, p: Path)
    requires s.running == Some(Work({}, {}, {}, {}, map[p := Some(2)], map[p := Some(30)], map[p := Some(3)]))
    requires s.graph == map[p := 1] && s.manifest == map[p := Entry(Some(1), Some(10))]
    ensures Do(s, Finish) == s.(graph := map[p := 2], manifest := map[p := Entry(Some(3), Some(30))], running := None)
  {
    assert Done(s.running.value);
    assert Record(s, s.running.value).graph == map[p := 2];
    assert Record(s, s.running.value).manifest == map[p := Entry(Some(3), Some(30))];
  }

  /** Watched, quiet, every event delivered: the file is at its third content, and the graph of its second. */
  lemma TornRunLosesAnEdit(p: Path)
    ensures var t := TornRun(p);
            && t.watching && Quiet(t) && t.files == map[p := File(3, 30)]
            && t.graph == map[p := 2] && t.manifest == map[p := Entry(Some(3), Some(30))]
  {
    TornJobIs(p);
    DeliveredIs(TornJob(p));
    GatedAway(Delivered(TornJob(p)), p);
  }

  lemma GatedAway(s: Sys, p: Path)
    requires s.running == Some(Work({p}, {}, {}, {}, map[], map[], map[]))
    requires SameTime(Get(s.manifest, p), Get(s.files, p))
    ensures Do(Do(s, GateTime(p)), Finish) == s.(running := None)
  {
    assert {p} - {p} == {};
    EmptyJobRecordsNothing(Do(s, GateTime(p)));
  }

  lemma EmptyJobRecordsNothing(s: Sys)
    requires s.running == Some(Work({}, {}, {}, {}, map[], map[], map[]))
    ensures Do(s, Finish) == s.(running := None)
  {
    assert Done(s.running.value);
    assert Record(s, s.running.value).graph == s.graph;
    assert Record(s, s.running.value).manifest == s.manifest;
  }

  /** A write that keeps the file's time: its event comes through, and the shallow gate passes it over. */
  function KeptTimeRun(p: Path): Sys {
    Do(Do(Delivered(Do(OneFile(p), Write(p, File(2, 10)))), GateTime(p)), Finish)
  }

  lemma KeptTimeLosesAnEdit(p: Path)
    ensures var t := KeptTimeRun(p);
            t.watching && Quiet(t) && t.files == map[p := File(2, 10)] && t.graph == map[p := 1]
  {
    var written := Do(OneFile(p), Write(p, File(2, 10)));
    assert written.files == map[p := File(2, 10)] && written.touched == {p};
    DeliveredIs(written);
    GatedAway(Delivered(written), p);
  }

  /** A file removed and restored as it was within one batch: its entry passes the gate, its removal takes it. */
  function RestoredRun(p: Path): Sys {
    var restored := Do(Do(OneFile(p), Remove(p)), Write(p, File(1, 10)));
    Do(Do(Delivered(restored), GateTime(p)), Finish)
  }

  lemma RestoredIsDropped(p: Path)
    ensures var t := RestoredRun(p);
            t.watching && Quiet(t) && t.files == map[p := File(1, 10)] && t.graph == map[] && t.manifest == map[]
  {
    var restored := Do(Do(OneFile(p), Remove(p)), Write(p, File(1, 10)));
    assert restored.files == map[p := File(1, 10)] && restored.touched == {p} && restored.gone == {p};
    DeliveredIs(restored);
    var gated := Do(Delivered(restored), GateTime(p));
    assert gated.running == Some(Work({}, {}, {}, {p}, map[], map[], map[])) by {
      assert {p} - {p} == {};
    }
    OnlyRemoves(gated, p);
  }

  lemma OnlyRemoves(s: Sys, p: Path)
    requires s.running == Some(Work({}, {}, {}, {p}, map[], map[], map[]))
    requires s.graph.Keys == {p} && s.manifest.Keys == {p}
    ensures Do(s, Finish) == s.(graph := map[], manifest := map[], running := None)
  {
    assert Done(s.running.value);
    assert Record(s, s.running.value).graph == map[];
    assert Record(s, s.running.value).manifest == map[];
  }

  /**
   * A removal still queued when the watcher is turned off, the file written anew meanwhile, the watcher
   * turned on again: the converge indexes the file, and the old removal then takes it.
   */
  function StaleRemovalRun(p: Path): Sys {
    var queued := Do(Do(Do(OneFile(p), Remove(p)), Settle), Route);
    var again := Do(Do(Do(queued, WatchOff), Write(p, File(2, 20))), WatchOn);
    var converged := Do(Converging(Do(again, StartConverge(true)), p), Finish);
    Do(Do(Do(converged, Collect), StartBacklog), Finish)
  }

  function Converging(s: Sys, p: Path): Sys {
    Do(Do(Do(Do(s, GateHash(p)), Extract(p)), StampTime(p)), StampHash(p))
  }

  lemma ConvergingIs(s: Sys, p: Path)
    requires s.running == Some(Work({}, {p}, {}, {}, map[], map[], map[])) && p in s.files
    requires !SameHash(Get(s.manifest, p), Get(s.files, p))
    ensures var f := s.files[p];
            Converging(s, p) == s.(running := Some(Work({}, {}, {}, {}, map[p := Some(f.content)],
                                                        map[p := Some(f.mtime)], map[p := Some(f.content)])))
  {
    assert {p} - {p} == {} && {} + {p} == {p};
    var extracted := Do(Do(s, GateHash(p)), Extract(p));
    assert extracted.running == Some(Work({}, {}, {}, {}, map[p := Some(s.files[p].content)], map[], map[]));
    TornStamps(extracted, p, s.files[p].content);
  }

  lemma QueuedRemoval(p: Path)
    ensures var drop := Change.Signal({}, {p});
            Do(Do(Do(OneFile(p), Remove(p)), Settle), Route) ==
            OneFile(p).(files := map[], queue := [drop])
  {
    assert OneFile(p).files - {p} == map[];
    assert {} + {p} == {p};
  }

  lemma RewatchedConverges(s: Sys, p: Path)
    requires s == OneFile(p).(files := map[], queue := [Change.Signal({}, {p})])
    ensures var again := Do(Do(Do(s, WatchOff), Write(p, File(2, 20))), WatchOn);
            Do(again, StartConverge(true)) ==
            s.(files := map[p := File(2, 20)], clock := 20, running := Some(Work({}, {p}, {}, {}, map[], map[], map[])))
  {
    assert OneFile(p).manifest.Keys - {p} == {};
    assert map[p := File(2, 20)].Keys == {p};
  }

  lemma StaleRemovalLosesAFile(p: Path)
    ensures var t := StaleRemovalRun(p);
            t.watching && Quiet(t) && t.files == map[p := File(2, 20)] && t.graph == map[] && t.manifest == map[]
  {
    QueuedRemoval(p);
    var queued := Do(Do(Do(OneFile(p), Remove(p)), Settle), Route);
    RewatchedConverges(queued, p);
    var walking := Do(Do(Do(Do(queued, WatchOff), Write(p, File(2, 20))), WatchOn), StartConverge(true));
    ConvergingIs(walking, p);
    var converged := Do(Converging(walking, p), Finish);
    FullJobRecords(Converging(walking, p), p);
    assert [] + [Change.Signal({}, {p})] == [Change.Signal({}, {p})] && [Change.Signal({}, {p})][1..] == [];
    OnlyRemoves(Do(Do(converged, Collect), StartBacklog), p);
  }

  lemma FullJobRecords(s: Sys, p: Path)
    requires s.running == Some(Work({}, {}, {}, {}, map[p := Some(2)], map[p := Some(20)], map[p := Some(2)]))
    requires s.graph.Keys == {p} && s.manifest.Keys == {p}
    ensures Do(s, Finish) == s.(graph := map[p := 2], manifest := map[p := Entry(Some(2), Some(20))], running := None)
  {
    assert Done(s.running.value);
    assert Record(s, s.running.value).graph == map[p := 2];
    assert Record(s, s.running.value).manifest == map[p := Entry(Some(2), Some(20))];
  }
}
