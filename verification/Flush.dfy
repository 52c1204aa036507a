/** `Flusher`: the persistence cadence updated in place, proved against FlushSpec. */
module Flush {
  import opened Prelude
  import opened Graph
  import opened StateCache
  import opened Locks
  import Cache = CacheSpec
  import Spec = FlushSpec

  class Flusher {
    const cache: ProjectStateCache
    const cfg: Spec.FlushConfig
    const locks: ProjectLocks
    var dirty: map<Id, Spec.Dirty>
    var persisted: map<Id, Spec.Time>
    var outDirs: map<Id, Dir>
    var writes: nat
    /** What the injected clock reads. */
    var now: Spec.Time
    /** The checkpoint files the stores read and write, by output directory. */
    var disk: map<Dir, GraphState>

    ghost function Model(): Spec.Store
      reads this, cache
    {
      Spec.Store(cache.Model(), dirty, persisted, outDirs, writes, now, cfg, disk)
    }

    constructor (cache: ProjectStateCache, cfg: Spec.FlushConfig, locks: ProjectLocks, now: Spec.Time,
                 disk: map<Dir, GraphState>)
      ensures this.cache == cache && this.locks == locks
      ensures Model() == Spec.Store(cache.Model(), map[], map[], map[], 0, now, cfg, disk)
    {
      this.cache, this.cfg, this.locks, this.now, this.disk := cache, cfg, locks, now, disk;
      dirty, persisted, outDirs, writes := map[], map[], map[], 0;
    }

    method StateOf(p: Spec.Project, faults: set<Id>) returns (r: Result<Cache.Arc, Spec.Error>)
      modifies this, cache
      ensures (Model(), r) == Spec.StateOf(old(Model()), p, faults)
    {
      Remember(p);
      var hit := cache.GetArc(p.id);
      if hit.Some? { return Ok(hit.value); }
      if p.id in faults { return Err(Spec.Io); }
      var state := Spec.Load(disk, p.outputDir);
      var evicted := cache.LoadInto(p.id, state);
      var arc := cache.GetArc(p.id);
      var flushed := FlushEvicted(evicted, faults);
      if flushed.Err? { return Err(flushed.error); }
      r := if arc.Some? then Ok(arc.value) else Err(Spec.Vanished);
    }

    method RecordApply(p: Spec.Project, merged: GraphState, lane: Spec.Persistence, faults: set<Id>)
      returns (r: Result<(), Spec.Error>)
      modifies this, cache
      ensures (Model(), r) == Spec.RecordApply(old(Model()), p, merged, lane, faults)
    {
      Remember(p);
      match lane
      case Flush => r := RecordFlush(p, merged, faults);
      case Defer => r := RecordDefer(p, merged, faults);
    }

    method RecordFlush(p: Spec.Project, merged: GraphState, faults: set<Id>) returns (r: Result<(), Spec.Error>)
      modifies this, cache
      ensures (Model(), r) == Spec.RecordFlush(old(Model()), p, merged, faults)
    {
      var ok := WriteState(p.id, p.outputDir, merged, faults);
      if !ok { return Err(Spec.Io); }
      var evicted := cache.LoadInto(p.id, merged);
      dirty := dirty - {p.id};
      r := FlushEvicted(evicted, faults);
    }

    method RecordDefer(p: Spec.Project, merged: GraphState, faults: set<Id>) returns (r: Result<(), Spec.Error>)
      modifies this, cache
      ensures (Model(), r) == Spec.RecordDefer(old(Model()), p, merged, faults)
    {
      var at := now;
      var evicted := cache.Put(p.id, merged);
      if p.id !in dirty {
        dirty := dirty[p.id := Spec.Dirty(at, at)];
      }
      dirty := dirty[p.id := dirty[p.id].(lastApply := at)];
      assert dirty == Spec.Extend(old(dirty), p.id, at);
      r := FlushEvicted(evicted, faults);
    }

    /** Takes the project's lock, so the calling thread must not hold it. */
    method FlushProject(id: Id, faults: set<Id>) returns (r: Result<bool, Spec.Error>)
      requires locks.Valid() && locks.Free(id)
      modifies this, cache, locks
      ensures (Model(), r) == Spec.FlushProject(old(Model()), id, faults)
      ensures locks.Valid() && locks.held == old(locks.held)
      ensures forall x :: old(locks.Free(x)) ==> locks.Free(x)
    {
      if id !in dirty { return Ok(false); }
      var handle := locks.LockFor(id);
      locks.Acquire(handle);
      r := FlushLocked(id, faults);
      locks.Release(handle);
    }

    method FlushLocked(id: Id, faults: set<Id>) returns (r: Result<bool, Spec.Error>)
      modifies this, cache
      ensures (Model(), r) == Spec.FlushProject(old(Model()), id, faults)
    {
      if id !in dirty { return Ok(false); }
      if id !in outDirs { return Err(Spec.UnknownOutputDir); }
      var state := cache.PeekArc(id);
      if state.None? {
        dirty := dirty - {id};
        return Err(Spec.NotResident);
      }
      var ok := WriteState(id, outDirs[id], state.value.value, faults);
      if !ok { return Err(Spec.Io); }
      cache.MarkClean(id);
      dirty := dirty - {id};
      r := Ok(true);
    }

    /** The due projects, in whatever order the dirty table is walked. */
    method Due() returns (ids: seq<Id>)
      ensures NoDup(ids) && Elements(ids) == Spec.Due(Model())
    {
      ids := [];
      var rest := dirty.Keys;
      while rest != {}
        invariant rest <= dirty.Keys
        invariant NoDup(ids) && forall id :: id in ids <==> id in dirty.Keys - rest && Spec.IsDue(Model(), id)
        decreases rest
      {
        var id :| id in rest;
        rest := rest - {id};
        NoDupSnoc(ids, id);
        if now - dirty[id].lastApply >= cfg.quiescence || now - dirty[id].firstDirty >= cfg.maxDirtyAge {
          ids := ids + [id];
        }
      }
    }

    method FlushDue(faults: set<Id>) returns (failures: seq<(Id, Spec.Error)>, ids: seq<Id>)
      requires locks.Valid() && locks.held == {}
      modifies this, cache, locks
      ensures locks.Valid() && locks.held == {}
      ensures NoDup(ids) && Elements(ids) == Spec.Due(old(Model()))
      ensures (Model(), failures) == Spec.FlushEach(old(Model()), ids, faults)
    {
      ids := Due();
      failures := FlushEach(ids, faults);
    }

    method FlushAll(faults: set<Id>) returns (failures: seq<(Id, Spec.Error)>, ids: seq<Id>)
      requires locks.Valid() && locks.held == {}
      modifies this, cache, locks
      ensures locks.Valid() && locks.held == {}
      ensures NoDup(ids) && Elements(ids) == old(dirty).Keys
      ensures (Model(), failures) == Spec.FlushEach(old(Model()), ids, faults)
    {
      ids := DirtyIds();
      failures := FlushEach(ids, faults);
    }

    method DirtyIds() returns (ids: seq<Id>)
      ensures NoDup(ids) && Elements(ids) == dirty.Keys
    {
      ids := [];
      var rest := dirty.Keys;
      while rest != {}
        invariant rest <= dirty.Keys
        invariant NoDup(ids)
        invariant forall id :: id in ids <==> id in dirty.Keys - rest
        decreases rest
      {
        var id :| id in rest;
        rest := rest - {id};
        NoDupSnoc(ids, id);
        ids := ids + [id];
      }
    }

    /** One lock at a time: nothing may be held when the walk starts, and nothing is at its end. */
    method FlushEach(ids: seq<Id>, faults: set<Id>) returns (failures: seq<(Id, Spec.Error)>)
      requires locks.Valid() && locks.held == {}
      modifies this, cache, locks
      ensures locks.Valid() && locks.held == {}
      ensures (Model(), failures) == Spec.FlushEach(old(Model()), ids, faults)
    {
      failures := [];
      ghost var whole := Spec.FlushEach(Model(), ids, faults);
      assert [] + whole.1 == whole.1;
      var i := 0;
      while i < |ids|
        invariant i <= |ids| && locks.Valid() && locks.held == {}
        invariant var rest := Spec.FlushEach(Model(), ids[i..], faults); whole == (rest.0, failures + rest.1)
      {
        ghost var rest := Spec.FlushEach(Model(), ids[i..], faults);
        assert ids[i..][1..] == ids[i + 1..];
        var r := FlushProject(ids[i], faults);
        ghost var more := Spec.FlushEach(Model(), ids[i + 1..], faults).1;
        if r.Err? {
          assert failures + ([(ids[i], r.error)] + more) == failures + [(ids[i], r.error)] + more;
          failures := failures + [(ids[i], r.error)];
        }
        i := i + 1;
      }
      assert failures + [] == failures;
    }

    method Remember(p: Spec.Project)
      modifies this`outDirs
      ensures outDirs == Spec.Remember(old(Model()), p).outDirs
    {
      if p.id !in outDirs || outDirs[p.id] != p.outputDir {
        outDirs := outDirs[p.id := p.outputDir];
      } else {
        assert outDirs == outDirs[p.id := p.outputDir];
      }
    }

    method WriteState(id: Id, dir: Dir, state: GraphState, faults: set<Id>) returns (ok: bool)
      modifies this`disk, this`writes, this`persisted
      ensures (Model(), ok) == Spec.WriteState(old(Model()), id, dir, state, faults)
    {
      if id in faults { return false; }
      disk := disk[dir := Erase(state)];
      writes := writes + 1;
      persisted := persisted[id := now];
      ok := true;
    }

    method FlushEvicted(evicted: seq<Cache.Evicted>, faults: set<Id>) returns (r: Result<(), Spec.Error>)
      modifies this
      ensures (Model(), r) == Spec.FlushEvicted(old(Model()), evicted, faults)
    {
      ghost var whole := Spec.FlushEvicted(Model(), evicted, faults);
      var i := 0;
      while i < |evicted|
        invariant i <= |evicted|
        invariant whole == Spec.FlushEvicted(Model(), evicted[i..], faults)
      {
        var e := evicted[i];
        assert evicted[i..][1..] == evicted[i + 1..];
        dirty := dirty - {e.id};
        i := i + 1;
        if e.state.Some? {
          if e.id !in outDirs { return Err(Spec.UnknownOutputDir); }
          var ok := WriteState(e.id, outDirs[e.id], e.state.value.value, faults);
          if !ok { return Err(Spec.Io); }
        }
      }
      r := Ok(());
    }
  }
}
