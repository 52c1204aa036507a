/** The per-project lock table. */
module Locks {
  import opened Graph

  /** A mutex handle; two handles are the same mutex exactly when they are equal. */
  type Handle = nat

  type Table = map<Id, Handle>

  /** The lock for `id`, made on first use. */
  function HandleFor(table: Table, id: Id): (Table, Handle) {
    if id in table then (table, table[id]) else (table[id := |table|], |table|)
  }

  /** No two projects share a lock, and the next one made is new. */
  ghost predicate Distinct(table: Table) {
    && (forall i, j :: i in table && j in table && table[i] == table[j] ==> i == j)
    && (forall i :: i in table ==> table[i] < |table|)
  }

  lemma HandleForKeeps(table: Table, id: Id)
    requires Distinct(table)
    ensures var (t, h) := HandleFor(table, id);
            Distinct(t) && id in t && t[id] == h && forall i :: i in table ==> i in t && t[i] == table[i]
  {
    if id !in table {
      var t := table[id := |table|];
      assert t.Keys == table.Keys + {id};
      assert |t.Keys| == |t| && |table.Keys| == |table|;
    }
  }

  function TableAfter(table: Table, ids: seq<Id>): Table {
    if ids == [] then table else HandleFor(TableAfter(table, ids[..|ids| - 1]), ids[|ids| - 1]).0
  }

  lemma {:induction false} TableGrows(table: Table, ids: seq<Id>)
    requires Distinct(table)
    ensures Distinct(TableAfter(table, ids)) && forall i :: i in table ==> i in TableAfter(table, ids)
                                                                           && TableAfter(table, ids)[i] == table[i]
  {
    if ids != [] {
      TableGrows(table, ids[..|ids| - 1]);
      HandleForKeeps(TableAfter(table, ids[..|ids| - 1]), ids[|ids| - 1]);
    }
  }

  /** However many locks are handed out in between, two calls answer the same mutex exactly for the same id. */
  lemma SameLockIffSameId(table: Table, a: Id, between: seq<Id>, b: Id)
    requires Distinct(table)
    ensures var (t, h) := HandleFor(table, a);
            HandleFor(TableAfter(t, between), b).1 == h <==> a == b
  {
    var (t, h) := HandleFor(table, a);
    HandleForKeeps(table, a);
    TableGrows(t, between);
    HandleForKeeps(TableAfter(t, between), b);
  }

  class ProjectLocks {
    var locks: Table
    /** The locks the calling thread holds. A mutex is not reentrant: taking one of these again would hang. */
    var held: set<Handle>

    ghost predicate Valid()
      reads this
    {
      Distinct(locks) && forall h :: h in held ==> h < |locks|
    }

    /** The calling thread does not hold `id`'s lock. */
    ghost predicate Free(id: Id)
      reads this
    {
      id in locks ==> locks[id] !in held
    }

    constructor ()
      ensures Valid() && locks == map[] && held == {}
    {
      locks, held := map[], {};
    }

    method LockFor(id: Id) returns (handle: Handle)
      requires Valid()
      modifies this`locks
      ensures Valid() && (locks, handle) == HandleFor(old(locks), id)
      ensures forall x :: old(Free(x)) ==> Free(x)
      ensures old(Free(id)) ==> handle !in held
    {
      HandleForKeeps(locks, id);
      if id !in locks {
        locks := locks[id := |locks|];
        assert |locks| == |old(locks)| + 1;
      }
      handle := locks[id];
    }

    /** `lock`: waits for other threads, so only the caller's own locks are asked not to include it. */
    method Acquire(handle: Handle)
      requires Valid() && handle < |locks| && handle !in held
      modifies this`held
      ensures Valid() && held == old(held) + {handle}
    {
      held := held + {handle};
    }

    /** The guard is dropped. */
    method Release(handle: Handle)
      requires Valid() && handle in held
      modifies this`held
      ensures Valid() && held == old(held) - {handle}
    {
      held := held - {handle};
    }
  }
}
