/** The recency order against the history of uses it stands for. */
module Lru {
  import opened Prelude
  import opened Graph
  import opened CacheSpec

  datatype Use =
    | Get(id: Id)
    | Peek(id: Id)
    | Serve(id: Id)
    | Install(id: Id, of: Arc, view: GraphView)
    | Clean(id: Id)
    | Put(id: Id, state: GraphState, dirty: bool)

  function Do(c: Cache, u: Use): Cache {
    match u
    case Get(id) => GetArc(c, id).0
    case Peek(id) => c
    case Serve(id) => View(c, id).0
    case Install(id, of, view) => InstallView(c, id, of, view).0
    case Clean(id) => MarkClean(c, id)
    case Put(id, state, dirty) => Insert(c, id, state, dirty).0
  }

  function DoAll(c: Cache, us: seq<Use>): Cache {
    if us == [] then c else Do(DoAll(c, us[..|us| - 1]), us[|us| - 1])
  }

  /** Whether `u` counts as a use of `id`: a hit or an insert does, a checkpoint's peek does not. */
  predicate Uses(c: Cache, u: Use, id: Id) {
    match u
    case Get(x) => x == id && id in c.graphs
    case Serve(x) => x == id && id in c.graphs && c.graphs[id].view.Some?
    case Put(x, _, _) => x == id
    case _ => false
  }

  /** When `id` was last used: one past the index of its last use, 0 if it never was. */
  function LastUse(c: Cache, us: seq<Use>, id: Id): nat {
    if us == [] then 0
    else
      var front := us[..|us| - 1];
      if Uses(DoAll(c, front), us[|us| - 1], id) then |us| else LastUse(c, front, id)
  }

  /** `w` is sorted by last use, everything in it having been used. */
  ghost predicate SortedByUse(c: Cache, us: seq<Use>, w: seq<Id>) {
    Ranked(x => LastUse(c, us, x), |us|, w)
  }

  /** `w` goes up in rank, from above 0 to at most `top`. */
  ghost predicate Ranked(rank: Id -> nat, top: nat, w: seq<Id>) {
    && (forall i :: 0 <= i < |w| ==> 0 < rank(w[i]) <= top)
    && (forall i, j :: 0 <= i < j < |w| ==> rank(w[i]) < rank(w[j]))
  }

  lemma WithoutRanked(rank: Id -> nat, top: nat, w: seq<Id>, x: Id)
    requires Ranked(rank, top, w)
    ensures Ranked(rank, top, Without(w, x))
  {
    if x in w {
      var pos := WithoutSplits(w, x);
      CutRanked(rank, top, w, pos);
    } else {
      WithoutAbsent(w, x);
    }
  }

  lemma CutRanked(rank: Id -> nat, top: nat, w: seq<Id>, pos: nat)
    requires pos < |w| && Ranked(rank, top, w)
    ensures Ranked(rank, top, w[..pos] + w[pos + 1..])
  {
    var v := w[..pos] + w[pos + 1..];
    forall i | 0 <= i < |v| ensures 0 < rank(v[i]) <= top {
      assert v[i] == w[if i < pos then i else i + 1];
    }
    forall i, j | 0 <= i < j < |v| ensures rank(v[i]) < rank(v[j]) {
      var a, b := if i < pos then i else i + 1, if j < pos then j else j + 1;
      assert v[i] == w[a] && v[j] == w[b] && a < b;
    }
  }

  /** What a step does to the order: nothing, or a use of one id moves it last, perhaps paging out the front. */
  lemma StepOrder(c: Cache, u: Use)
    requires CacheInv(c)
    ensures var d := Do(c, u);
            || (d.order == c.order && forall id :: !Uses(c, u, id))
            || (Uses(c, u, u.id) && d.order == Without(c.order, u.id) + [u.id])
            || (Uses(c, u, u.id) && u.id !in c.order && c.order != [] && d.order == c.order[1..] + [u.id])
  {
    if u.Put? {
      PutOrder(c, u.id, u.state, u.dirty);
    }
  }

  lemma PutOrder(c: Cache, id: Id, state: GraphState, dirty: bool)
    requires CacheInv(c)
    ensures var d := Insert(c, id, state, dirty).0;
            || d.order == Without(c.order, id) + [id]
            || (id !in c.order && c.order != [] && d.order == c.order[1..] + [id])
  {
    InsertEvicts(c, id, state, dirty);
    if Victim(c, id).Some? {
      WithoutAbsent(c.order, id);
      assert (c.order + [id])[1..] == c.order[1..] + [id];
    }
  }

  /** Views are installed under the object they were built from. */
  predicate Sound(c: Cache, u: Use) {
    u.Install? ==> u.view.of == u.of && Genuine(c, u.of)
  }

  ghost predicate AllSound(c: Cache, us: seq<Use>) {
    us != [] ==> AllSound(c, us[..|us| - 1]) && Sound(DoAll(c, us[..|us| - 1]), us[|us| - 1])
  }

  lemma DoKeepsInv(c: Cache, u: Use)
    requires CacheInv(c) && Sound(c, u)
    ensures CacheInv(Do(c, u))
  {
    match u
    case Get(id) => if id in c.graphs { TouchKeepsInv(c, id); }
    case Serve(id) => if id in c.graphs { TouchKeepsInv(c, id); }
    case Put(id, state, dirty) => InsertKeepsInv(c, id, state, dirty);
    case Install(id, of, view) => InstallKeepsInv(c, id, of, view);
    case _ =>
  }

  lemma {:induction false} AllKeepInv(capacity: nat, us: seq<Use>)
    requires AllSound(New(capacity), us)
    ensures CacheInv(DoAll(New(capacity), us))
  {
    if us != [] {
      AllKeepInv(capacity, us[..|us| - 1]);
      DoKeepsInv(DoAll(New(capacity), us[..|us| - 1]), us[|us| - 1]);
    }
  }

  /** Putting the id just used behind a list sorted by earlier uses keeps it sorted. */
  lemma AppendUse(c: Cache, front: seq<Use>, u: Use, w: seq<Id>)
    requires Uses(DoAll(c, front), u, u.id) && u.id !in w && SortedByUse(c, front, w)
    ensures SortedByUse(c, front + [u], w + [u.id])
  {
    var us := front + [u];
    assert us[..|us| - 1] == front;
    forall x | x != u.id ensures LastUse(c, us, x) == LastUse(c, front, x) {
    }
    assert LastUse(c, us, u.id) == |us|;
  }

  lemma NoUse(c: Cache, front: seq<Use>, u: Use, w: seq<Id>)
    requires (forall id :: !Uses(DoAll(c, front), u, id)) && SortedByUse(c, front, w)
    ensures SortedByUse(c, front + [u], w)
  {
    var us := front + [u];
    assert us[..|us| - 1] == front;
    forall x ensures LastUse(c, us, x) == LastUse(c, front, x) {
    }
  }

  lemma StepSorted(c: Cache, front: seq<Use>, u: Use)
    requires CacheInv(DoAll(c, front)) && SortedByUse(c, front, DoAll(c, front).order)
    ensures SortedByUse(c, front + [u], Do(DoAll(c, front), u).order)
  {
    var d := DoAll(c, front);
    StepOrder(d, u);
    if Uses(d, u, u.id) {
      WithoutElements(d.order, u.id);
      WithoutRanked(x => LastUse(c, front, x), |front|, d.order, u.id);
      AppendUse(c, front, u, Without(d.order, u.id));
      if u.id !in d.order && d.order != [] {
        AppendUse(c, front, u, d.order[1..]);
      }
    } else {
      NoUse(c, front, u, d.order);
    }
  }

  lemma {:induction false} StaysSorted(c: Cache, capacity: nat, us: seq<Use>)
    requires c == New(capacity) && AllSound(c, us)
    ensures SortedByUse(c, us, DoAll(c, us).order)
  {
    if us != [] {
      var front, last := us[..|us| - 1], us[|us| - 1];
      StaysSorted(c, capacity, front);
      AllKeepInv(capacity, front);
      StepSorted(c, front, last);
      assert front + [last] == us;
    }
  }

  /** In every run the recency order lists exactly the residents, once each, by last use. */
  lemma OrderIsByLastUse(capacity: nat, us: seq<Use>)
    requires AllSound(New(capacity), us)
    ensures OrderListsResidents(DoAll(New(capacity), us))
    ensures SortedByUse(New(capacity), us, DoAll(New(capacity), us).order)
  {
    AllKeepInv(capacity, us);
    StaysSorted(New(capacity), capacity, us);
  }

  /**
   * Each victim is the true least recently used project: an insert pages out at most one, never the
   * one inserted, and every other resident was used after it.
   */
  lemma VictimIsLeastRecent(capacity: nat, us: seq<Use>, id: Id, state: GraphState, dirty: bool)
    requires AllSound(New(capacity), us)
    ensures var c := DoAll(New(capacity), us);
            var out := Insert(c, id, state, dirty).1;
            && |out| <= 1
            && (out == [] <==> id in c.graphs || |c.graphs| < c.capacity)
            && (out != [] ==>
                  && out[0].id != id && out[0].id in c.graphs
                  && (out[0].state.Some? <==> out[0].id in c.dirty)
                  && (out[0].state.Some? ==> out[0].state.value == c.graphs[out[0].id].state)
                  && forall x :: x in c.graphs && x != out[0].id ==>
                                   LastUse(New(capacity), us, out[0].id) < LastUse(New(capacity), us, x))
  {
    var c := DoAll(New(capacity), us);
    AllKeepInv(capacity, us);
    OrderIsByLastUse(capacity, us);
    InsertEvicts(c, id, state, dirty);
    OrderLength(c);
    if Victim(c, id).Some? {
      forall x | x in c.graphs && x != c.order[0]
        ensures LastUse(New(capacity), us, c.order[0]) < LastUse(New(capacity), us, x)
      {
        assert x in c.order;
        var j :| 0 <= j < |c.order| && c.order[j] == x;
      }
    }
  }

  /** The manifest of the last state inserted for `id`. */
  function LastManifest(us: seq<Use>, id: Id): Option<Facet> {
    if us == [] then None
    else
      var u := us[|us| - 1];
      if u.Put? && u.id == id then Some(u.state.manifest) else LastManifest(us[..|us| - 1], id)
  }

  /** Manifests are never paged out: every id ever inserted keeps that of its last inserted state. */
  lemma {:induction false} ManifestsStayHot(capacity: nat, us: seq<Use>, id: Id)
    requires AllSound(New(capacity), us)
    ensures var c := DoAll(New(capacity), us);
            (if id in c.manifests then Some(c.manifests[id]) else None) == LastManifest(us, id)
  {
    if us != [] {
      var n := |us| - 1;
      var d, u := DoAll(New(capacity), us[..n]), us[n];
      ManifestsStayHot(capacity, us[..n], id);
      AllKeepInv(capacity, us[..n]);
      if u.Put? {
        InsertEvicts(d, u.id, u.state, u.dirty);
      }
    }
  }

  /** Every id ever inserted. */
  ghost function Inserted(us: seq<Use>): set<Id> {
    set i | 0 <= i < |us| && us[i].Put? :: us[i].id
  }

  lemma InsertedStep(us: seq<Use>)
    requires us != []
    ensures var u := us[|us| - 1];
            Inserted(us) == Inserted(us[..|us| - 1]) + if u.Put? then {u.id} else {}
  {
    var front, u := us[..|us| - 1], us[|us| - 1];
    forall x ensures x in Inserted(us) <==> x in Inserted(front) || (u.Put? && u.id == x) {
      if x in Inserted(us) {
        var i :| 0 <= i < |us| && us[i].Put? && us[i].id == x;
        assert i < |front| ==> front[i] == us[i];
      }
      if x in Inserted(front) {
        var i :| 0 <= i < |front| && front[i].Put? && front[i].id == x;
        assert us[i] == front[i];
      }
    }
  }

  lemma SubsetCard<T>(p: set<T>, q: set<T>)
    requires p <= q
    ensures |p| <= |q| && (|p| == |q| ==> p == q)
  {
    assert q == p + (q - p);
    assert |q| == |p| + |q - p|;
  }

  /**
   * Paging is bounded and lazy: in every run the number of residents is the number of distinct projects
   * ever inserted, up to the capacity asked for, at least one; so nothing is paged out while they fit.
   */
  lemma {:induction false} ResidentsFillTheCapacity(capacity: nat, us: seq<Use>)
    requires AllSound(New(capacity), us)
    ensures var c, most := DoAll(New(capacity), us), if capacity < 1 then 1 else capacity;
            && c.capacity == most && c.graphs.Keys <= Inserted(us)
            && |c.graphs| == (if |Inserted(us)| <= most then |Inserted(us)| else most)
            && (|Inserted(us)| <= most ==> c.graphs.Keys == Inserted(us))
  {
    var c := DoAll(New(capacity), us);
    if us != [] {
      var n := |us| - 1;
      var d, u := DoAll(New(capacity), us[..n]), us[n];
      ResidentsFillTheCapacity(capacity, us[..n]);
      AllKeepInv(capacity, us[..n]);
      InsertedStep(us);
      UseResidents(d, u);
      if u.Put? {
        SubsetCard(d.graphs.Keys, Inserted(us[..n]));
      }
    }
    SubsetCard(c.graphs.Keys, Inserted(us));
  }

  /** How a use left the residents: an insert of a project not there adds it, or puts it in another's place. */
  ghost predicate ResidentsAfter(c: Cache, u: Use, d: Cache) {
    && d.capacity == c.capacity
    && d.graphs.Keys <= c.graphs.Keys + (if u.Put? then {u.id} else {})
    && |d.graphs| == |c.graphs| + if u.Put? && u.id !in c.graphs && |c.graphs| < c.capacity then 1 else 0
  }

  /** Whatever is no insert leaves the same projects resident. */
  lemma OtherUse(c: Cache, u: Use)
    requires !u.Put?
    ensures Do(c, u).capacity == c.capacity && Do(c, u).graphs.Keys == c.graphs.Keys
  {
  }

  lemma SameSize(c: Cache, d: Cache)
    requires d.graphs.Keys == c.graphs.Keys
    ensures |d.graphs| == |c.graphs|
  {
    assert |d.graphs.Keys| == |d.graphs| && |c.graphs.Keys| == |c.graphs|;
  }

  lemma UseResidents(c: Cache, u: Use)
    requires CacheInv(c)
    ensures ResidentsAfter(c, u, Do(c, u))
  {
    if u.Put? {
      PutResidents(c, u.id, u.state, u.dirty);
    } else {
      OtherUse(c, u);
      SameSize(c, Do(c, u));
    }
  }

  lemma PutResidents(c: Cache, id: Id, state: GraphState, dirty: bool)
    requires CacheInv(c)
    ensures ResidentsAfter(c, Put(id, state, dirty), Insert(c, id, state, dirty).0)
  {
    var p := Place(c, id, state, dirty);
    InsertEvicts(c, id, state, dirty);
    PlaceCount(c, id, state, dirty);
    OrderLength(c);
    if Victim(c, id).Some? {
      DropCount(p.(order := p.order[1..]), Victim(c, id).value);
    }
  }

  lemma DropCount(c: Cache, id: Id)
    requires id in c.graphs
    ensures |Drop(c, id).0.graphs| == |c.graphs| - 1
  {
    var d := Drop(c, id).0;
    assert d.graphs.Keys == c.graphs.Keys - {id};
    assert |d.graphs.Keys| == |d.graphs| && |c.graphs.Keys| == |c.graphs|;
  }
}
