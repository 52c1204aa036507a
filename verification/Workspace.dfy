/** The project a path belongs to: the ancestor probe against the scan it replaced. */
module Workspace {
  import opened Prelude

  datatype Project = Project(
    root: string, manifest: string, name: Option<string>, entry: Option<string>, deps: seq<string>)

  /** Projects by root directory. */
  type Projects = map<string, Project>

  ghost predicate KeyedByRoot(ws: Projects) {
    forall k :: k in ws ==> ws[k].root == k
  }

  /** The containment rule: `path` is inside `root`, or is it; the empty root contains everything. */
  predicate PathUnder(path: string, root: string) {
    || root == ""
    || path == root
    || (root <= path && path[|root|..] != [] && path[|root|] == '/')
  }

  /** The scan's answer: a containing project no containing project has a longer root than. */
  ghost predicate ByScan(ws: Projects, path: string, r: Option<Project>) {
    match r
    case None => forall k :: k in ws ==> !PathUnder(path, ws[k].root)
    case Some(p) =>
      && (exists k :: k in ws && ws[k] == p)
      && PathUnder(path, p.root)
      && forall k :: k in ws && PathUnder(path, ws[k].root) ==> |ws[k].root| <= |p.root|
  }

  /** There is one such answer: containing roots of one length are the same prefix of the path. */
  lemma ScanIsUnique(ws: Projects, path: string, r: Option<Project>, q: Option<Project>)
    requires KeyedByRoot(ws) && ByScan(ws, path, r) && ByScan(ws, path, q)
    ensures r == q
  {
    if r.Some? && q.Some? {
      var i :| i in ws && ws[i] == r.value;
      var j :| j in ws && ws[j] == q.value;
      assert i == path[..|i|] && j == path[..|j|];
    }
  }

  function LastSlash(s: string): (r: Option<nat>)
    ensures r.None? ==> '/' !in s
    ensures r.Some? ==> r.value < |s| && s[r.value] == '/' && '/' !in s[r.value + 1..]
  {
    if s == "" then None
    else if s[|s| - 1] == '/' then Some(|s| - 1)
    else LastSlash(s[..|s| - 1])
  }

  function Slashes(s: string): nat {
    if s == "" then 0 else Slashes(s[..|s| - 1]) + if s[|s| - 1] == '/' then 1 else 0
  }

  lemma {:induction false} CutDropsASlash(s: string, cut: nat)
    requires cut < |s| && s[cut] == '/'
    ensures Slashes(s[..cut]) + 1 <= Slashes(s)
    decreases |s|
  {
    var n := |s| - 1;
    if cut < n {
      assert s[..n][..cut] == s[..cut];
      CutDropsASlash(s[..n], cut);
    }
  }

  /** Every containing root other than "" is a strict ancestor of `dir`, itself the path or one of its ancestors. */
  ghost predicate AboveOnly(ws: Projects, path: string, dir: string) {
    forall k :: k in ws && PathUnder(path, k) && k != "" ==> |k| < |dir|
  }

  ghost predicate Ancestor(path: string, dir: string) {
    dir <= path && (dir == path || path[|dir|] == '/')
  }

  /** Cutting at the last slash skips no containing root. */
  lemma CutSkipsNothing(ws: Projects, path: string, dir: string, cut: nat)
    requires Ancestor(path, dir) && AboveOnly(ws, path, dir)
    requires cut < |dir| && dir[cut] == '/' && '/' !in dir[cut + 1..]
    ensures Ancestor(path, dir[..cut])
    ensures forall k :: k in ws && PathUnder(path, k) && k != "" ==> |k| <= cut
    ensures forall k :: k in ws && PathUnder(path, k) && |k| == cut ==> k == dir[..cut]
  {
    assert forall j :: cut < j < |dir| ==> dir[j] == dir[cut + 1..][j - cut - 1] != '/';
  }

  /**
   * `project_of`: probe the path, then each ancestor directory from the longest, then "". It answers
   * exactly what the scan over every project does, in at most one probe per slash and two more.
   */
  method ProjectOf(ws: Projects, path: string) returns (r: Option<Project>, probes: nat)
    requires KeyedByRoot(ws)
    ensures ByScan(ws, path, r)
    ensures probes <= Slashes(path) + 2
  {
    probes := 1;
    if path in ws {
      return Some(ws[path]), probes;
    }
    var dir := path;
    var cut := LastSlash(dir);
    while cut.Some?
      invariant cut == LastSlash(dir)
      invariant Ancestor(path, dir) && AboveOnly(ws, path, dir)
      invariant dir !in ws
      invariant probes + Slashes(dir) <= Slashes(path) + 1
      decreases |dir|
    {
      CutSkipsNothing(ws, path, dir, cut.value);
      CutDropsASlash(dir, cut.value);
      dir := dir[..cut.value];
      probes := probes + 1;
      if dir in ws {
        return Some(ws[dir]), probes;
      }
      cut := LastSlash(dir);
    }
    assert forall k :: k in ws && PathUnder(path, k) ==> k == "";
    r := if "" in ws then Some(ws[""]) else None;
    probes := probes + 1;
  }

  /** `root_of` names the root of the scan's answer. */
  method RootOf(ws: Projects, path: string) returns (root: Option<string>)
    requires KeyedByRoot(ws)
    ensures root.None? <==> forall k :: k in ws ==> !PathUnder(path, k)
    ensures root.Some? ==> root.value in ws && PathUnder(path, root.value)
                           && forall k :: k in ws && PathUnder(path, k) ==> |k| <= |root.value|
  {
    var p, _ := ProjectOf(ws, path);
    root := if p.Some? then Some(p.value.root) else None;
  }
}
