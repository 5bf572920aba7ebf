// Overlapping mounts: which one a path ends up on.
module Mounts {
  import opened Common

  // An absolute path as its components.
  type Path = seq<string>

  datatype Mount = Mount(name: string, path: Path, subPath: Path, readOnly: bool)

  predicate Covers(m: Mount, p: Path) {
    m.path <= p
  }

  // No mount point stands behind one of its descendants, where it would hide it.
  ghost predicate Ordered(ms: seq<Mount>) {
    forall i, j :: 0 <= i < j < |ms| ==> !(ms[j].path < ms[i].path)
  }

  ghost predicate DistinctPaths(ms: seq<Mount>) {
    forall i, j :: 0 <= i < j < |ms| ==> ms[i].path != ms[j].path
  }

  // Mounting in list order: the last covering mount is on top.
  function LastCovering(ms: seq<Mount>, p: Path): (r: Option<nat>)
    ensures r.Some? ==> r.value < |ms| && Covers(ms[r.value], p)
    ensures forall j :: 0 <= j < |ms| && Covers(ms[j], p) ==> r.Some? && j <= r.value
  {
    if ms == [] then None
    else if Covers(Last(ms), p) then Some(|ms| - 1)
    else LastCovering(ms[..|ms| - 1], p)
  }

  // Mounting by depth: the longest covering mount point wins, the later of two equal ones.
  function LongestCovering(ms: seq<Mount>, p: Path): (r: Option<nat>)
    ensures r.Some? ==> r.value < |ms| && Covers(ms[r.value], p)
    ensures forall j :: 0 <= j < |ms| && Covers(ms[j], p) ==>
      r.Some? && |ms[j].path| <= |ms[r.value].path| && (|ms[j].path| == |ms[r.value].path| ==> j <= r.value)
  {
    if ms == [] then None
    else
      var r := LongestCovering(ms[..|ms| - 1], p);
      if Covers(Last(ms), p) && (r.None? || |ms[r.value].path| <= |Last(ms).path|) then Some(|ms| - 1) else r
  }

  // In an ordered list both rules agree on every path.
  lemma LastIsLongest(ms: seq<Mount>, p: Path)
    requires Ordered(ms)
    ensures LastCovering(ms, p) == LongestCovering(ms, p)
  {
  }

  // With distinct mount points, order is also necessary.
  lemma RulesAgreeIffOrdered(ms: seq<Mount>)
    requires DistinctPaths(ms)
    ensures (forall p :: LastCovering(ms, p) == LongestCovering(ms, p)) <==> Ordered(ms)
  {
    if Ordered(ms) {
      forall p: Path
        ensures LastCovering(ms, p) == LongestCovering(ms, p)
      {
        LastIsLongest(ms, p);
      }
    } else {
      var i, j :| 0 <= i < j < |ms| && ms[j].path < ms[i].path;
      var p := ms[i].path;
      assert Covers(ms[i], p) && Covers(ms[j], p);
      assert j <= LastCovering(ms, p).value;
      var g := LongestCovering(ms, p).value;
      assert ms[g].path == p;
      assert g == i;
    }
  }

  lemma OrderedConcat(a: seq<Mount>, b: seq<Mount>)
    requires Ordered(a) && Ordered(b)
    requires forall m, n :: m in a && n in b ==> !(n.path < m.path)
    ensures Ordered(a + b)
  {
  }

  lemma DistinctConcat(a: seq<Mount>, b: seq<Mount>)
    requires DistinctPaths(a) && DistinctPaths(b)
    requires forall m, n :: m in a && n in b ==> n.path != m.path
    ensures DistinctPaths(a + b)
  {
  }
}
