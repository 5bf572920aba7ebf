// resolveVFIOGroups: the IOMMU groups of the devices bound to vfio-pci, in an order that depends on
// nothing but the groups themselves.
module VfioGroups {
  import opened Common

  // A directory entry and, if its iommu_group link can be read, the base name of the link's target.
  datatype DirEntry = DirEntry(name: string, group: Option<string>)

  datatype Listing = Missing | Unreadable | Listed(entries: seq<DirEntry>)

  // -------- string order --------

  // Bytewise lexicographic order, as used by sort.Strings.
  predicate AtMost(a: string, b: string) {
    a == "" || (b != "" && (a[0] < b[0] || (a[0] == b[0] && AtMost(a[1..], b[1..]))))
  }

  lemma {:induction false} AtMostTotal(a: string, b: string)
    ensures AtMost(a, b) || AtMost(b, a)
    ensures AtMost(a, b) && AtMost(b, a) ==> a == b
  {
    if a != "" && b != "" && a[0] == b[0] {
      AtMostTotal(a[1..], b[1..]);
      assert a == [a[0]] + a[1..] && b == [b[0]] + b[1..];
    }
  }

  lemma {:induction false} AtMostTransitive(a: string, b: string, c: string)
    requires AtMost(a, b) && AtMost(b, c)
    ensures AtMost(a, c)
  {
    if a != "" && a[0] == b[0] && b[0] == c[0] {
      AtMostTransitive(a[1..], b[1..], c[1..]);
    }
  }

  // The strings agree up to position k, where a has the smaller character.
  predicate SmallerAt(a: string, b: string, k: nat) {
    k < |a| && k < |b| && a[..k] == b[..k] && a[k] < b[k]
  }

  // The order without recursion: the first difference decides, and a prefix comes first.
  lemma {:induction false} AtMostIff(a: string, b: string)
    ensures AtMost(a, b) <==> a <= b || exists k: nat :: SmallerAt(a, b, k)
  {
    if a == "" || b == "" {
    } else if a[0] != b[0] {
      assert SmallerAt(a, b, 0) <==> a[0] < b[0];
      assert forall k: nat :: k > 0 && SmallerAt(a, b, k) ==> a[..k][0] == b[..k][0];
    } else {
      AtMostIff(a[1..], b[1..]);
      assert a == [a[0]] + a[1..] && b == [b[0]] + b[1..];
      if k: nat :| SmallerAt(a[1..], b[1..], k) {
        assert a[..k + 1] == [a[0]] + a[1..][..k] && b[..k + 1] == [b[0]] + b[1..][..k];
        assert SmallerAt(a, b, k + 1);
      }
      if k: nat :| SmallerAt(a, b, k) {
        assert a[..k][1..] == a[1..][..k - 1] && b[..k][1..] == b[1..][..k - 1];
        assert SmallerAt(a[1..], b[1..], k - 1);
      }
    }
  }

  predicate Ascending(s: seq<string>) {
    forall i, j :: 0 <= i < j < |s| ==> AtMost(s[i], s[j])
  }

  predicate StrictlyAscending(s: seq<string>) {
    forall i, j :: 0 <= i < j < |s| ==> AtMost(s[i], s[j]) && s[i] != s[j]
  }

  // -------- sort.Strings --------

  function Insert(x: string, s: seq<string>): seq<string> {
    if s == [] || AtMost(x, s[0]) then [x] + s else [s[0]] + Insert(x, s[1..])
  }

  lemma {:induction false} InsertAdds(x: string, s: seq<string>)
    ensures multiset(Insert(x, s)) == multiset(s) + multiset{x}
    ensures forall y :: y in Insert(x, s) ==> y == x || y in s
  {
    if s == [] || AtMost(x, s[0]) {
    } else {
      InsertAdds(x, s[1..]);
      assert s == [s[0]] + s[1..];
    }
  }

  lemma FirstIsLeast(x: string, s: seq<string>)
    requires forall y :: y in s ==> AtMost(x, y)
    requires Ascending(s)
    ensures Ascending([x] + s)
  {
    forall i, j | 0 <= i < j < |[x] + s|
      ensures AtMost(([x] + s)[i], ([x] + s)[j])
    {
      assert ([x] + s)[j] == s[j - 1] && s[j - 1] in s;
    }
  }

  lemma {:induction false} InsertKeepsAscending(x: string, s: seq<string>)
    requires Ascending(s)
    ensures Ascending(Insert(x, s)) && multiset(Insert(x, s)) == multiset(s) + multiset{x}
  {
    InsertAdds(x, s);
    if s == [] {
    } else if AtMost(x, s[0]) {
      forall y | y in s
        ensures AtMost(x, y)
      {
        var j :| 0 <= j < |s| && s[j] == y;
        if j > 0 {
          AtMostTransitive(x, s[0], s[j]);
        }
      }
      FirstIsLeast(x, s);
    } else {
      InsertKeepsAscending(x, s[1..]);
      InsertAdds(x, s[1..]);
      AtMostTotal(x, s[0]);
      FirstIsLeast(s[0], Insert(x, s[1..]));
    }
  }

  function Sorted(s: seq<string>): seq<string> {
    if s == [] then [] else Insert(Last(s), Sorted(s[..|s| - 1]))
  }

  lemma {:induction false} SortedIsAscending(s: seq<string>)
    ensures Ascending(Sorted(s)) && multiset(Sorted(s)) == multiset(s)
  {
    if s == [] {
    } else {
      SortedIsAscending(s[..|s| - 1]);
      InsertKeepsAscending(Last(s), Sorted(s[..|s| - 1]));
      assert s == s[..|s| - 1] + [Last(s)];
    }
  }

  lemma DistinctSorted(s: seq<string>)
    requires Distinct(s)
    ensures StrictlyAscending(Sorted(s))
    ensures forall g :: g in Sorted(s) <==> g in s
  {
    SortedIsAscending(s);
    DistinctByCount(s);
    DistinctByCount(Sorted(s));
    forall g
      ensures g in Sorted(s) <==> g in s
    {
      assert g in Sorted(s) <==> g in multiset(Sorted(s));
      assert g in s <==> g in multiset(s);
    }
  }

  // -------- the groups --------

  // The entry names a PCI device whose group is known.
  predicate IsDevice(e: DirEntry) {
    ':' in e.name && e.group.Some?
  }

  ghost predicate HasGroup(es: seq<DirEntry>, g: string) {
    exists e :: e in es && IsDevice(e) && e.group.value == g
  }

  // The result for a directory: exactly the groups of its devices, strictly ascending.
  ghost predicate IsGroupList(es: seq<DirEntry>, groups: seq<string>) {
    StrictlyAscending(groups) && forall g :: g in groups <==> HasGroup(es, g)
  }

  method ResolveVfioGroups(listing: Listing) returns (groups: seq<string>, failed: bool)
    ensures failed <==> listing.Unreadable?
    ensures !listing.Listed? ==> groups == []
    ensures listing.Listed? ==> IsGroupList(listing.entries, groups)
  {
    groups, failed := [], listing.Unreadable?;
    if !listing.Listed? {
      return;
    }
    var seen: set<string> := {};
    for i := 0 to |listing.entries|
      invariant forall g :: g in seen <==> HasGroup(listing.entries[..i], g)
    {
      var e := listing.entries[i];
      assert listing.entries[..i + 1] == listing.entries[..i] + [e];
      ghost var before := seen;
      if ':' in e.name && e.group.Some? {
        seen := seen + {e.group.value};
      }
      GroupsWithOneMore(listing.entries[..i], e, before, seen);
    }
    assert listing.entries[..|listing.entries|] == listing.entries;
    // Map iteration: the groups come out in some order.
    var rest := seen;
    while rest != {}
      invariant Distinct(groups)
      invariant forall g :: g in groups <==> g in seen && g !in rest
      invariant rest <= seen
      decreases |rest|
    {
      var g :| g in rest;
      groups := groups + [g];
      rest := rest - {g};
    }
    DistinctSorted(groups);
    groups := Sorted(groups);
  }

  lemma GroupsWithOneMore(es: seq<DirEntry>, e: DirEntry, seen: set<string>, seen': set<string>)
    requires forall g :: g in seen <==> HasGroup(es, g)
    requires seen' == seen + if IsDevice(e) then {e.group.value} else {}
    ensures forall g :: g in seen' <==> HasGroup(es + [e], g)
  {
    forall g
      ensures HasGroup(es + [e], g) <==> HasGroup(es, g) || (IsDevice(e) && e.group.value == g)
    {
      assert e in es + [e];
      if HasGroup(es, g) {
        var d :| d in es && IsDevice(d) && d.group.value == g;
        assert d in es + [e];
      }
    }
  }

  // -------- determinism --------

  lemma {:induction false} AscendingListsAreEqual(a: seq<string>, b: seq<string>)
    requires StrictlyAscending(a) && StrictlyAscending(b)
    requires forall g :: g in a <==> g in b
    ensures a == b
  {
    HasMember(b);
    if a == [] {
    } else {
      assert a[0] in b && b != [] && b[0] in a;
      AtMostTotal(a[0], b[0]);
      var i :| 0 <= i < |b| && b[i] == a[0];
      var j :| 0 <= j < |a| && a[j] == b[0];
      assert a[0] == b[0];
      forall g
        ensures g in a[1..] <==> g in b[1..]
      {
        InTail(a, g);
        InTail(b, g);
      }
      AscendingListsAreEqual(a[1..], b[1..]);
      assert a == [a[0]] + a[1..] && b == [b[0]] + b[1..];
    }
  }

  lemma HasMember(s: seq<string>)
    ensures s != [] ==> exists g :: g in s
  {
    if s != [] {
      assert s[0] in s;
    }
  }

  lemma InTail(s: seq<string>, g: string)
    requires s != [] && StrictlyAscending(s)
    ensures g in s[1..] <==> g in s && g != s[0]
  {
    assert s == [s[0]] + s[1..];
    assert g in s[1..] ==> exists i :: 1 <= i < |s| && s[i] == g;
  }

  // Whatever order the directory lists its entries in, and whatever order the map yields its keys in,
  // the result is the same.
  lemma GroupListIsDeterministic(es: seq<DirEntry>, es': seq<DirEntry>, groups: seq<string>, groups': seq<string>)
    requires multiset(es) == multiset(es')
    requires IsGroupList(es, groups) && IsGroupList(es', groups')
    ensures groups == groups'
  {
    forall g
      ensures HasGroup(es, g) <==> HasGroup(es', g)
    {
      assert forall e :: e in es <==> e in multiset(es);
      assert forall e :: e in es' <==> e in multiset(es');
    }
    AscendingListsAreEqual(groups, groups');
  }

  // The list spelled out: the groups of the entries whose name has a colon and whose link can be read, each
  // once, each smaller than the next at their first difference or a proper prefix of it.
  lemma GroupListSpelledOut(es: seq<DirEntry>, groups: seq<string>)
    requires IsGroupList(es, groups)
    ensures forall g :: g in groups <==> exists e :: e in es && ':' in e.name && e.group == Some(g)
    ensures forall i, j :: 0 <= i < j < |groups| ==>
      groups[i] < groups[j] || exists k: nat :: SmallerAt(groups[i], groups[j], k)
  {
    forall g
      ensures g in groups <==> exists e :: e in es && ':' in e.name && e.group == Some(g)
    {
      if HasGroup(es, g) {
        var e :| e in es && IsDevice(e) && e.group.value == g;
        assert e.group == Some(g);
      }
      if e :| e in es && ':' in e.name && e.group == Some(g) {
        assert IsDevice(e);
      }
    }
    forall i, j | 0 <= i < j < |groups|
      ensures groups[i] < groups[j] || exists k: nat :: SmallerAt(groups[i], groups[j], k)
    {
      AtMostIff(groups[i], groups[j]);
    }
  }
}
