// The names of all containers of the adapted pod, and when no two of them are equal.
module PodContainerNames {
  import opened Common
  import opened Mounts
  import opened PodModel
  import opened PodStages
  import opened PodShape
  import opened PodGuarantees
  import opened PodDataVolumes

  function Names(cs: seq<Container>): (r: seq<string>)
    ensures |r| == |cs|
  {
    seq(|cs|, i requires 0 <= i < |cs| => cs[i].name)
  }

  function AllNames(p: PodSpec): seq<string> {
    Names(p.inits) + Names(p.containers)
  }

  // The containers that the adaptation adds.
  function AddedContainers(r: PodSpec, vmi: Vmi, ts: seq<Template>, o: Options): seq<Container> {
    FirstInits(r, o.launcherImage)
    + DataVolumeInits(vmi.volumes, ts, r.volumes, o.launcherImage)
    + LastInits(o)
    + Proxies(r, o)
  }

  // -------- distinct as a matter of counting --------

  lemma DistinctTogether<T>(all: seq<T>, a: seq<T>, b: seq<T>)
    requires multiset(all) == multiset(a) + multiset(b)
    ensures Distinct(all) <==> Distinct(a) && Distinct(b) && forall x :: x in a ==> x !in b
  {
    DistinctByCount(all);
    DistinctByCount(a);
    DistinctByCount(b);
    assert forall x :: multiset(all)[x] == multiset(a)[x] + multiset(b)[x];
    if Distinct(all) {
      forall x | x in a
        ensures x !in b
      {
        assert multiset(all)[x] <= 1 && multiset(a)[x] > 0;
      }
    } else if x :| multiset(all)[x] > 1 {
      assert x in a || x in b;
    }
  }

  // -------- where the names of the adapted pod come from --------

  lemma NamesConcat(a: seq<Container>, b: seq<Container>)
    ensures Names(a + b) == Names(a) + Names(b)
  {
  }

  lemma NamesStep(cs: seq<Container>)
    requires cs != []
    ensures var front, last := cs[..|cs| - 1], Last(cs);
      && Names(cs) == Names(front) + [last.name]
      && Names(Kept(cs)) == Names(Kept(front)) + (if IsAlways(last) then [] else [last.name])
      && Names(Promoted(cs)) == Names(Promoted(front)) + (if IsAlways(last) then [last.name] else [])
  {
    var front, last := cs[..|cs| - 1], Last(cs);
    assert cs == front + [last];
    NamesConcat(front, [last]);
    NamesConcat(Kept(front), if IsAlways(last) then [] else [last]);
    NamesConcat(Promoted(front), if IsAlways(last) then [last.(restartPolicy := None)] else []);
  }

  lemma {:induction false} PartitionKeepsNames(cs: seq<Container>)
    ensures multiset(Names(Kept(cs))) + multiset(Names(Promoted(cs))) == multiset(Names(cs))
  {
    if cs == [] {
    } else {
      var front := cs[..|cs| - 1];
      PartitionKeepsNames(front);
      NamesStep(cs);
      OneMore(Names(Kept(front)), Names(Promoted(front)), Names(front), Last(cs).name);
      OneMore(Names(Promoted(front)), Names(Kept(front)), Names(front), Last(cs).name);
    }
  }

  lemma NamesOfThree(cs: seq<Container>, name: string, ms: seq<Mount>, b: seq<Container>, c: seq<Container>)
    ensures Names(WithMounts(cs, name, ms) + (b + c)) == Names(cs) + Names(b) + Names(c)
  {
    NamesConcat(WithMounts(cs, name, ms), b + c);
    NamesConcat(b, c);
    SameNames([], cs, name, ms);
  }

  lemma NamesOfAdapted(r: PodSpec, vmi: Vmi, ts: seq<Template>, o: Options)
    requires HasCompute(r)
    ensures var p := Adapted(r, vmi, ts, o);
      && Names(p.inits) == Names(InitOrder(r, vmi, ts, o))
      && Names(p.containers) == Names(r.containers) + Names(Proxies(r, o)) + Names(Promoted(r.inits))
  {
    AdaptedShape(r, vmi, ts, o);
    SameNames(InitOrder(r, vmi, ts, o), [], COMPUTE, []);
    NamesOfThree(r.containers, COMPUTE, AddedMounts(vmi, o), Proxies(r, o), Promoted(r.inits));
  }

  lemma SameNames(inits: seq<Container>, cs: seq<Container>, name: string, ms: seq<Mount>)
    ensures Names(WithStateInit(inits)) == Names(inits)
    ensures Names(WithMounts(cs, name, ms)) == Names(cs)
  {
  }

  // No container is lost, and none but the added ones joins.
  lemma NamesAreConserved(r: PodSpec, vmi: Vmi, ts: seq<Template>, o: Options)
    requires HasCompute(r)
    ensures multiset(AllNames(Adapted(r, vmi, ts, o)))
         == multiset(AllNames(r)) + multiset(Names(AddedContainers(r, vmi, ts, o)))
  {
    var first, dv := FirstInits(r, o.launcherImage), DataVolumeInits(vmi.volumes, ts, r.volumes, o.launcherImage);
    var passt := LastInits(o);
    NamesOfAdapted(r, vmi, ts, o);
    PartitionKeepsNames(r.inits);
    NamesOfFour(first, dv, Kept(r.inits), passt);
    NamesOfFour(first, dv, passt, Proxies(r, o));
    Collect(Names(first), Names(dv), Names(Kept(r.inits)), Names(passt), Names(r.containers),
            Names(Proxies(r, o)), Names(Promoted(r.inits)), Names(r.inits));
  }

  lemma NamesOfFour(a: seq<Container>, b: seq<Container>, c: seq<Container>, d: seq<Container>)
    ensures Names(a + b + c + d) == Names(a) + Names(b) + Names(c) + Names(d)
  {
    NamesConcat(a + b + c, d);
    NamesConcat(a + b, c);
    NamesConcat(a, b);
  }

  lemma Collect<T>(
    a: seq<T>, b: seq<T>, kept: seq<T>, c: seq<T>, cs: seq<T>, d: seq<T>, promoted: seq<T>, inits: seq<T>)
    requires multiset(kept) + multiset(promoted) == multiset(inits)
    ensures multiset((a + b + kept + c) + (cs + d + promoted)) == multiset(inits + cs) + multiset(a + b + c + d)
  {
  }

  // -------- the added names --------

  datatype ContainerId = DirId | ProvisionId(imported: bool, slug: string) | PatcherId | ConsoleId | VncId

  function IdName(id: ContainerId): string {
    match id
    case DirId => DIR_INIT
    case ProvisionId(imported, slug) => (if imported then "import-disk-" else "init-disk-") + slug
    case PatcherId => "passt-binary-patcher"
    case ConsoleId => "console-proxy"
    case VncId => "vnc-proxy"
  }

  lemma IdNameInjective(a: ContainerId, b: ContainerId)
    requires IdName(a) == IdName(b)
    ensures a == b
  {
    assert DIR_INIT[1] != "vnc-proxy"[1] && "import-disk-"[1] != "init-disk-"[1];
    if a.ProvisionId? && b.ProvisionId? {
      assert IdName(a)[1] == IdName(b)[1];
      var prefix := if a.imported then "import-disk-" else "init-disk-";
      assert IdName(a)[|prefix|..] == a.slug && IdName(b)[|prefix|..] == b.slug;
    } else {
      assert IdName(a)[..2] == IdName(b)[..2];
      assert |IdName(a)| > 2 && IdName(a)[0] == IdName(b)[0] && IdName(a)[1] == IdName(b)[1];
    }
  }

  function ProvisionIds(sel: seq<VmiVolume>, ts: seq<Template>, vs: seq<Volume>): (r: seq<ContainerId>)
    ensures |r| == |sel|
  {
    seq(|sel|, i requires 0 <= i < |sel| => ProvisionId(Imported(sel[i], ts, vs), Slug(sel[i].name)))
  }

  function AddedContainerIds(r: PodSpec, vmi: Vmi, ts: seq<Template>, o: Options): seq<ContainerId> {
    (if PrivateVolumes(r.volumes) == [] then [] else [DirId])
    + ProvisionIds(Selected(vmi.volumes, ts, r.volumes), ts, r.volumes)
    + (if o.passtWorkarounds then [PatcherId] else [])
    + ProxyIds(r, o)
  }

  function ProxyIds(r: PodSpec, o: Options): seq<ContainerId> {
    if PrivateVolumeName(r.containers) == "" then []
    else (if o.addSerial then [ConsoleId] else []) + (if o.addVnc then [VncId] else [])
  }

  ghost predicate Stand(ids: seq<ContainerId>, names: seq<string>) {
    |ids| == |names| && forall i :: 0 <= i < |ids| ==> names[i] == IdName(ids[i])
  }

  lemma StandConcat(a: seq<ContainerId>, b: seq<ContainerId>, m: seq<string>, n: seq<string>)
    requires Stand(a, m) && Stand(b, n)
    ensures Stand(a + b, m + n)
  {
    forall i | 0 <= i < |a + b|
      ensures (m + n)[i] == IdName((a + b)[i])
    {
      if i < |a| {
        assert (a + b)[i] == a[i] && (m + n)[i] == m[i];
      } else {
        assert (a + b)[i] == b[i - |a|] && (m + n)[i] == n[i - |a|];
      }
    }
  }

  lemma ProvisionIdsStand(vols: seq<VmiVolume>, ts: seq<Template>, vs: seq<Volume>, image: string)
    ensures Stand(ProvisionIds(Selected(vols, ts, vs), ts, vs), Names(DataVolumeInits(vols, ts, vs, image)))
  {
    InitsFollowSelection(vols, ts, vs, image);
  }

  lemma ProxyIdsStand(r: PodSpec, o: Options)
    ensures Stand(ProxyIds(r, o), Names(Proxies(r, o)))
  {
  }

  lemma AddedIdsStand(r: PodSpec, vmi: Vmi, ts: seq<Template>, o: Options)
    ensures Stand(AddedContainerIds(r, vmi, ts, o), Names(AddedContainers(r, vmi, ts, o)))
  {
    var first, dv := FirstInits(r, o.launcherImage), DataVolumeInits(vmi.volumes, ts, r.volumes, o.launcherImage);
    var passt := LastInits(o);
    var firstIds := if PrivateVolumes(r.volumes) == [] then [] else [DirId];
    var dvIds := ProvisionIds(Selected(vmi.volumes, ts, r.volumes), ts, r.volumes);
    var passtIds := if o.passtWorkarounds then [PatcherId] else [];
    ProvisionIdsStand(vmi.volumes, ts, r.volumes, o.launcherImage);
    ProxyIdsStand(r, o);
    NamesOfFour(first, dv, passt, Proxies(r, o));
    assert Stand(firstIds, Names(first)) && Stand(passtIds, Names(passt));
    StandConcat(firstIds, dvIds, Names(first), Names(dv));
    StandConcat(firstIds + dvIds, passtIds, Names(first) + Names(dv), Names(passt));
    StandConcat(firstIds + dvIds + passtIds, ProxyIds(r, o),
                Names(first) + Names(dv) + Names(passt), Names(Proxies(r, o)));
  }

  lemma DistinctNamesIffIds(ids: seq<ContainerId>, names: seq<string>)
    requires Stand(ids, names)
    ensures Distinct(names) <==> Distinct(ids)
  {
    if Distinct(ids) {
      forall i, j | 0 <= i < j < |names|
        ensures names[i] != names[j]
      {
        if names[i] == names[j] {
          IdNameInjective(ids[i], ids[j]);
        }
      }
    } else {
      var i, j :| 0 <= i < j < |ids| && ids[i] == ids[j];
      assert names[i] == names[j];
    }
  }

  // Of the selected volumes, no two that are both imported or both blank share a slug.
  ghost predicate DistinctSlugsPerMode(r: PodSpec, vmi: Vmi, ts: seq<Template>) {
    var sel := Selected(vmi.volumes, ts, r.volumes);
    forall i, j :: 0 <= i < j < |sel| && Slug(sel[i].name) == Slug(sel[j].name) ==>
      Imported(sel[i], ts, r.volumes) != Imported(sel[j], ts, r.volumes)
  }

  lemma ProvisionIdsDistinctIff(r: PodSpec, vmi: Vmi, ts: seq<Template>)
    ensures Distinct(ProvisionIds(Selected(vmi.volumes, ts, r.volumes), ts, r.volumes)) <==>
      DistinctSlugsPerMode(r, vmi, ts)
  {
    var sel := Selected(vmi.volumes, ts, r.volumes);
    var ids := ProvisionIds(sel, ts, r.volumes);
    if Distinct(ids) {
      forall i, j | 0 <= i < j < |sel| && Slug(sel[i].name) == Slug(sel[j].name)
        ensures Imported(sel[i], ts, r.volumes) != Imported(sel[j], ts, r.volumes)
      {
        assert ids[i] != ids[j];
      }
    }
  }

  lemma DistinctPartsIff(
    first: seq<ContainerId>, dv: seq<ContainerId>, passt: seq<ContainerId>, proxies: seq<ContainerId>)
    requires Distinct(first) && Distinct(passt) && Distinct(proxies)
    requires (forall id :: id in first ==> id.DirId?) && (forall id :: id in dv ==> id.ProvisionId?)
    requires (forall id :: id in passt ==> id.PatcherId?) && (forall id :: id in proxies ==> id.ConsoleId? || id.VncId?)
    ensures Distinct(first + dv + passt + proxies) <==> Distinct(dv)
  {
    if Distinct(dv) {
      DistinctSeqConcat(first, dv);
      DistinctSeqConcat(first + dv, passt);
      DistinctSeqConcat(first + dv + passt, proxies);
    } else if Distinct(first + dv + passt + proxies) {
      assert first + dv + passt + proxies == first + dv + (passt + proxies);
      DistinctPart(first, dv, passt + proxies);
    }
  }

  lemma DistinctIdsIff(r: PodSpec, vmi: Vmi, ts: seq<Template>, o: Options)
    ensures Distinct(AddedContainerIds(r, vmi, ts, o)) <==> DistinctSlugsPerMode(r, vmi, ts)
  {
    ProvisionIdsDistinctIff(r, vmi, ts);
    var first := if PrivateVolumes(r.volumes) == [] then [] else [DirId];
    var dv := ProvisionIds(Selected(vmi.volumes, ts, r.volumes), ts, r.volumes);
    DistinctPartsIff(first, dv, if o.passtWorkarounds then [PatcherId] else [], ProxyIds(r, o));
  }

  // All containers of the adapted pod have different names exactly when the rendered ones do, none of
  // them has an added name, and no two volumes provisioned in one mode share a slug.
  lemma ContainerNamesAreDistinctIff(r: PodSpec, vmi: Vmi, ts: seq<Template>, o: Options)
    requires HasCompute(r)
    ensures Distinct(AllNames(Adapted(r, vmi, ts, o))) <==>
      && Distinct(AllNames(r))
      && (forall id :: id in AddedContainerIds(r, vmi, ts, o) ==> IdName(id) !in AllNames(r))
      && DistinctSlugsPerMode(r, vmi, ts)
  {
    var ids, added := AddedContainerIds(r, vmi, ts, o), Names(AddedContainers(r, vmi, ts, o));
    NamesAreConserved(r, vmi, ts, o);
    DistinctTogether(AllNames(Adapted(r, vmi, ts, o)), AllNames(r), added);
    AddedIdsStand(r, vmi, ts, o);
    DistinctNamesIffIds(ids, added);
    DistinctIdsIff(r, vmi, ts, o);
    StandAgree(ids, added, AllNames(r));
  }

  lemma StandAgree(ids: seq<ContainerId>, added: seq<string>, names: seq<string>)
    requires Stand(ids, added)
    ensures (forall x :: x in names ==> x !in added) <==> forall id :: id in ids ==> IdName(id) !in names
  {
    if x :| x in names && x in added {
      var i :| 0 <= i < |added| && added[i] == x;
      assert ids[i] in ids;
    }
    if id :| id in ids && IdName(id) in names {
      var i :| 0 <= i < |ids| && ids[i] == id;
      assert added[i] in added;
    }
  }
}
