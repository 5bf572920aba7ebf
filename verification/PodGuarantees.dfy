// What the whole adaptation guarantees about names, mounts and their order.
module PodGuarantees {
  import opened Common
  import opened Mounts
  import opened PodModel
  import opened PodStages
  import opened PodNames
  import opened PodShape
  import opened PodWellFormed
  import VfioGroups

  // -------- the added volumes by name --------

  function ImportedVolumes(vols: seq<VmiVolume>, ts: seq<Template>, vs: seq<Volume>): seq<VmiVolume> {
    if vols == [] then []
    else ImportedVolumes(vols[..|vols| - 1], ts, vs) + if Imported(Last(vols), ts, vs) then [Last(vols)] else []
  }

  function DeviceIds(ds: seq<Device>): (r: seq<Injected>)
    ensures |r| == |ds|
  {
    seq(|ds|, i requires 0 <= i < |ds| => Dev(ds[i]))
  }

  function ImportIds(vols: seq<VmiVolume>): (r: seq<Injected>)
    ensures |r| == |vols|
  {
    seq(|vols|, i requires 0 <= i < |vols| => ImportSrc(Slug(vols[i].name)))
  }

  function AddedIds(r: PodSpec, vmi: Vmi, ts: seq<Template>, o: Options): seq<Injected> {
    DeviceIds(HostDevices(vmi))
    + ImportIds(ImportedVolumes(vmi.volumes, ts, r.volumes))
    + (if o.passtWorkarounds then [PasstBin] else [])
    + [VmState, PrivateLibvirt, PrivateLibvirtQemu]
  }

  ghost predicate Carry(vs: seq<Volume>, ids: seq<Injected>) {
    |vs| == |ids| && forall i :: 0 <= i < |vs| ==> vs[i].name == NameOf(ids[i])
  }

  lemma CarryConcat(a: seq<Volume>, b: seq<Volume>, m: seq<Injected>, n: seq<Injected>)
    requires Carry(a, m) && Carry(b, n)
    ensures Carry(a + b, m + n)
  {
  }

  lemma {:induction false} ImportsCarry(vols: seq<VmiVolume>, ts: seq<Template>, vs: seq<Volume>)
    ensures Carry(ImportVolumes(vols, ts, vs), ImportIds(ImportedVolumes(vols, ts, vs)))
  {
    if vols == [] {
    } else {
      var front := vols[..|vols| - 1];
      ImportsCarry(front, ts, vs);
      if Imported(Last(vols), ts, vs) {
        var m := LookupMeta(ts, Last(vols).dataVolume.value).value;
        assert ImportIds(ImportedVolumes(vols, ts, vs)) ==
          ImportIds(ImportedVolumes(front, ts, vs)) + [ImportSrc(Slug(Last(vols).name))];
        CarryConcat(ImportVolumes(front, ts, vs), [ImportVolume(Last(vols), m)],
                    ImportIds(ImportedVolumes(front, ts, vs)), [ImportSrc(Slug(Last(vols).name))]);
      }
    }
  }

  lemma AddedCarry(r: PodSpec, vmi: Vmi, ts: seq<Template>, o: Options)
    ensures Carry(AddedVolumes(r, vmi, ts, o), AddedIds(r, vmi, ts, o))
  {
    var devices, imports := VolumesOf(DeviceAttachments(HostDevices(vmi))), ImportVolumes(vmi.volumes, ts, r.volumes);
    var deviceIds, importIds := DeviceIds(HostDevices(vmi)), ImportIds(ImportedVolumes(vmi.volumes, ts, r.volumes));
    assert Carry(devices, deviceIds);
    ImportsCarry(vmi.volumes, ts, r.volumes);
    CarryConcat(devices, imports, deviceIds, importIds);
    var passt := if o.passtWorkarounds then VolumesOf([PASST_BIN]) else [];
    var passtIds := if o.passtWorkarounds then [PasstBin] else [];
    assert Carry(passt, passtIds);
    CarryConcat(devices + imports, passt, deviceIds + importIds, passtIds);
    assert Carry(StateVolumes(vmi), [VmState, PrivateLibvirt, PrivateLibvirtQemu]);
    CarryConcat(devices + imports + passt, StateVolumes(vmi), deviceIds + importIds + passtIds,
                [VmState, PrivateLibvirt, PrivateLibvirtQemu]);
  }

  lemma CarriedNamesAreDistinct(vs: seq<Volume>, ids: seq<Injected>)
    requires Carry(vs, ids) && Distinct(ids)
    ensures DistinctNames(vs)
  {
    forall i, j | 0 <= i < j < |vs|
      ensures vs[i].name != vs[j].name
    {
      if vs[i].name == vs[j].name {
        NameInjective(ids[i], ids[j]);
      }
    }
  }

  // -------- no device is mounted twice --------

  lemma DistinctSeqConcat<T>(a: seq<T>, b: seq<T>)
    requires Distinct(a) && Distinct(b)
    requires forall x :: x in a ==> x !in b
    ensures Distinct(a + b)
  {
    forall i, j | 0 <= i < j < |a + b|
      ensures (a + b)[i] != (a + b)[j]
    {
      if i < |a| <= j {
        assert a[i] in a && b[j - |a|] in b;
      }
    }
  }

  predicate IsGpuDevice(d: Device, bound: nat) {
    match d
    case Nvidia(i) => i < bound
    case DriCard(i) => i < bound
    case DriRender(i) => i < bound
    case _ => bound > 0 && d in NVIDIA_SHARED
  }

  lemma {:induction false} GpuDevicesAreDistinct(gpus: seq<string>)
    ensures Distinct(AllGpuDevices(gpus))
    ensures forall d :: d in AllGpuDevices(gpus) ==> IsGpuDevice(d, |gpus|)
  {
    if gpus == [] {
    } else {
      var front := gpus[..|gpus| - 1];
      GpuDevicesAreDistinct(front);
      var more := GpuDevices(DetectGpuVendor(Last(gpus)), |front|);
      assert forall d :: d in more ==> IsGpuDevice(d, |gpus|) && !IsGpuDevice(d, |front|);
      DistinctSeqConcat(AllGpuDevices(front), more);
    }
  }

  lemma HostDevicesAreDistinct(vmi: Vmi)
    requires vmi.hasHostDevices ==> Distinct(vmi.groups)
    ensures Distinct(HostDevices(vmi))
    ensures forall d :: d in HostDevices(vmi) && IsVfioNode(d) ==> vmi.hasHostDevices && "vfio" in vmi.groups
  {
    GpuDevicesAreDistinct(vmi.gpus);
    var base := [Kvm, Tun, VhostNet, Cgroup];
    DistinctSeqConcat(base, AllGpuDevices(vmi.gpus));
    if vmi.hasHostDevices {
      DistinctSeqConcat([Vfio], GroupDevices(vmi.groups));
    }
    DistinctSeqConcat(base + AllGpuDevices(vmi.gpus), VfioDevices(vmi));
  }

  lemma AddedIdsAreDistinct(r: PodSpec, vmi: Vmi, ts: seq<Template>, o: Options)
    requires vmi.hasHostDevices ==> Distinct(vmi.groups)
    requires Distinct(ImportIds(ImportedVolumes(vmi.volumes, ts, r.volumes)))
    ensures Distinct(AddedIds(r, vmi, ts, o))
  {
    HostDevicesAreDistinct(vmi);
    var devices, imports := DeviceIds(HostDevices(vmi)), ImportIds(ImportedVolumes(vmi.volumes, ts, r.volumes));
    var passt := if o.passtWorkarounds then [PasstBin] else [];
    DistinctSeqConcat(devices, imports);
    DistinctSeqConcat(devices + imports, passt);
    DistinctSeqConcat(devices + imports + passt, [VmState, PrivateLibvirt, PrivateLibvirtQemu]);
  }

  // -------- slugs --------

  // Lower-case and free of underscores, like the DNS labels of section 2.1 of RFC 1123.
  predicate IsLabel(s: string) {
    forall i :: 0 <= i < |s| ==> s[i] != '_' && !('A' <= s[i] <= 'Z')
  }

  lemma SlugOfLabel(s: string)
    requires IsLabel(s)
    ensures Slug(s) == s
  {
  }

  ghost predicate DistinctLabels(vols: seq<VmiVolume>) {
    && (forall i :: 0 <= i < |vols| ==> IsLabel(vols[i].name))
    && forall i, j :: 0 <= i < j < |vols| ==> vols[i].name != vols[j].name
  }

  lemma {:induction false} ImportedIsSubsequence(vols: seq<VmiVolume>, ts: seq<Template>, vs: seq<Volume>)
    requires DistinctLabels(vols)
    ensures DistinctLabels(ImportedVolumes(vols, ts, vs))
    ensures forall v :: v in ImportedVolumes(vols, ts, vs) ==> v in vols
  {
    if vols == [] {
    } else {
      var front, last := vols[..|vols| - 1], Last(vols);
      ImportedIsSubsequence(front, ts, vs);
      var imported := ImportedVolumes(front, ts, vs);
      forall i | 0 <= i < |imported|
        ensures imported[i].name != last.name
      {
        assert imported[i] in front;
      }
    }
  }

  lemma LabelsGiveDistinctSlugs(vols: seq<VmiVolume>, ts: seq<Template>, vs: seq<Volume>)
    requires DistinctLabels(vols)
    ensures Distinct(ImportIds(ImportedVolumes(vols, ts, vs)))
  {
    ImportedIsSubsequence(vols, ts, vs);
    var imported := ImportedVolumes(vols, ts, vs);
    forall i | 0 <= i < |imported|
      ensures Slug(imported[i].name) == imported[i].name
    {
      SlugOfLabel(imported[i].name);
    }
  }

  // -------- the added mounts --------

  lemma DeviceMountsAreOrdered(ds: seq<Device>)
    ensures Ordered(MountsOf(DeviceAttachments(ds)))
  {
    var ms := MountsOf(DeviceAttachments(ds));
    forall i, j | 0 <= i < j < |ms|
      ensures !(ms[j].path < ms[i].path)
    {
      DevicePathsUnrelated(ds[j], ds[i]);
    }
  }

  lemma DeviceMountsAreDistinct(ds: seq<Device>)
    requires Distinct(ds) && forall d :: d in ds ==> !IsVfioNode(d)
    ensures DistinctPaths(MountsOf(DeviceAttachments(ds)))
  {
    var ms := MountsOf(DeviceAttachments(ds));
    forall i, j | 0 <= i < j < |ms|
      ensures ms[i].path != ms[j].path
    {
      if ms[i].path == ms[j].path {
        assert ds[i] in ds && ds[j] in ds;
        DevicePathInjective(ds[i], ds[j]);
      }
    }
  }

  // Device nodes, /passt-bin and the state directories live in different corners of the tree.
  predicate InDevOrSys(m: Mount) {
    |m.path| > 0 && (m.path[0] == "dev" || m.path[0] == "sys")
  }

  lemma DeviceMountsInDevOrSys(ds: seq<Device>)
    ensures forall m :: m in MountsOf(DeviceAttachments(ds)) ==> InDevOrSys(m)
  {
  }

  lemma StatePaths()
    ensures LIBVIRT < QEMU < NVRAM && QEMU < SWTPM && |NVRAM| == |SWTPM| == 6 && NVRAM != SWTPM
    ensures |LOCALCA| == 6 && !(LIBVIRT <= LOCALCA)
  {
    assert NVRAM[5] != SWTPM[5] && LOCALCA[3] != LIBVIRT[3];
  }

  lemma StateMountsAreOrdered()
    ensures Ordered(STATE_MOUNTS) && DistinctPaths(STATE_MOUNTS)
  {
    StatePaths();
  }

  lemma StateMountsAreInVar()
    ensures forall m :: m in STATE_MOUNTS ==> |m.path| > 3 && m.path[0] == "var"
  {
  }

  lemma OrderedAcross(a: seq<Mount>, b: seq<Mount>)
    requires Ordered(a) && Ordered(b)
    requires forall m, n :: m in a && n in b ==> |m.path| > 0 && |n.path| > 0 && m.path[0] != n.path[0]
    ensures Ordered(a + b)
    ensures DistinctPaths(a) && DistinctPaths(b) ==> DistinctPaths(a + b)
  {
    forall m, n | m in a && n in b
      ensures !(n.path < m.path) && n.path != m.path
    {
      assert m.path[0] != n.path[0];
    }
    OrderedConcat(a, b);
    if DistinctPaths(a) && DistinctPaths(b) {
      DistinctConcat(a, b);
    }
  }

  lemma PasstMountIsApart(ds: seq<Device>, passt: bool)
    ensures var devices, ms := MountsOf(DeviceAttachments(ds)), if passt then MountsOf([PASST_BIN]) else [];
      && Ordered(devices + ms)
      && (DistinctPaths(devices) ==> DistinctPaths(devices + ms))
      && forall m :: m in devices + ms ==> |m.path| > 0 && m.path[0] != "var"
  {
    var ms := if passt then MountsOf([PASST_BIN]) else [];
    DeviceMountsAreOrdered(ds);
    DeviceMountsInDevOrSys(ds);
    assert forall m :: m in ms ==> m.path == ["passt-bin"];
    OrderedAcross(MountsOf(DeviceAttachments(ds)), ms);
  }

  lemma AddedMountsAreOrdered(vmi: Vmi, o: Options)
    ensures Ordered(AddedMounts(vmi, o))
    ensures DistinctPaths(MountsOf(DeviceAttachments(HostDevices(vmi)))) ==> DistinctPaths(AddedMounts(vmi, o))
  {
    PasstMountIsApart(HostDevices(vmi), o.passtWorkarounds);
    StateMountsAreOrdered();
    StateMountsAreInVar();
    var passt := if o.passtWorkarounds then MountsOf([PASST_BIN]) else [];
    OrderedAcross(MountsOf(DeviceAttachments(HostDevices(vmi))) + passt, STATE_MOUNTS);
  }

  // No rendered mount of the compute container lies at or under an added one.
  ghost predicate ClearOfAdded(r: PodSpec, vmi: Vmi, o: Options) {
    forall m, n :: m in ComputeMounts(r) && n in AddedMounts(vmi, o) ==> !(n.path <= m.path)
  }

  lemma AdaptedComputeMounts(r: PodSpec, vmi: Vmi, ts: seq<Template>, o: Options)
    requires HasCompute(r)
    ensures ComputeMounts(Adapted(r, vmi, ts, o)) == ComputeMounts(r) + AddedMounts(vmi, o)
  {
    AdaptedShape(r, vmi, ts, o);
    var cs := WithMounts(r.containers, COMPUTE, AddedMounts(vmi, o));
    WithMountsTwice(r.containers, COMPUTE, AddedMounts(vmi, o), []);
    NamedIs(cs + (Proxies(r, o) + Promoted(r.inits)), COMPUTE, Named(r.containers, COMPUTE));
  }

  // The adaptation keeps the compute mounts in order, so mounting in list order and mounting by depth
  // agree on where every path ends up.
  lemma AdaptedMountsAreOrdered(r: PodSpec, vmi: Vmi, ts: seq<Template>, o: Options)
    requires HasCompute(r) && Ordered(ComputeMounts(r)) && ClearOfAdded(r, vmi, o)
    ensures var ms := ComputeMounts(Adapted(r, vmi, ts, o));
      Ordered(ms) && forall p :: LastCovering(ms, p) == LongestCovering(ms, p)
  {
    AdaptedComputeMounts(r, vmi, ts, o);
    AddedMountsAreOrdered(vmi, o);
    OrderedConcat(ComputeMounts(r), AddedMounts(vmi, o));
    var ms := ComputeMounts(Adapted(r, vmi, ts, o));
    forall p: Path
      ensures LastCovering(ms, p) == LongestCovering(ms, p)
    {
      LastIsLongest(ms, p);
    }
  }

  // -------- the adapted pod is well-formed --------

  ghost predicate Rendered(r: PodSpec) {
    WellFormed(r) && HasCompute(r)
  }

  // No rendered volume has the name of an added one.
  ghost predicate NamesAreFree(r: PodSpec, vmi: Vmi, ts: seq<Template>, o: Options) {
    forall v, w :: v in r.volumes && w in AddedVolumes(r, vmi, ts, o) ==> v.name != w.name
  }

  // No rendered mount of the compute container stands at an added mount point.
  ghost predicate PathsAreFree(r: PodSpec, vmi: Vmi, o: Options) {
    forall m, n :: m in ComputeMounts(r) && n in AddedMounts(vmi, o) ==> m.path != n.path
  }

  // The imported volumes have different slugs.
  ghost predicate DistinctSlugs(r: PodSpec, vmi: Vmi, ts: seq<Template>) {
    Distinct(ImportIds(ImportedVolumes(vmi.volumes, ts, r.volumes)))
  }

  // The groups that are mounted are different, and none would hide /dev/vfio/vfio.
  ghost predicate GoodGroups(vmi: Vmi) {
    vmi.hasHostDevices ==> Distinct(vmi.groups) && "vfio" !in vmi.groups
  }

  // The groups that the host scan finds are good, unless a device's group link ends in "vfio"; the kernel
  // names the groups by number.
  lemma ResolvedGroupsAreGood(vmi: Vmi, es: seq<VfioGroups.DirEntry>)
    requires VfioGroups.IsGroupList(es, vmi.groups)
    ensures GoodGroups(vmi) <==> !(vmi.hasHostDevices && VfioGroups.HasGroup(es, "vfio"))
    ensures (forall e :: e in es && VfioGroups.IsDevice(e) ==> IsDigits(e.group.value)) ==> GoodGroups(vmi)
  {
    if e :| e in es && VfioGroups.IsDevice(e) && e.group.value == "vfio" {
      assert !IsDigits(e.group.value) by {
        assert e.group.value[0] == 'v';
      }
    }
  }

  // The rendered pod and the VM give the adaptation room.
  ghost predicate HasRoom(r: PodSpec, vmi: Vmi, ts: seq<Template>, o: Options) {
    NamesAreFree(r, vmi, ts, o) && PathsAreFree(r, vmi, o) && DistinctSlugs(r, vmi, ts) && GoodGroups(vmi)
  }

  lemma OtherNamesAreFree(r: PodSpec, vmi: Vmi, ts: seq<Template>, o: Options)
    requires forall v, n :: v in r.volumes ==> NameOf(n) != v.name
    ensures NamesAreFree(r, vmi, ts, o)
  {
    var added := AddedVolumes(r, vmi, ts, o);
    AddedCarry(r, vmi, ts, o);
    forall v, w | v in r.volumes && w in added
      ensures v.name != w.name
    {
      var i :| 0 <= i < |added| && added[i] == w;
      assert NameOf(AddedIds(r, vmi, ts, o)[i]) == w.name;
    }
  }

  lemma AllNamesAreDistinct(r: PodSpec, vmi: Vmi, ts: seq<Template>, o: Options)
    requires Rendered(r) && HasRoom(r, vmi, ts, o)
    ensures DistinctNames(r.volumes + AddedVolumes(r, vmi, ts, o))
  {
    AddedIdsAreDistinct(r, vmi, ts, o);
    AddedCarry(r, vmi, ts, o);
    CarriedNamesAreDistinct(AddedVolumes(r, vmi, ts, o), AddedIds(r, vmi, ts, o));
    DistinctNamesConcat(r, AddedVolumes(r, vmi, ts, o));
  }

  lemma AllPathsAreDistinct(r: PodSpec, vmi: Vmi, ts: seq<Template>, o: Options)
    requires Rendered(r) && HasRoom(r, vmi, ts, o)
    ensures DistinctPaths(ComputeMounts(r) + AddedMounts(vmi, o))
  {
    HostDevicesAreDistinct(vmi);
    DeviceMountsAreDistinct(HostDevices(vmi));
    AddedMountsAreOrdered(vmi, o);
    DistinctConcat(ComputeMounts(r), AddedMounts(vmi, o));
  }

  // `all` and `paths` are the final volumes and compute mounts; a stage adds their next stretch.
  ghost predicate NextStretch(p: PodSpec, added: seq<Volume>, ms: seq<Mount>, all: seq<Volume>, paths: seq<Mount>) {
    && DistinctNames(all) && p.volumes + added <= all
    && DistinctPaths(paths) && ComputeMounts(p) + ms <= paths
  }

  lemma StretchIsFresh(p: PodSpec, added: seq<Volume>, ms: seq<Mount>, all: seq<Volume>, paths: seq<Mount>)
    requires NextStretch(p, added, ms, all, paths)
    ensures FreshNames(p, added) && FreshPaths(p, ms)
  {
    StretchNames(p.volumes, added, all);
    StretchPaths(ComputeMounts(p), ms, paths);
  }

  lemma StretchNames(before: seq<Volume>, added: seq<Volume>, all: seq<Volume>)
    requires DistinctNames(all) && before + added <= all
    ensures DistinctNames(added)
    ensures forall v, w :: v in before && w in added ==> v.name != w.name
  {
    forall i | 0 <= i < |added|
      ensures added[i] == all[|before| + i]
    {
      assert (before + added)[|before| + i] == added[i];
    }
    forall i | 0 <= i < |before|
      ensures before[i] == all[i]
    {
      assert (before + added)[i] == before[i];
    }
  }

  lemma StretchPaths(before: seq<Mount>, ms: seq<Mount>, paths: seq<Mount>)
    requires DistinctPaths(paths) && before + ms <= paths
    ensures DistinctPaths(ms)
    ensures forall m, n :: m in before && n in ms ==> m.path != n.path
  {
    forall i | 0 <= i < |ms|
      ensures ms[i] == paths[|before| + i]
    {
      assert (before + ms)[|before| + i] == ms[i];
    }
    forall i | 0 <= i < |before|
      ensures before[i] == paths[i]
    {
      assert (before + ms)[i] == before[i];
    }
  }

  lemma DevicesStep(p: PodSpec, vmi: Vmi, all: seq<Volume>, paths: seq<Mount>)
    requires WellFormed(p) && HasCompute(p)
    requires var attachments := DeviceAttachments(HostDevices(vmi));
      NextStretch(p, VolumesOf(attachments), MountsOf(attachments), all, paths)
    ensures var q := WithHostDevices(p, vmi);
      && WellFormed(q) && HasCompute(q)
      && ComputeMounts(q) == ComputeMounts(p) + MountsOf(DeviceAttachments(HostDevices(vmi)))
  {
    var attachments := DeviceAttachments(HostDevices(vmi));
    StretchIsFresh(p, VolumesOf(attachments), MountsOf(attachments), all, paths);
    AttachKeepsWellFormed(p, attachments);
  }

  lemma DataVolumesStep(
    r: PodSpec, p: PodSpec, vmi: Vmi, ts: seq<Template>, image: string, all: seq<Volume>, paths: seq<Mount>)
    requires WellFormed(p) && HasCompute(p)
    requires p.volumes == r.volumes + VolumesOf(DeviceAttachments(HostDevices(vmi)))
    requires NextStretch(p, ImportVolumes(vmi.volumes, ts, r.volumes), [], all, paths)
    ensures var q := WithDirInit(Cleaned(WithDataVolumes(p, vmi, ts, image)), image);
      && WellFormed(q) && HasCompute(q) && ComputeMounts(q) == ComputeMounts(p)
      && q.volumes == p.volumes + ImportVolumes(vmi.volumes, ts, r.volumes)
  {
    forall claim
      ensures ClaimVolume(p.volumes, claim) == ClaimVolume(r.volumes, claim)
    {
      DevicesAreNoClaims(r.volumes, HostDevices(vmi), claim);
    }
    SameDataVolumes(vmi.volumes, ts, r.volumes, p.volumes, image);
    StretchIsFresh(p, ImportVolumes(vmi.volumes, ts, r.volumes), [], all, paths);
    DataVolumesKeepWellFormed(p, vmi, ts, image);
    CleanupKeepsWellFormed(WithDataVolumes(p, vmi, ts, image));
    DirInitKeepsWellFormed(Cleaned(WithDataVolumes(p, vmi, ts, image)), image);
  }

  lemma PatcherStep(p: PodSpec, vmi: Vmi, image: string, passt: bool, all: seq<Volume>, paths: seq<Mount>)
    requires WellFormed(p) && HasCompute(p)
    requires var attachments := if passt then [PASST_BIN] else [];
      NextStretch(p, VolumesOf(attachments) + StateVolumes(vmi), MountsOf(attachments) + STATE_MOUNTS, all, paths)
    ensures var q := if passt then WithPatcher(p, image) else p;
      WellFormed(q) && HasCompute(q) && NextStretch(q, StateVolumes(vmi), STATE_MOUNTS, all, paths)
  {
    if passt {
      var vs, ms := VolumesOf([PASST_BIN]), MountsOf([PASST_BIN]);
      assert p.volumes + (vs + StateVolumes(vmi)) == p.volumes + vs + StateVolumes(vmi);
      assert ComputeMounts(p) + (ms + STATE_MOUNTS) == ComputeMounts(p) + ms + STATE_MOUNTS;
      StretchIsFresh(p, vs, ms, all, paths);
      PatcherKeepsWellFormed(p, image);
    } else {
      assert VolumesOf([]) + StateVolumes(vmi) == StateVolumes(vmi) && MountsOf([]) + STATE_MOUNTS == STATE_MOUNTS;
    }
  }

  lemma StateStep(q: PodSpec, vmi: Vmi, all: seq<Volume>, paths: seq<Mount>)
    requires WellFormed(q) && HasCompute(q) && NextStretch(q, StateVolumes(vmi), STATE_MOUNTS, all, paths)
    ensures WellFormed(WithState(q, vmi))
  {
    StretchIsFresh(q, StateVolumes(vmi), STATE_MOUNTS, all, paths);
    StateKeepsWellFormed(q, vmi);
  }

  // The stretches, one stage after the other.
  lemma Stretches(r: PodSpec, vmi: Vmi, ts: seq<Template>, o: Options)
    ensures var all, attachments := r.volumes + AddedVolumes(r, vmi, ts, o), DeviceAttachments(HostDevices(vmi));
      var imports, passt := ImportVolumes(vmi.volumes, ts, r.volumes), if o.passtWorkarounds then [PASST_BIN] else [];
      && r.volumes + VolumesOf(attachments) <= all
      && r.volumes + VolumesOf(attachments) + imports <= all
      && r.volumes + VolumesOf(attachments) + imports + (VolumesOf(passt) + StateVolumes(vmi)) <= all
    ensures var paths, attachments := ComputeMounts(r) + AddedMounts(vmi, o), DeviceAttachments(HostDevices(vmi));
      var passt := if o.passtWorkarounds then [PASST_BIN] else [];
      && ComputeMounts(r) + MountsOf(attachments) + [] <= paths
      && ComputeMounts(r) + MountsOf(attachments) + (MountsOf(passt) + STATE_MOUNTS) <= paths
  {
    var passt := if o.passtWorkarounds then [PASST_BIN] else [];
    Prefixes(r.volumes, VolumesOf(DeviceAttachments(HostDevices(vmi))), ImportVolumes(vmi.volumes, ts, r.volumes),
             VolumesOf(passt), StateVolumes(vmi));
    Prefixes(ComputeMounts(r), MountsOf(DeviceAttachments(HostDevices(vmi))), [], MountsOf(passt), STATE_MOUNTS);
    var ms := MountsOf(DeviceAttachments(HostDevices(vmi)));
    assert ms + [] == ms;
    assert ComputeMounts(r) + ms + [] == ComputeMounts(r) + ms;
  }

  lemma Prefixes<T>(a: seq<T>, b: seq<T>, c: seq<T>, d: seq<T>, e: seq<T>)
    ensures a + b + c + (d + e) == a + (b + c + d + e)
    ensures a + b <= a + (b + c + d + e) && a + b + c <= a + (b + c + d + e)
  {
  }

  // The pod is well-formed when the state stage receives it, and that stage's names and paths are fresh.
  lemma BeforeStateStep(r: PodSpec, vmi: Vmi, ts: seq<Template>, o: Options, all: seq<Volume>, paths: seq<Mount>)
    requires Rendered(r)
    requires all == r.volumes + AddedVolumes(r, vmi, ts, o) && DistinctNames(all)
    requires paths == ComputeMounts(r) + AddedMounts(vmi, o) && DistinctPaths(paths)
    ensures var q := BeforeState(r, vmi, ts, o);
      WellFormed(q) && HasCompute(q) && NextStretch(q, StateVolumes(vmi), STATE_MOUNTS, all, paths)
  {
    Stretches(r, vmi, ts, o);
    ProxiesKeepWellFormed(r, o);
    DevicesStep(WithProxies(r, o), vmi, all, paths);
    var p1 := WithHostDevices(WithProxies(r, o), vmi);
    DataVolumesStep(r, p1, vmi, ts, o.launcherImage, all, paths);
    PatcherStep(WithDirInit(Cleaned(WithDataVolumes(p1, vmi, ts, o.launcherImage)), o.launcherImage),
                vmi, o.launcherImage, o.passtWorkarounds, all, paths);
  }

  lemma RoomSuffices(r: PodSpec, vmi: Vmi, ts: seq<Template>, o: Options)
    requires Rendered(r) && HasRoom(r, vmi, ts, o)
    ensures WellFormed(Adapted(r, vmi, ts, o))
  {
    var all, paths := r.volumes + AddedVolumes(r, vmi, ts, o), ComputeMounts(r) + AddedMounts(vmi, o);
    AllNamesAreDistinct(r, vmi, ts, o);
    AllPathsAreDistinct(r, vmi, ts, o);
    BeforeStateStep(r, vmi, ts, o, all, paths);
    StateStep(BeforeState(r, vmi, ts, o), vmi, all, paths);
  }

  // -------- the room is needed --------

  lemma NamesNeedRoom(r: PodSpec, vmi: Vmi, ts: seq<Template>, o: Options)
    requires HasCompute(r) && DistinctNames(Adapted(r, vmi, ts, o).volumes)
    ensures NamesAreFree(r, vmi, ts, o) && DistinctSlugs(r, vmi, ts)
    ensures vmi.hasHostDevices ==> Distinct(vmi.groups)
  {
    var added := AddedVolumes(r, vmi, ts, o);
    AdaptedShape(r, vmi, ts, o);
    StretchNames(r.volumes, added, r.volumes + added);
    AddedCarry(r, vmi, ts, o);
    DistinctNamesHaveDistinctIds(added, AddedIds(r, vmi, ts, o));
    DistinctIdsSplit(r, vmi, ts, o);
  }

  lemma DistinctNamesHaveDistinctIds(vs: seq<Volume>, ids: seq<Injected>)
    requires Carry(vs, ids) && DistinctNames(vs)
    ensures Distinct(ids)
  {
    forall i, j | 0 <= i < j < |ids|
      ensures ids[i] != ids[j]
    {
      assert vs[i].name != vs[j].name;
    }
  }

  lemma DistinctPart<T>(a: seq<T>, b: seq<T>, c: seq<T>)
    requires Distinct(a + b + c)
    ensures Distinct(b)
  {
    forall i, j | 0 <= i < j < |b|
      ensures b[i] != b[j]
    {
      assert (a + b + c)[|a| + i] == b[i] && (a + b + c)[|a| + j] == b[j];
    }
  }

  lemma DistinctIdsSplit(r: PodSpec, vmi: Vmi, ts: seq<Template>, o: Options)
    requires Distinct(AddedIds(r, vmi, ts, o))
    ensures DistinctSlugs(r, vmi, ts)
    ensures vmi.hasHostDevices ==> Distinct(vmi.groups)
  {
    var devices, imports := DeviceIds(HostDevices(vmi)), ImportIds(ImportedVolumes(vmi.volumes, ts, r.volumes));
    var passt := if o.passtWorkarounds then [PasstBin] else [];
    var state := [VmState, PrivateLibvirt, PrivateLibvirtQemu];
    assert devices + imports + passt + state == devices + imports + (passt + state);
    assert devices + imports + passt + state == [] + devices + (imports + passt + state);
    DistinctPart(devices, imports, passt + state);
    DistinctPart([], devices, imports + passt + state);
    if vmi.hasHostDevices {
      GroupsAreDistinct(vmi);
    }
  }

  lemma HostDevicesSplit(vmi: Vmi)
    requires vmi.hasHostDevices
    ensures HostDevices(vmi) ==
      [Kvm, Tun, VhostNet, Cgroup] + AllGpuDevices(vmi.gpus) + [Vfio] + GroupDevices(vmi.groups)
  {
  }

  lemma GroupsAreDistinct(vmi: Vmi)
    requires vmi.hasHostDevices && Distinct(DeviceIds(HostDevices(vmi)))
    ensures Distinct(vmi.groups)
  {
    HostDevicesSplit(vmi);
    DistinctGroups([Kvm, Tun, VhostNet, Cgroup] + AllGpuDevices(vmi.gpus) + [Vfio], vmi.groups);
  }

  lemma DistinctGroups(front: seq<Device>, groups: seq<string>)
    requires Distinct(DeviceIds(front + GroupDevices(groups)))
    ensures Distinct(groups)
  {
    var ids := DeviceIds(front + GroupDevices(groups));
    forall i, j | 0 <= i < j < |groups|
      ensures groups[i] != groups[j]
    {
      assert ids[|front| + i] == Dev(VfioGroup(groups[i])) && ids[|front| + j] == Dev(VfioGroup(groups[j]));
    }
  }

  // A group called vfio would be mounted where the VFIO node already is.
  lemma VfioNodeClash(front: seq<Device>, groups: seq<string>, more: seq<Mount>)
    requires "vfio" in groups
    ensures !DistinctPaths(MountsOf(DeviceAttachments(front + [Vfio] + GroupDevices(groups))) + more)
  {
    var ds := front + [Vfio] + GroupDevices(groups);
    var ms := MountsOf(DeviceAttachments(ds)) + more;
    var k :| 0 <= k < |groups| && groups[k] == "vfio";
    var i, j := |front|, |front| + 1 + k;
    assert ds[i] == Vfio && ds[j] == VfioGroup("vfio");
    assert ms[i].path == DevicePath(ds[i]) && ms[j].path == DevicePath(ds[j]);
  }

  lemma PathsNeedGoodGroups(vmi: Vmi, o: Options)
    requires vmi.hasHostDevices && "vfio" in vmi.groups
    ensures !DistinctPaths(AddedMounts(vmi, o))
  {
    var passt := if o.passtWorkarounds then MountsOf([PASST_BIN]) else [];
    var ms := MountsOf(DeviceAttachments(HostDevices(vmi)));
    HostDevicesSplit(vmi);
    VfioNodeClash([Kvm, Tun, VhostNet, Cgroup] + AllGpuDevices(vmi.gpus), vmi.groups, passt + STATE_MOUNTS);
    assert ms + passt + STATE_MOUNTS == ms + (passt + STATE_MOUNTS);
  }

  lemma PathsNeedRoom(r: PodSpec, vmi: Vmi, ts: seq<Template>, o: Options)
    requires HasCompute(r) && DistinctPaths(ComputeMounts(Adapted(r, vmi, ts, o)))
    ensures PathsAreFree(r, vmi, o)
    ensures vmi.hasHostDevices ==> "vfio" !in vmi.groups
  {
    var added := AddedMounts(vmi, o);
    AdaptedComputeMounts(r, vmi, ts, o);
    StretchPaths(ComputeMounts(r), added, ComputeMounts(r) + added);
    if vmi.hasHostDevices && "vfio" in vmi.groups {
      PathsNeedGoodGroups(vmi, o);
    }
  }

  // Whatever options, GPUs, host devices and DataVolumes the VM has, the adapted pod is well-formed
  // exactly when no rendered volume has an added name, no rendered mount stands at an added mount point,
  // no two imported volumes share a slug, and the mounted groups are distinct numbers.
  lemma AdaptedIsWellFormedIff(r: PodSpec, vmi: Vmi, ts: seq<Template>, o: Options)
    requires Rendered(r)
    ensures WellFormed(Adapted(r, vmi, ts, o)) <==> HasRoom(r, vmi, ts, o)
  {
    if HasRoom(r, vmi, ts, o) {
      RoomSuffices(r, vmi, ts, o);
    } else if WellFormed(Adapted(r, vmi, ts, o)) {
      NamesNeedRoom(r, vmi, ts, o);
      PathsNeedRoom(r, vmi, ts, o);
    }
  }

  // Distinct volume names that are DNS labels always have distinct slugs.
  lemma AdaptedIsWellFormedForLabels(r: PodSpec, vmi: Vmi, ts: seq<Template>, o: Options)
    requires Rendered(r) && DistinctLabels(vmi.volumes) && GoodGroups(vmi)
    ensures WellFormed(Adapted(r, vmi, ts, o)) <==> NamesAreFree(r, vmi, ts, o) && PathsAreFree(r, vmi, o)
  {
    LabelsGiveDistinctSlugs(vmi.volumes, ts, r.volumes);
    AdaptedIsWellFormedIff(r, vmi, ts, o);
  }

  // -------- two volumes with one slug --------

  const TWIN_POD := PodSpec(
    [Volume("root-a", Claim("da")), Volume("root-b", Claim("db"))], [],
    [Container(COMPUTE, "virt-launcher", Argv([]), [], None)])

  const TWIN_VMI := Vmi("vm", [VmiVolume("a_b", Some("da")), VmiVolume("a-b", Some("db"))], [], false, [])

  const TWIN_TEMPLATES := [
    Template("da", true, Some(1), Some("docker://image")), Template("db", true, Some(1), Some("docker://image"))]

  lemma SlugCollision()
    ensures Slug("a_b") == Slug("a-b") && "a_b" != "a-b"
  {
    assert Slug("a_b") == "a-b" && Slug("a-b") == "a-b";
  }

  lemma NotInjected(name: string, n: Injected)
    requires |name| == 6 && name[0] == 'r'
    ensures NameOf(n) != name
  {
    FamilyIs(n);
  }

  lemma TwinsAreImported()
    ensures ImportedVolumes(TWIN_VMI.volumes, TWIN_TEMPLATES, TWIN_POD.volumes) == TWIN_VMI.volumes
  {
    var vols, ts, vs := TWIN_VMI.volumes, TWIN_TEMPLATES, TWIN_POD.volumes;
    assert ts[..1] == [ts[0]] && LookupMeta(ts[..1], "da") == Some(MetaOf(ts[0]));
    assert LookupMeta(ts, "da") == LookupMeta(ts[..1], "da");
    assert vs[1..] == [vs[1]] && ClaimVolume(vs[1..], "db") == "root-b" && ClaimVolume(vs, "da") == "root-a";
    assert Imported(vols[0], ts, vs) && Imported(vols[1], ts, vs);
    assert vols[..1] == [vols[0]] && vols[..1][..0] == [];
    assert ImportedVolumes(vols[..1], ts, vs) == [vols[0]];
  }

  lemma TwinPodIsRendered()
    ensures Rendered(TWIN_POD) && ComputeMounts(TWIN_POD) == []
  {
    assert TWIN_POD.containers[0].name == COMPUTE;
    assert "root-a"[5] != "root-b"[5];
  }

  lemma TwinNames()
    ensures forall v, n :: v in TWIN_POD.volumes ==> NameOf(n) != v.name
  {
    forall v, n | v in TWIN_POD.volumes
      ensures NameOf(n) != v.name
    {
      NotInjected(v.name, n);
    }
  }

  lemma TwinSlugs()
    ensures !DistinctSlugs(TWIN_POD, TWIN_VMI, TWIN_TEMPLATES)
  {
    TwinsAreImported();
    SlugCollision();
    var ids := ImportIds(TWIN_VMI.volumes);
    assert ids[0] == ids[1];
  }

  // Outside the labels a pod can be well-formed, with all added names and paths free, and the adaptation
  // still declares a volume twice.
  lemma TwinsAreDeclaredTwice(o: Options)
    ensures Rendered(TWIN_POD) && GoodGroups(TWIN_VMI)
    ensures NamesAreFree(TWIN_POD, TWIN_VMI, TWIN_TEMPLATES, o) && PathsAreFree(TWIN_POD, TWIN_VMI, o)
    ensures !DistinctNames(Adapted(TWIN_POD, TWIN_VMI, TWIN_TEMPLATES, o).volumes)
  {
    TwinPodIsRendered();
    TwinNames();
    OtherNamesAreFree(TWIN_POD, TWIN_VMI, TWIN_TEMPLATES, o);
    TwinSlugs();
    if DistinctNames(Adapted(TWIN_POD, TWIN_VMI, TWIN_TEMPLATES, o).volumes) {
      NamesNeedRoom(TWIN_POD, TWIN_VMI, TWIN_TEMPLATES, o);
    }
  }
}
