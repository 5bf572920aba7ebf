// The host devices of the adapted pod, spelled out: which nodes compute gets, where, and how.
module PodDevices {
  import opened Common
  import opened Mounts
  import opened PodModel
  import opened PodStages
  import opened PodShape
  import opened PodWellFormed
  import opened PodGuarantees

  // -------- recognising a vendor --------

  // The word occurs in s, in upper or lower case; words are written in lower case.
  ghost predicate Mentions(s: string, word: string) {
    exists i: nat :: MentionsAt(s, word, i)
  }

  predicate MentionsAt(s: string, word: string, i: nat) {
    i + |word| <= |s| &&
    forall k :: 0 <= k < |word| ==>
      s[i + k] == word[k] || ('A' <= s[i + k] <= 'Z' && s[i + k] - 'A' + 'a' == word[k])
  }

  predicate IsLowerWord(word: string) {
    forall c :: c in word ==> 'a' <= c <= 'z'
  }

  lemma MentionsIff(s: string, word: string)
    requires IsLowerWord(word)
    ensures Contains(ToLower(s), word) <==> Mentions(s, word)
  {
    var lower := ToLower(s);
    if i: nat :| i <= |lower| && word <= lower[i..] {
      assert forall k :: 0 <= k < |word| ==> lower[i..][k] == word[k] == lower[i + k];
      assert MentionsAt(s, word, i);
    }
    if i: nat :| MentionsAt(s, word, i) {
      assert forall k :: 0 <= k < |word| ==> word[k] in word;
      assert forall k :: 0 <= k < |word| ==> lower[i..][k] == lower[i + k] == word[k];
      assert word <= lower[i..];
    }
  }

  // -------- the nodes --------

  // The node belongs to GPU i of that name.
  ghost predicate IsGpuNode(name: string, i: nat, path: Path) {
    if Mentions(name, "nvidia") then
      || path == ["dev", "nvidia" + Decimal(i)]
      || (i == 0 && (path == ["dev", "nvidiactl"] || path == ["dev", "nvidia-uvm"]
                     || path == ["dev", "nvidia-uvm-tools"] || path == ["dev", "nvidia-modeset"]))
    else
      || path == ["dev", "dri", "card" + Decimal(i)]
      || ((Mentions(name, "amd") || Mentions(name, "radeon") || Mentions(name, "intel"))
          && path == ["dev", "dri", "renderD" + Decimal(128 + i)])
  }

  ghost predicate SomeGpuNode(gpus: seq<string>, path: Path) {
    exists i :: 0 <= i < |gpus| && IsGpuNode(gpus[i], i, path)
  }

  // The node belongs to the VM: always KVM, TUN, vhost-net and the cgroups, the nodes of its GPUs, and, if it
  // has host devices, VFIO and the groups found.
  ghost predicate IsNode(vmi: Vmi, path: Path) {
    || path == ["dev", "kvm"] || path == ["dev", "net", "tun"] || path == ["dev", "vhost-net"]
    || path == ["sys", "fs", "cgroup"]
    || SomeGpuNode(vmi.gpus, path)
    || (vmi.hasHostDevices &&
        (path == ["dev", "vfio", "vfio"] || exists g :: g in vmi.groups && path == ["dev", "vfio", g]))
  }

  ghost predicate HasPath(ds: seq<Device>, path: Path) {
    exists d :: d in ds && DevicePath(d) == path
  }

  lemma HasPathConcat(a: seq<Device>, b: seq<Device>, path: Path)
    ensures HasPath(a + b, path) <==> HasPath(a, path) || HasPath(b, path)
  {
  }

  lemma VendorOf(name: string)
    ensures DetectGpuVendor(name).NvidiaVendor? <==> Mentions(name, "nvidia")
    ensures !Mentions(name, "nvidia") ==>
      ((DetectGpuVendor(name).AmdVendor? || DetectGpuVendor(name).IntelVendor?) <==>
       Mentions(name, "amd") || Mentions(name, "radeon") || Mentions(name, "intel"))
  {
    MentionsIff(name, "nvidia");
    MentionsIff(name, "amd");
    MentionsIff(name, "radeon");
    MentionsIff(name, "intel");
  }

  lemma NvidiaPaths(i: nat, path: Path)
    ensures HasPath(GpuDevices(NvidiaVendor, i), path) <==>
      || path == ["dev", "nvidia" + Decimal(i)]
      || (i == 0 && (path == ["dev", "nvidiactl"] || path == ["dev", "nvidia-uvm"]
                     || path == ["dev", "nvidia-uvm-tools"] || path == ["dev", "nvidia-modeset"]))
  {
    var ds := GpuDevices(NvidiaVendor, i);
    if i == 0 {
      assert ds == [Nvidia(0), NvidiaCtl, NvidiaUvm, NvidiaUvmTools, NvidiaModeset];
      assert ds[0] in ds && ds[1] in ds && ds[2] in ds && ds[3] in ds && ds[4] in ds;
    } else {
      assert ds == [Nvidia(i)] && ds[0] in ds;
    }
    assert DevicePath(Nvidia(i)) == ["dev", "nvidia" + Decimal(i)];
  }

  lemma DriPaths(vendor: Vendor, i: nat, path: Path)
    requires !vendor.NvidiaVendor?
    ensures HasPath(GpuDevices(vendor, i), path) <==>
      || path == ["dev", "dri", "card" + Decimal(i)]
      || (!vendor.UnknownVendor? && path == ["dev", "dri", "renderD" + Decimal(128 + i)])
  {
    var ds := GpuDevices(vendor, i);
    assert ds == if vendor.UnknownVendor? then [DriCard(i)] else [DriCard(i), DriRender(i)];
    assert ds[0] in ds && DevicePath(ds[0]) == ["dev", "dri", "card" + Decimal(i)];
    if !vendor.UnknownVendor? {
      assert ds[1] in ds && DevicePath(ds[1]) == ["dev", "dri", "renderD" + Decimal(128 + i)];
    }
  }

  lemma GpuPaths(name: string, i: nat, path: Path)
    ensures HasPath(GpuDevices(DetectGpuVendor(name), i), path) <==> IsGpuNode(name, i, path)
  {
    VendorOf(name);
    if DetectGpuVendor(name).NvidiaVendor? {
      NvidiaPaths(i, path);
    } else {
      DriPaths(DetectGpuVendor(name), i, path);
    }
  }

  lemma OneMoreGpu(gpus: seq<string>, path: Path)
    requires gpus != []
    ensures SomeGpuNode(gpus, path) <==>
      SomeGpuNode(gpus[..|gpus| - 1], path) || IsGpuNode(Last(gpus), |gpus| - 1, path)
  {
    var front := gpus[..|gpus| - 1];
    if i :| 0 <= i < |front| && IsGpuNode(front[i], i, path) {
      assert gpus[i] == front[i];
    }
    if i :| 0 <= i < |gpus| && IsGpuNode(gpus[i], i, path) {
      assert i < |front| ==> front[i] == gpus[i];
    }
  }

  lemma {:induction false} AllGpuPaths(gpus: seq<string>, path: Path)
    ensures HasPath(AllGpuDevices(gpus), path) <==> SomeGpuNode(gpus, path)
  {
    if gpus == [] {
    } else {
      var front, n := gpus[..|gpus| - 1], |gpus| - 1;
      AllGpuPaths(front, path);
      GpuPaths(Last(gpus), n, path);
      HasPathConcat(AllGpuDevices(front), GpuDevices(DetectGpuVendor(Last(gpus)), n), path);
      OneMoreGpu(gpus, path);
    }
  }

  lemma VfioPaths(vmi: Vmi, path: Path)
    ensures HasPath(VfioDevices(vmi), path) <==>
      && vmi.hasHostDevices
      && (path == ["dev", "vfio", "vfio"] || exists g :: g in vmi.groups && path == ["dev", "vfio", g])
  {
    if vmi.hasHostDevices {
      var ds := VfioDevices(vmi);
      assert ds[0] == Vfio && ds[0] in ds && DevicePath(ds[0]) == ["dev", "vfio", "vfio"];
      if g :| g in vmi.groups && path == ["dev", "vfio", g] {
        var i :| 0 <= i < |vmi.groups| && vmi.groups[i] == g;
        assert ds[i + 1] == VfioGroup(g) && ds[i + 1] in ds && DevicePath(ds[i + 1]) == path;
      }
      forall d | d in ds && DevicePath(d) == path
        ensures path == ["dev", "vfio", "vfio"] || exists g :: g in vmi.groups && path == ["dev", "vfio", g]
      {
        var k :| 0 <= k < |ds| && ds[k] == d;
        assert k > 0 ==> d == VfioGroup(vmi.groups[k - 1]) && vmi.groups[k - 1] in vmi.groups;
      }
    }
  }

  lemma BasePaths(path: Path)
    ensures HasPath([Kvm, Tun, VhostNet, Cgroup], path) <==>
      || path == ["dev", "kvm"] || path == ["dev", "net", "tun"] || path == ["dev", "vhost-net"]
      || path == ["sys", "fs", "cgroup"]
  {
    var ds := [Kvm, Tun, VhostNet, Cgroup];
    assert ds[0] in ds && ds[1] in ds && ds[2] in ds && ds[3] in ds;
  }

  lemma HostPaths(vmi: Vmi, path: Path)
    ensures HasPath(HostDevices(vmi), path) <==> IsNode(vmi, path)
  {
    BasePaths(path);
    AllGpuPaths(vmi.gpus, path);
    VfioPaths(vmi, path);
    HasPathConcat([Kvm, Tun, VhostNet, Cgroup], AllGpuDevices(vmi.gpus), path);
    HasPathConcat([Kvm, Tun, VhostNet, Cgroup] + AllGpuDevices(vmi.gpus), VfioDevices(vmi), path);
  }

  // -------- the adapted pod --------

  // Compute mounts the host's file or directory at the same path, through a volume of that path.
  ghost predicate MountsNode(vs: seq<Volume>, ms: seq<Mount>, path: Path, readOnly: bool) {
    exists v, m :: v in vs && m in ms && v.source == HostPath(path) && m == Mount(v.name, path, [], readOnly)
  }

  lemma CgroupAlone(d: Device)
    ensures DevicePath(d) == ["sys", "fs", "cgroup"] <==> d.Cgroup?
  {
  }

  lemma AttachedNode(ds: seq<Device>, path: Path, vs: seq<Volume>, ms: seq<Mount>)
    requires HasPath(ds, path) && VolumesOf(DeviceAttachments(ds)) <= vs && MountsOf(DeviceAttachments(ds)) <= ms
    ensures MountsNode(vs, ms, path, path == ["sys", "fs", "cgroup"])
  {
    var d :| d in ds && DevicePath(d) == path;
    var i :| 0 <= i < |ds| && ds[i] == d;
    var v, m := VolumesOf(DeviceAttachments(ds))[i], MountsOf(DeviceAttachments(ds))[i];
    CgroupAlone(d);
    assert vs[i] == v && ms[i] == m && v in vs && m in ms && v.source == HostPath(path);
    assert m == Mount(v.name, path, [], path == ["sys", "fs", "cgroup"]);
  }

  // Every node of the VM is mounted in compute at its own path, writable but for the cgroups ...
  lemma NodesAreMounted(r: PodSpec, vmi: Vmi, ts: seq<Template>, o: Options, path: Path)
    requires HasCompute(r) && IsNode(vmi, path)
    ensures var p := Adapted(r, vmi, ts, o);
      && |r.volumes| <= |p.volumes| && |ComputeMounts(r)| <= |ComputeMounts(p)|
      && MountsNode(p.volumes[|r.volumes|..], ComputeMounts(p)[|ComputeMounts(r)|..], path,
                    path == ["sys", "fs", "cgroup"])
  {
    var p := Adapted(r, vmi, ts, o);
    AdaptedShape(r, vmi, ts, o);
    AdaptedComputeMounts(r, vmi, ts, o);
    HostPaths(vmi, path);
    AddedAreBehind(r.volumes, AddedVolumes(r, vmi, ts, o));
    AddedAreBehind(ComputeMounts(r), AddedMounts(vmi, o));
    DevicesComeFirst(r, vmi, ts, o);
    AttachedNode(HostDevices(vmi), path, AddedVolumes(r, vmi, ts, o), AddedMounts(vmi, o));
  }

  lemma AddedAreBehind<T>(a: seq<T>, b: seq<T>)
    ensures (a + b)[|a|..] == b
  {
  }

  lemma DevicesComeFirst(r: PodSpec, vmi: Vmi, ts: seq<Template>, o: Options)
    ensures VolumesOf(DeviceAttachments(HostDevices(vmi))) <= AddedVolumes(r, vmi, ts, o)
    ensures MountsOf(DeviceAttachments(HostDevices(vmi))) <= AddedMounts(vmi, o)
  {
  }

  lemma HostVolumesAreDevices(devices: seq<Volume>, imports: seq<Volume>, rest: seq<Volume>, v: Volume)
    requires v in devices + imports + rest && v.source.HostPath?
    requires (forall w :: w in imports ==> w.source.Image?) && (forall w :: w in rest ==> !w.source.HostPath?)
    ensures v in devices
  {
  }

  lemma AddedHostVolume(r: PodSpec, vmi: Vmi, ts: seq<Template>, o: Options, v: Volume)
    requires v in AddedVolumes(r, vmi, ts, o) && v.source.HostPath?
    ensures v in VolumesOf(DeviceAttachments(HostDevices(vmi)))
  {
    var devices, imports := VolumesOf(DeviceAttachments(HostDevices(vmi))), ImportVolumes(vmi.volumes, ts, r.volumes);
    var rest := (if o.passtWorkarounds then VolumesOf([PASST_BIN]) else []) + StateVolumes(vmi);
    ImportsAreImages(vmi.volumes, ts, r.volumes);
    assert devices + imports + rest == AddedVolumes(r, vmi, ts, o);
    HostVolumesAreDevices(devices, imports, rest, v);
  }

  lemma DeviceVolumeIsNode(vmi: Vmi, v: Volume)
    requires v in VolumesOf(DeviceAttachments(HostDevices(vmi)))
    ensures v.source.HostPath? && IsNode(vmi, v.source.path)
  {
    var ds := HostDevices(vmi);
    var i :| 0 <= i < |ds| && VolumesOf(DeviceAttachments(ds))[i] == v;
    assert ds[i] in ds && DevicePath(ds[i]) == v.source.path;
    HostPaths(vmi, v.source.path);
  }

  // ... and nothing else of the host is: an added host-path volume is a node of the VM.
  lemma OnlyNodesAreMounted(r: PodSpec, vmi: Vmi, ts: seq<Template>, o: Options, v: Volume)
    requires HasCompute(r) && |r.volumes| <= |Adapted(r, vmi, ts, o).volumes|
    requires v in Adapted(r, vmi, ts, o).volumes[|r.volumes|..] && v.source.HostPath?
    ensures IsNode(vmi, v.source.path)
  {
    AdaptedShape(r, vmi, ts, o);
    AddedAreBehind(r.volumes, AddedVolumes(r, vmi, ts, o));
    AddedHostVolume(r, vmi, ts, o, v);
    DeviceVolumeIsNode(vmi, v);
  }
}
