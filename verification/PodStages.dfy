// AdaptForStandalone as code that rewrites a pod in place, stage by stage.
module PodStages {
  import opened Common
  import opened Mounts
  import opened PodModel

  class Pod {
    var volumes: seq<Volume>
    var inits: seq<Container>
    var containers: seq<Container>

    constructor (p: PodSpec)
      ensures Value() == p
    {
      volumes, inits, containers := p.volumes, p.inits, p.containers;
    }

    function Value(): PodSpec
      reads this
    {
      PodSpec(volumes, inits, containers)
    }

    // Append mounts to the compute container.
    method MountInCompute(ms: seq<Mount>)
      modifies this`containers
      ensures containers == WithMounts(old(containers), COMPUTE, ms)
    {
      for i := 0 to |containers|
        invariant containers == old(containers)
        invariant forall j :: 0 <= j < i ==> containers[j].name != COMPUTE
      {
        if containers[i].name == COMPUTE {
          NamedIs(containers, COMPUTE, i);
          containers := containers[i := containers[i].(mounts := containers[i].mounts + ms)];
          return;
        }
      }
      NamedIs(containers, COMPUTE, |containers|);
    }

    method FindPrivateVolumeName() returns (name: string)
      ensures name == PrivateVolumeName(containers)
    {
      for i := 0 to |containers|
        invariant PrivateVolumeName(containers) == PrivateVolumeName(containers[i..])
      {
        var c := containers[i];
        assert containers[i..][0] == c && containers[i..][1..] == containers[i + 1..];
        if c.name != COMPUTE {
          continue;
        }
        for j := 0 to |c.mounts|
          invariant forall k :: 0 <= k < j ==> c.mounts[k].path != PRIVATE
        {
          if c.mounts[j].path == PRIVATE {
            assert FirstMountAt(c.mounts, PRIVATE) == j;
            return c.mounts[j].name;
          }
        }
      }
      name := "";
    }

    method AddConsoleProxySidecar(o: Options)
      modifies this`containers
      ensures var volume := PrivateVolumeName(old(containers));
        containers == old(containers) + if volume == "" then [] else [ConsoleProxy(o, volume)]
    {
      var volume := FindPrivateVolumeName();
      if volume == "" {
        return;
      }
      containers := containers + [ConsoleProxy(o, volume)];
    }

    method InjectVncProxy(o: Options)
      modifies this`containers
      ensures var volume := PrivateVolumeName(old(containers));
        containers == old(containers) + if volume == "" then [] else [VncProxy(o, volume)]
    {
      var volume := FindPrivateVolumeName();
      if volume == "" {
        return;
      }
      containers := containers + [VncProxy(o, volume)];
    }

    method AddProxies(o: Options)
      modifies this`containers
      ensures Value() == WithProxies(old(Value()), o)
    {
      ghost var cs, volume := containers, PrivateVolumeName(containers);
      if o.addSerial {
        AddConsoleProxySidecar(o);
        if volume != "" {
          SameLookupBehind(cs, ConsoleProxy(o, volume));
        } else {
          assert containers == cs;
        }
      }
      ghost var console := if o.addSerial && volume != "" then [ConsoleProxy(o, volume)] else [];
      assert containers == cs + console && PrivateVolumeName(containers) == volume;
      if o.addVnc {
        InjectVncProxy(o);
      }
      ghost var vnc := if o.addVnc && volume != "" then [VncProxy(o, volume)] else [];
      assert containers == cs + console + vnc;
      assert cs + console + vnc == cs + (console + vnc);
    }

    method MountDevice(d: Device)
      modifies this`volumes, this`containers
      ensures Value() == Attached(old(Value()), DeviceAttachments([d]))
    {
      volumes := volumes + [Volume(DeviceName(d), HostPath(DevicePath(d)))];
      assert MountsOf(DeviceAttachments([d])) == [DeviceAttachment(d).mount];
      MountInCompute([DeviceAttachment(d).mount]);
    }

    method MountDevices(ds: seq<Device>)
      modifies this`volumes, this`containers
      ensures Value() == Attached(old(Value()), DeviceAttachments(ds))
    {
      AttachedNothing(Value());
      for i := 0 to |ds|
        invariant Value() == Attached(old(Value()), DeviceAttachments(ds[..i]))
      {
        AttachedTwice(old(Value()), DeviceAttachments(ds[..i]), DeviceAttachments([ds[i]]));
        assert DeviceAttachments(ds[..i + 1]) == DeviceAttachments(ds[..i]) + DeviceAttachments([ds[i]]);
        MountDevice(ds[i]);
      }
      assert ds[..|ds|] == ds;
    }

    method MountGpus(gpus: seq<string>)
      modifies this`volumes, this`containers
      ensures Value() == Attached(old(Value()), DeviceAttachments(AllGpuDevices(gpus)))
    {
      AttachedNothing(Value());
      for i := 0 to |gpus|
        invariant Value() == Attached(old(Value()), DeviceAttachments(AllGpuDevices(gpus[..i])))
      {
        var ds := GpuDevices(DetectGpuVendor(gpus[i]), i);
        assert gpus[..i + 1][..i] == gpus[..i];
        MountMore(old(Value()), AllGpuDevices(gpus[..i]), ds);
        MountDevices(ds);
      }
      assert gpus[..|gpus|] == gpus;
    }

    method MountHostDevices(vmi: Vmi)
      modifies this`volumes, this`containers
      ensures Value() == WithHostDevices(old(Value()), vmi)
    {
      ghost var base := [Kvm, Tun, VhostNet, Cgroup];
      MountDevices([Kvm, Tun, VhostNet, Cgroup]);
      MountMore(old(Value()), base, AllGpuDevices(vmi.gpus));
      MountGpus(vmi.gpus);
      MountMore(old(Value()), base + AllGpuDevices(vmi.gpus), VfioDevices(vmi));
      if vmi.hasHostDevices {
        MountDevices([Vfio] + GroupDevices(vmi.groups));
      } else {
        AttachedNothing(Value());
      }
    }

    // The template map: for each name the last template with storage.
    method TemplateMetas(ts: seq<Template>) returns (metas: map<string, DvMeta>)
      ensures forall name :: (if name in metas then Some(metas[name]) else None) == LookupMeta(ts, name)
    {
      metas := map[];
      for i := 0 to |ts|
        invariant forall name :: (if name in metas then Some(metas[name]) else None) == LookupMeta(ts[..i], name)
      {
        assert ts[..i + 1][..i] == ts[..i];
        if !ts[i].hasStorage {
          continue;
        }
        var size := 0;
        if ts[i].request.Some? {
          size := ts[i].request.value;
        }
        var url := "";
        if ts[i].registryUrl.Some? {
          url := ts[i].registryUrl.value;
        }
        metas := metas[ts[i].name := DvMeta(size, url)];
      }
      assert ts[..|ts|] == ts;
    }

    method FindClaimVolume(claim: string) returns (name: string)
      ensures name == ClaimVolume(volumes, claim)
    {
      for i := 0 to |volumes|
        invariant ClaimVolume(volumes, claim) == ClaimVolume(volumes[i..], claim)
      {
        assert volumes[i..][0] == volumes[i] && volumes[i..][1..] == volumes[i + 1..];
        if volumes[i].source == Claim(claim) {
          return volumes[i].name;
        }
      }
      name := "";
    }

    // The body of the DataVolume loop for one VMI volume; vs are the volumes before the loop.
    method ProvisionOne(
      v: VmiVolume, metas: map<string, DvMeta>, image: string, ghost ts: seq<Template>, ghost vs: seq<Volume>)
      returns (newInits: seq<Container>)
      requires forall name :: (if name in metas then Some(metas[name]) else None) == LookupMeta(ts, name)
      requires forall claim :: ClaimVolume(volumes, claim) == ClaimVolume(vs, claim)
      modifies this`volumes
      ensures volumes == old(volumes) +
        if Imported(v, ts, vs) then [ImportVolume(v, LookupMeta(ts, v.dataVolume.value).value)] else []
      ensures newInits == if NeedsDisk(v, ts, vs) then [InitFor(v, ts, vs, image)] else []
    {
      newInits := [];
      if v.dataVolume.None? {
        return;
      }
      assert LookupMeta(ts, v.dataVolume.value) ==
        if v.dataVolume.value in metas then Some(metas[v.dataVolume.value]) else None;
      if v.dataVolume.value !in metas || metas[v.dataVolume.value].size <= 0 {
        return;
      }
      var m := metas[v.dataVolume.value];
      var podVolume := FindClaimVolume(v.dataVolume.value);
      if podVolume == "" {
        return;
      }
      if m.url != "" {
        volumes := volumes + [ImportVolume(v, m)];
      }
      newInits := [ProvisionInit(v, m, podVolume, image)];
    }

    // Round i of the loop.
    method ProvisionAt(
      vols: seq<VmiVolume>, i: nat, metas: map<string, DvMeta>, image: string,
      ghost ts: seq<Template>, ghost vs: seq<Volume>)
      returns (newInits: seq<Container>)
      requires i < |vols| && volumes == vs + ImportVolumes(vols[..i], ts, vs)
      requires forall name :: (if name in metas then Some(metas[name]) else None) == LookupMeta(ts, name)
      modifies this`volumes
      ensures volumes == vs + ImportVolumes(vols[..i + 1], ts, vs)
      ensures DataVolumeInits(vols[..i + 1], ts, vs, image) == DataVolumeInits(vols[..i], ts, vs, image) + newInits
    {
      ImportsAreNoClaims(vols[..i], ts, vs);
      OneMoreVolume(vols, ts, vs, image, i);
      newInits := ProvisionOne(vols[i], metas, image, ts, vs);
    }

    method InjectDataVolumeInitContainers(vmi: Vmi, ts: seq<Template>, image: string)
      modifies this`volumes, this`inits
      ensures Value() == WithDataVolumes(old(Value()), vmi, ts, image)
    {
      ghost var vs := volumes;
      var metas := TemplateMetas(ts);
      var newInits: seq<Container> := [];
      for i := 0 to |vmi.volumes|
        invariant inits == old(inits)
        invariant volumes == vs + ImportVolumes(vmi.volumes[..i], ts, vs)
        invariant newInits == DataVolumeInits(vmi.volumes[..i], ts, vs, image)
      {
        var more := ProvisionAt(vmi.volumes, i, metas, image, ts, vs);
        newInits := newInits + more;
      }
      assert vmi.volumes[..|vmi.volumes|] == vmi.volumes;
      if |newInits| > 0 {
        inits := newInits + inits;
      }
    }

    method CleanupForStandalone()
      modifies this`inits, this`containers
      ensures Value() == Cleaned(old(Value()))
    {
      var keptInit: seq<Container> := [];
      for i := 0 to |inits|
        invariant inits == old(inits)
        invariant keptInit == Kept(inits[..i])
        invariant containers == old(containers) + Promoted(inits[..i])
      {
        assert inits[..i + 1][..i] == inits[..i];
        var c := inits[i];
        if c.restartPolicy == Some(ALWAYS) {
          containers := containers + [c.(restartPolicy := None)];
        } else {
          keptInit := keptInit + [c];
        }
      }
      assert inits[..|inits|] == inits;
      inits := keptInit;
    }

    method InjectVirtHandlerDirInit(image: string)
      modifies this`inits
      ensures Value() == WithDirInit(old(Value()), image)
    {
      var mounts: seq<Mount> := [];
      var cmds: seq<string> := [];
      for i := 0 to |volumes|
        invariant inits == old(inits)
        invariant mounts == DirMounts(PrivateVolumes(volumes[..i]))
        invariant cmds == DirCommands(PrivateVolumes(volumes[..i]))
      {
        var v := volumes[i];
        assert volumes[..i + 1][..i] == volumes[..i];
        if !v.source.EmptyDir? {
          continue;
        }
        if VolumeKey(v.name) != "private" {
          continue;
        }
        mounts := mounts + [Mount(v.name, ["emptydir", v.name], [], false)];
        cmds := cmds + [Mkdir("/emptydir/" + v.name + "/libvirt/qemu")];
      }
      assert volumes[..|volumes|] == volumes;
      if |cmds| == 0 {
        return;
      }
      inits := [Container(DIR_INIT, image, Bash(JoinAnd(cmds)), mounts, None)] + inits;
    }

    method InjectPasstBinaryPatcher(image: string)
      modifies this
      ensures Value() == WithPatcher(old(Value()), image)
    {
      volumes := volumes + [Volume("passt-bin", EmptyDir)];
      inits := inits + [PatcherInit(image)];
      assert MountsOf([PASST_BIN]) == [PASST_BIN.mount];
      MountInCompute([PASST_BIN.mount]);
    }

    method InjectPersistentStateVolumes(vmi: Vmi)
      modifies this
      ensures Value() == WithState(old(Value()), vmi)
    {
      volumes := volumes + StateVolumes(vmi);
      MountInCompute(STATE_MOUNTS);
      for i := 0 to |inits|
        invariant inits == old(inits)
        invariant forall j :: 0 <= j < i ==> inits[j].name != DIR_INIT
      {
        if inits[i].name != DIR_INIT {
          continue;
        }
        NamedIs(inits, DIR_INIT, i);
        inits := inits[i := WithStateDirs(inits[i])];
        return;
      }
      NamedIs(inits, DIR_INIT, |inits|);
    }

    // The whole of step 5, as far as volumes, mounts and containers go.
    method AdaptForStandalone(vmi: Vmi, ts: seq<Template>, o: Options)
      modifies this
      ensures Value() == Adapted(old(Value()), vmi, ts, o)
    {
      AddProxies(o);
      MountHostDevices(vmi);
      InjectDataVolumeInitContainers(vmi, ts, o.launcherImage);
      CleanupForStandalone();
      InjectVirtHandlerDirInit(o.launcherImage);
      if o.passtWorkarounds {
        InjectPasstBinaryPatcher(o.launcherImage);
      }
      InjectPersistentStateVolumes(vmi);
    }
  }

  lemma MountMore(p: PodSpec, a: seq<Device>, b: seq<Device>)
    ensures Attached(Attached(p, DeviceAttachments(a)), DeviceAttachments(b)) == Attached(p, DeviceAttachments(a + b))
  {
    AttachedTwice(p, DeviceAttachments(a), DeviceAttachments(b));
    assert DeviceAttachments(a + b) == DeviceAttachments(a) + DeviceAttachments(b);
  }

  // A proxy behind the other containers is not where the private volume is looked up.
  lemma {:induction false} SameLookupBehind(cs: seq<Container>, c: Container)
    requires c.name != COMPUTE
    ensures PrivateVolumeName(cs + [c]) == PrivateVolumeName(cs)
  {
    if cs == [] {
    } else {
      assert (cs + [c])[1..] == cs[1..] + [c];
      SameLookupBehind(cs[1..], c);
    }
  }

  lemma {:induction false} ClaimVolumeSkips(vs: seq<Volume>, more: seq<Volume>, claim: string)
    requires forall v :: v in more ==> v.source != Claim(claim)
    ensures ClaimVolume(vs + more, claim) == ClaimVolume(vs, claim)
    decreases |vs| + |more|
  {
    if vs == [] && more == [] {
    } else if vs == [] {
      assert vs + more == more;
      assert [] + more[1..] == more[1..];
      ClaimVolumeSkips([], more[1..], claim);
    } else {
      assert (vs + more)[1..] == vs[1..] + more;
      ClaimVolumeSkips(vs[1..], more, claim);
    }
  }

  lemma {:induction false} ImportsAreImages(vols: seq<VmiVolume>, ts: seq<Template>, vs: seq<Volume>)
    ensures forall v :: v in ImportVolumes(vols, ts, vs) ==> v.source.Image?
  {
    if vols == [] {
    } else {
      ImportsAreImages(vols[..|vols| - 1], ts, vs);
    }
  }

  // The image volumes appended on the way never change which volume a claim is found under.
  lemma ImportsAreNoClaims(vols: seq<VmiVolume>, ts: seq<Template>, vs: seq<Volume>)
    ensures forall claim :: ClaimVolume(vs + ImportVolumes(vols, ts, vs), claim) == ClaimVolume(vs, claim)
  {
    forall claim
      ensures ClaimVolume(vs + ImportVolumes(vols, ts, vs), claim) == ClaimVolume(vs, claim)
    {
      ImportsAreImages(vols, ts, vs);
      ClaimVolumeSkips(vs, ImportVolumes(vols, ts, vs), claim);
    }
  }

  // The pure maps over one more volume.
  lemma OneMoreVolume(vols: seq<VmiVolume>, ts: seq<Template>, vs: seq<Volume>, image: string, i: nat)
    requires i < |vols|
    ensures ImportVolumes(vols[..i + 1], ts, vs) == ImportVolumes(vols[..i], ts, vs) +
      if Imported(vols[i], ts, vs) then [ImportVolume(vols[i], LookupMeta(ts, vols[i].dataVolume.value).value)] else []
    ensures DataVolumeInits(vols[..i + 1], ts, vs, image) == DataVolumeInits(vols[..i], ts, vs, image) +
      if NeedsDisk(vols[i], ts, vs) then [InitFor(vols[i], ts, vs, image)] else []
  {
    assert vols[..i + 1][..i] == vols[..i] && Last(vols[..i + 1]) == vols[i];
  }
}
