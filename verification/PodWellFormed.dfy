// Well-formed pods: distinct volume names, every mount backed by a declared volume, distinct mount
// points in the compute container.  Every stage keeps pods well-formed.
module PodWellFormed {
  import opened Common
  import opened Mounts
  import opened PodModel
  import opened PodStages
  import opened PodNames
  import opened PodShape

  ghost predicate DistinctNames(vs: seq<Volume>) {
    forall i, j :: 0 <= i < j < |vs| ==> vs[i].name != vs[j].name
  }

  ghost predicate Declared(vs: seq<Volume>, name: string) {
    exists v :: v in vs && v.name == name
  }

  ghost predicate MountsDeclared(vs: seq<Volume>, c: Container) {
    forall m :: m in c.mounts ==> Declared(vs, m.name)
  }

  ghost predicate AllDeclared(vs: seq<Volume>, cs: seq<Container>) {
    forall c :: c in cs ==> MountsDeclared(vs, c)
  }

  ghost predicate WellFormed(p: PodSpec) {
    && DistinctNames(p.volumes)
    && AllDeclared(p.volumes, p.inits)
    && AllDeclared(p.volumes, p.containers)
    && DistinctPaths(ComputeMounts(p))
  }

  // New volumes do not repeat a name, neither among themselves nor of the pod.
  ghost predicate FreshNames(p: PodSpec, added: seq<Volume>) {
    DistinctNames(added) && forall v, w :: v in p.volumes && w in added ==> v.name != w.name
  }

  ghost predicate FreshPaths(p: PodSpec, ms: seq<Mount>) {
    DistinctPaths(ms) && forall m, n :: m in ComputeMounts(p) && n in ms ==> m.path != n.path
  }

  // -------- declarations only grow --------

  lemma DeclaredMore(vs: seq<Volume>, more: seq<Volume>, cs: seq<Container>)
    requires AllDeclared(vs, cs)
    ensures AllDeclared(vs + more, cs)
  {
    forall c, m | c in cs && m in c.mounts
      ensures Declared(vs + more, m.name)
    {
      assert MountsDeclared(vs, c);
      var v :| v in vs && v.name == m.name;
      assert v in vs + more;
    }
  }

  lemma AllDeclaredConcat(vs: seq<Volume>, a: seq<Container>, b: seq<Container>)
    requires AllDeclared(vs, a) && AllDeclared(vs, b)
    ensures AllDeclared(vs, a + b)
  {
  }

  lemma DistinctNamesConcat(p: PodSpec, added: seq<Volume>)
    requires DistinctNames(p.volumes) && FreshNames(p, added)
    ensures DistinctNames(p.volumes + added)
  {
  }

  lemma WithMountsDeclared(vs: seq<Volume>, cs: seq<Container>, name: string, ms: seq<Mount>)
    requires AllDeclared(vs, cs)
    requires forall m :: m in ms ==> Declared(vs, m.name)
    ensures AllDeclared(vs, WithMounts(cs, name, ms))
  {
    var i := Named(cs, name);
    if i < |cs| {
      assert MountsDeclared(vs, cs[i]);
      var r := WithMounts(cs, name, ms);
      forall c | c in r
        ensures MountsDeclared(vs, c)
      {
        var k :| 0 <= k < |r| && r[k] == c;
        assert cs[k] in cs;
      }
    }
  }

  // -------- every stage keeps the pod well-formed --------

  lemma {:induction false} PrivateVolumeIsMounted(cs: seq<Container>)
    requires PrivateVolumeName(cs) != ""
    ensures exists c, m :: c in cs && m in c.mounts && m.name == PrivateVolumeName(cs)
  {
    var ms := cs[0].mounts;
    if cs[0].name == COMPUTE && FirstMountAt(ms, PRIVATE) < |ms| {
      assert ms[FirstMountAt(ms, PRIVATE)] in ms;
    } else {
      PrivateVolumeIsMounted(cs[1..]);
      var c, m :| c in cs[1..] && m in c.mounts && m.name == PrivateVolumeName(cs[1..]);
      assert c in cs;
    }
  }

  lemma ProxiesKeepWellFormed(p: PodSpec, o: Options)
    requires WellFormed(p) && HasCompute(p)
    ensures WellFormed(WithProxies(p, o))
    ensures ComputeMounts(WithProxies(p, o)) == ComputeMounts(p) && HasCompute(WithProxies(p, o))
  {
    var proxies := Proxies(p, o);
    if proxies != [] {
      PrivateVolumeIsMounted(p.containers);
      var c, m :| c in p.containers && m in c.mounts && m.name == PrivateVolumeName(p.containers);
      assert MountsDeclared(p.volumes, c);
    }
    assert AllDeclared(p.volumes, proxies);
    AllDeclaredConcat(p.volumes, p.containers, proxies);
    NamedIs(p.containers + proxies, COMPUTE, Named(p.containers, COMPUTE));
  }

  lemma AttachKeepsWellFormed(p: PodSpec, attachments: seq<Attachment>)
    requires WellFormed(p) && HasCompute(p)
    requires FreshNames(p, VolumesOf(attachments)) && FreshPaths(p, MountsOf(attachments))
    ensures WellFormed(Attached(p, attachments))
    ensures ComputeMounts(Attached(p, attachments)) == ComputeMounts(p) + MountsOf(attachments)
    ensures HasCompute(Attached(p, attachments))
  {
    var added, ms := VolumesOf(attachments), MountsOf(attachments);
    var vs := p.volumes + added;
    DistinctNamesConcat(p, added);
    DeclaredMore(p.volumes, added, p.inits);
    DeclaredMore(p.volumes, added, p.containers);
    forall m | m in ms
      ensures Declared(vs, m.name)
    {
      var i :| 0 <= i < |ms| && ms[i] == m;
      assert added[i] in vs && added[i].name == m.name;
    }
    WithMountsDeclared(vs, p.containers, COMPUTE, ms);
    WithMountsTwice(p.containers, COMPUTE, ms, []);
    DistinctConcat(ComputeMounts(p), ms);
  }

  lemma {:induction false} ClaimVolumeIsDeclared(vs: seq<Volume>, claim: string)
    requires ClaimVolume(vs, claim) != ""
    ensures Declared(vs, ClaimVolume(vs, claim))
  {
    if vs[0].source == Claim(claim) {
      assert vs[0] in vs;
    } else {
      ClaimVolumeIsDeclared(vs[1..], claim);
      var v :| v in vs[1..] && v.name == ClaimVolume(vs[1..], claim);
      assert v in vs;
    }
  }

  lemma {:induction false} DataVolumeMountsDeclared(
    vols: seq<VmiVolume>, ts: seq<Template>, vs: seq<Volume>, image: string)
    ensures AllDeclared(vs + ImportVolumes(vols, ts, vs), DataVolumeInits(vols, ts, vs, image))
  {
    if vols == [] {
    } else {
      var front, v := vols[..|vols| - 1], Last(vols);
      var before, after := vs + ImportVolumes(front, ts, vs), vs + ImportVolumes(vols, ts, vs);
      DataVolumeMountsDeclared(front, ts, vs, image);
      var more := ImportVolumes(vols, ts, vs)[|ImportVolumes(front, ts, vs)|..];
      assert after == before + more;
      DeclaredMore(before, more, DataVolumeInits(front, ts, vs, image));
      if NeedsDisk(v, ts, vs) {
        OneInitDeclared(v, ts, vs, image, after);
      }
    }
  }

  lemma OneInitDeclared(v: VmiVolume, ts: seq<Template>, vs: seq<Volume>, image: string, all: seq<Volume>)
    requires NeedsDisk(v, ts, vs) && vs <= all
    requires Imported(v, ts, vs) ==> ImportVolume(v, LookupMeta(ts, v.dataVolume.value).value) in all
    ensures MountsDeclared(all, InitFor(v, ts, vs, image))
  {
    ClaimVolumeIsDeclared(vs, v.dataVolume.value);
    var w :| w in vs && w.name == ClaimVolume(vs, v.dataVolume.value);
    assert w in all;
    if Imported(v, ts, vs) {
      assert ImportVolume(v, LookupMeta(ts, v.dataVolume.value).value).name == ImportVolumeName(v);
    }
  }

  lemma DataVolumesKeepWellFormed(p: PodSpec, vmi: Vmi, ts: seq<Template>, image: string)
    requires WellFormed(p)
    requires FreshNames(p, ImportVolumes(vmi.volumes, ts, p.volumes))
    ensures WellFormed(WithDataVolumes(p, vmi, ts, image))
  {
    var added := ImportVolumes(vmi.volumes, ts, p.volumes);
    DistinctNamesConcat(p, added);
    DeclaredMore(p.volumes, added, p.inits);
    DeclaredMore(p.volumes, added, p.containers);
    DataVolumeMountsDeclared(vmi.volumes, ts, p.volumes, image);
    AllDeclaredConcat(p.volumes + added, DataVolumeInits(vmi.volumes, ts, p.volumes, image), p.inits);
  }

  lemma CleanupKeepsWellFormed(p: PodSpec)
    requires WellFormed(p) && HasCompute(p)
    ensures WellFormed(Cleaned(p))
    ensures ComputeMounts(Cleaned(p)) == ComputeMounts(p) && HasCompute(Cleaned(p))
  {
    KeptAreNoSidecars(p.inits);
    PartitionIsExact(p.inits);
    var promoted, sidecars := Promoted(p.inits), Sidecars(p.inits);
    forall c | c in promoted
      ensures MountsDeclared(p.volumes, c)
    {
      var i :| 0 <= i < |promoted| && promoted[i] == c;
      assert sidecars[i] in p.inits && c.mounts == sidecars[i].mounts;
      assert MountsDeclared(p.volumes, sidecars[i]);
    }
    AllDeclaredConcat(p.volumes, p.containers, promoted);
    NamedIs(p.containers + promoted, COMPUTE, Named(p.containers, COMPUTE));
  }

  lemma {:induction false} PrivateVolumesAreVolumes(vs: seq<Volume>)
    ensures forall v :: v in PrivateVolumes(vs) ==> v in vs
  {
    if vs == [] {
    } else {
      PrivateVolumesAreVolumes(vs[..|vs| - 1]);
    }
  }

  lemma DirInitKeepsWellFormed(p: PodSpec, image: string)
    requires WellFormed(p)
    ensures WellFormed(WithDirInit(p, image))
  {
    var vs := PrivateVolumes(p.volumes);
    PrivateVolumesAreVolumes(p.volumes);
    var c := DirInit(vs, image);
    forall m | m in c.mounts
      ensures Declared(p.volumes, m.name)
    {
      var i :| 0 <= i < |vs| && DirMounts(vs)[i] == m;
      assert vs[i] in vs && vs[i] in p.volumes;
    }
    AllDeclaredConcat(p.volumes, [c], p.inits);
  }

  lemma PatcherKeepsWellFormed(p: PodSpec, image: string)
    requires WellFormed(p) && HasCompute(p)
    requires FreshNames(p, VolumesOf([PASST_BIN])) && FreshPaths(p, MountsOf([PASST_BIN]))
    ensures WellFormed(WithPatcher(p, image))
    ensures ComputeMounts(WithPatcher(p, image)) == ComputeMounts(p) + MountsOf([PASST_BIN])
    ensures HasCompute(WithPatcher(p, image))
  {
    AttachKeepsWellFormed(p, [PASST_BIN]);
    var q := Attached(p, [PASST_BIN]);
    assert q.volumes[|p.volumes|] == Volume("passt-bin", EmptyDir);
    assert Volume("passt-bin", EmptyDir) in q.volumes;
    assert MountsDeclared(q.volumes, PatcherInit(image));
    AllDeclaredConcat(q.volumes, q.inits, [PatcherInit(image)]);
  }

  lemma StateMountsDeclared(vs: seq<Volume>, vmi: Vmi)
    ensures forall m :: m in STATE_MOUNTS + [STATE_INIT_MOUNT] ==> Declared(vs + StateVolumes(vmi), m.name)
  {
    var all, added := vs + StateVolumes(vmi), StateVolumes(vmi);
    assert added[0] in all && added[1] in all && added[2] in all;
    assert Declared(all, VM_STATE) && Declared(all, "private-libvirt") && Declared(all, "private-libvirt-qemu");
  }

  lemma StateInitDeclared(vs: seq<Volume>, cs: seq<Container>)
    requires AllDeclared(vs, cs) && Declared(vs, STATE_INIT_MOUNT.name)
    ensures AllDeclared(vs, WithStateInit(cs))
  {
    var i, r := Named(cs, DIR_INIT), WithStateInit(cs);
    if i < |cs| {
      assert cs[i] in cs && MountsDeclared(vs, cs[i]);
      forall c | c in r
        ensures MountsDeclared(vs, c)
      {
        var k :| 0 <= k < |r| && r[k] == c;
        assert cs[k] in cs;
      }
    }
  }

  lemma StateKeepsWellFormed(p: PodSpec, vmi: Vmi)
    requires WellFormed(p) && HasCompute(p)
    requires FreshNames(p, StateVolumes(vmi)) && FreshPaths(p, STATE_MOUNTS)
    ensures WellFormed(WithState(p, vmi))
    ensures ComputeMounts(WithState(p, vmi)) == ComputeMounts(p) + STATE_MOUNTS
  {
    var vs := p.volumes + StateVolumes(vmi);
    DistinctNamesConcat(p, StateVolumes(vmi));
    DeclaredMore(p.volumes, StateVolumes(vmi), p.inits);
    DeclaredMore(p.volumes, StateVolumes(vmi), p.containers);
    StateMountsDeclared(p.volumes, vmi);
    assert forall m :: m in STATE_MOUNTS ==> m in STATE_MOUNTS + [STATE_INIT_MOUNT];
    assert STATE_INIT_MOUNT in STATE_MOUNTS + [STATE_INIT_MOUNT];
    WithMountsDeclared(vs, p.containers, COMPUTE, STATE_MOUNTS);
    StateInitDeclared(vs, p.inits);
    WithMountsTwice(p.containers, COMPUTE, STATE_MOUNTS, []);
    DistinctConcat(ComputeMounts(p), STATE_MOUNTS);
  }
}
