// Restarting the adapted pod: who may write where, and which of compute's files survive.
module Survival {
  import opened Common
  import opened Mounts
  import opened PodModel
  import opened PodStages
  import opened PodNames
  import opened PodShape
  import opened PodWellFormed
  import opened PodGuarantees
  import opened PodDataVolumes
  import opened DirScript
  import opened Persistence

  // -------- who may write where --------

  // The init containers, and every container but compute.
  ghost predicate IsOther(p: PodSpec, c: Container) {
    || c in p.inits
    || exists k :: 0 <= k < |p.containers| && k != Named(p.containers, COMPUTE) && p.containers[k] == c
  }

  // DISK and TMP in the directory dir, seen through mount m whose files lie below top.
  predicate IsDiskFile(dir: Path, m: Mount, top: Location, l: Location) {
    m.path <= dir &&
    (l == Below(top, dir[|m.path|..] + ["disk.img"]) || l == Below(top, dir[|m.path|..] + ["disk.img.partial"]))
  }

  // Through mount m of a volume with that root the container may write or remove the file at l: a script
  // that only makes directories touches no file, the disk scripts touch their two files, and any other
  // program may do what it likes.
  predicate MayWrite(c: Container, m: Mount, root: Location, l: Location) {
    var top := Below(root, m.subPath);
    && !m.readOnly && top.backing == l.backing && top.path <= l.path
    && match c.program
       case Argv(_) => !MakesOnlyDirs(c.program)
       case ImportDisk(dir, _, _) => IsDiskFile(dir, m, top, l)
       case InitDisk(dir, _) => IsDiskFile(dir, m, top, l)
       case PatchPasst => true
  }

  ghost predicate MayTouch(p: PodSpec, c: Container, l: Location) {
    exists m :: m in c.mounts && VolumeNamed(p.volumes, m.name).Some?
      && MayWrite(c, m, RootOf(VolumeNamed(p.volumes, m.name).value), l)
  }

  // No container but compute may touch the file at l.
  ghost predicate Shielded(p: PodSpec, l: Location) {
    forall c :: IsOther(p, c) ==> !MayTouch(p, c, l)
  }

  // -------- histories --------

  // A restart empties every emptyDir; the other containers write and remove files they may touch;
  // compute writes files.
  datatype Event = Restart | Others(written: Store, removed: set<Location>) | Write(path: Path, data: Bytes)

  ghost predicate IsEvent(p: PodSpec, e: Event) {
    e.Others? ==> forall l :: l in e.written.Keys + e.removed ==> !Shielded(p, l)
  }

  function Apply(p: PodSpec, s: Store, e: Event): Store {
    match e
    case Restart => map l | l in s && !l.backing.Memory? :: s[l]
    case Others(written, removed) => (s - removed) + written
    case Write(path, data) =>
      var l := Locate(p, path);
      if l.Some? then s[l.value := data] else s
  }

  function ApplyAll(p: PodSpec, s: Store, es: seq<Event>): Store
    decreases |es|
  {
    if es == [] then s else ApplyAll(p, Apply(p, s, es[0]), es[1..])
  }

  // A history in which compute does not write the file at l again.
  ghost predicate LeavesAlone(p: PodSpec, es: seq<Event>, l: Location) {
    forall e :: e in es ==> IsEvent(p, e) && (e.Write? ==> Locate(p, e.path) != Some(l))
  }

  lemma {:induction false} KeptInStore(p: PodSpec, s: Store, es: seq<Event>, l: Location)
    requires l in s && !l.backing.Memory? && Shielded(p, l)
    requires LeavesAlone(p, es, l)
    ensures l in ApplyAll(p, s, es) && ApplyAll(p, s, es)[l] == s[l]
    decreases |es|
  {
    if es == [] {
    } else {
      assert es[0] in es;
      KeptInStore(p, Apply(p, s, es[0]), es[1..], l);
    }
  }

  // What compute writes at the path is still there after every such history.
  ghost predicate Survives(p: PodSpec, path: Path) {
    forall s: Store, data: Bytes, es: seq<Event> ::
      Locate(p, path).Some? && LeavesAlone(p, es, Locate(p, path).value) ==>
        var l, s' := Locate(p, path).value, ApplyAll(p, s, [Write(path, data)] + es);
        l in s' && s'[l] == data
  }

  // One event right after the write that loses the file.
  lemma LostAtOnce(p: PodSpec, path: Path, e: Event)
    requires Locate(p, path).Some? && IsEvent(p, e) && !e.Write?
    requires var l := Locate(p, path).value; l !in Apply(p, map[l := []], e)
    ensures !Survives(p, path)
  {
    var l, es, s := Locate(p, path).value, [e], map[];
    assert LeavesAlone(p, es, l);
    var all := [Write(path, [])] + es;
    assert all[1..] == es && es[1..] == [];
    assert Apply(p, s, all[0]) == map[l := []];
    assert ApplyAll(p, s, all) == ApplyAll(p, map[l := []], es) == ApplyAll(p, Apply(p, map[l := []], e), []);
    assert l !in ApplyAll(p, s, [Write(path, [])] + es);
  }

  // A file survives exactly when it is not in memory and no other container may touch it.
  lemma SurvivesIff(p: PodSpec, path: Path)
    requires Locate(p, path).Some?
    ensures var l := Locate(p, path).value;
      Survives(p, path) <==> !l.backing.Memory? && Shielded(p, l)
  {
    var l := Locate(p, path).value;
    if l.backing.Memory? {
      LostAtOnce(p, path, Restart);
    } else if !Shielded(p, l) {
      LostAtOnce(p, path, Others(map[], {l}));
    } else {
      forall s: Store, data: Bytes, es: seq<Event> | LeavesAlone(p, es, l)
        ensures var s' := ApplyAll(p, s, [Write(path, data)] + es);
          l in s' && s'[l] == data
      {
        assert ([Write(path, data)] + es)[1..] == es;
        KeptInStore(p, s[l := data], es, l);
      }
    }
  }

  // -------- who mounts the vm-state volume --------

  lemma AddedAreNoClaims(r: PodSpec, vmi: Vmi, ts: seq<Template>, o: Options)
    ensures forall v :: v in AddedVolumes(r, vmi, ts, o) && v.source.Claim? ==> v.name == VM_STATE
  {
    ImportsAreImages(vmi.volumes, ts, r.volumes);
  }

  lemma {:induction false} VolumeNamedIsOne(vs: seq<Volume>, name: string)
    requires VolumeNamed(vs, name).Some?
    ensures var v := VolumeNamed(vs, name).value; v in vs && v.name == name
  {
    if vs[0].name == name {
    } else {
      VolumeNamedIsOne(vs[1..], name);
    }
  }

  // No rendered volume is the claim of the vm-state volume.
  ghost predicate StateIsNotRendered(r: PodSpec, vmi: Vmi) {
    forall v :: v in r.volumes ==> v.source != Claim(StateClaim(vmi))
  }

  lemma ClaimIsVmState(rendered: seq<Volume>, added: seq<Volume>, claim: string, name: string)
    requires forall v :: v in rendered ==> v.source != Claim(claim)
    requires forall v :: v in added && v.source.Claim? ==> v.name == VM_STATE
    requires var v := VolumeNamed(rendered + added, name);
      v.Some? && RootOf(v.value).backing == Persistent(claim)
    ensures name == VM_STATE
  {
    VolumeNamedIsOne(rendered + added, name);
  }

  lemma StateClaimIsVmState(r: PodSpec, vmi: Vmi, ts: seq<Template>, o: Options, name: string)
    requires HasCompute(r) && StateIsNotRendered(r, vmi)
    requires var v := VolumeNamed(Adapted(r, vmi, ts, o).volumes, name);
      v.Some? && RootOf(v.value).backing == Persistent(StateClaim(vmi))
    ensures name == VM_STATE
  {
    AdaptedShape(r, vmi, ts, o);
    AddedAreNoClaims(r, vmi, ts, o);
    ClaimIsVmState(r.volumes, AddedVolumes(r, vmi, ts, o), StateClaim(vmi), name);
  }

  lemma NotMountedBefore(q: PodSpec, vmi: Vmi, c: Container)
    requires AllDeclared(q.volumes, [c]) && FreshNames(q, StateVolumes(vmi))
    ensures forall m :: m in c.mounts ==> m.name != VM_STATE
  {
    assert c in [c] && StateVolumes(vmi)[0] in StateVolumes(vmi);
    forall m | m in c.mounts
      ensures m.name != VM_STATE
    {
      var v :| v in q.volumes && v.name == m.name;
    }
  }

  // Besides compute only the container that the state stage extends mounts vm-state.
  lemma OnlyDirInitMounts(q: PodSpec, vmi: Vmi, c: Container, m: Mount)
    requires AllDeclared(q.volumes, q.inits) && AllDeclared(q.volumes, q.containers) && FreshNames(q, StateVolumes(vmi))
    requires IsOther(WithState(q, vmi), c) && m in c.mounts && m.name == VM_STATE
    ensures var i := Named(q.inits, DIR_INIT);
      i < |q.inits| && c == WithStateDirs(q.inits[i]) && m == STATE_INIT_MOUNT
  {
    var p, i := WithState(q, vmi), Named(q.inits, DIR_INIT);
    if c in p.inits && c !in q.inits {
      assert q.inits[i] in q.inits;
      NotMountedBefore(q, vmi, q.inits[i]);
    } else {
      if c !in q.inits {
        OtherContainersStay(q, vmi, c);
      }
      NotMountedBefore(q, vmi, c);
    }
  }

  lemma OtherContainersStay(q: PodSpec, vmi: Vmi, c: Container)
    requires IsOther(WithState(q, vmi), c) && c !in WithState(q, vmi).inits
    ensures c in q.containers
  {
    var p := WithState(q, vmi);
    var k :| 0 <= k < |p.containers| && k != Named(p.containers, COMPUTE) && p.containers[k] == c;
    WithMountsTwice(q.containers, COMPUTE, STATE_MOUNTS, []);
    assert p.containers[k] == q.containers[k];
  }

  lemma BeforeStateIsReady(r: PodSpec, vmi: Vmi, ts: seq<Template>, o: Options)
    requires Ready(r, vmi, ts, o)
    ensures var q := BeforeState(r, vmi, ts, o);
      WellFormed(q) && FreshNames(q, StateVolumes(vmi)) && q.inits == InitOrder(r, vmi, ts, o)
  {
    var all, paths := r.volumes + AddedVolumes(r, vmi, ts, o), ComputeMounts(r) + AddedMounts(vmi, o);
    AllNamesAreDistinct(r, vmi, ts, o);
    AllPathsAreDistinct(r, vmi, ts, o);
    BeforeStateStep(r, vmi, ts, o, all, paths);
    StretchIsFresh(BeforeState(r, vmi, ts, o), StateVolumes(vmi), STATE_MOUNTS, all, paths);
    BeforeStateInits(r, vmi, ts, o);
  }

  // -------- the state directories are shielded --------

  // The embedded disk and patch scripts come from the adaptation only.
  ghost predicate RendersCommands(r: PodSpec) {
    forall c :: c in r.inits ==> c.program.Argv?
  }

  // The first init container with the directory container's name, if any, only makes directories.
  predicate DirInitIsTame(r: PodSpec, vmi: Vmi, ts: seq<Template>, o: Options) {
    var order := InitOrder(r, vmi, ts, o);
    var i := Named(order, DIR_INIT);
    i < |order| ==> MakesOnlyDirs(order[i].program)
  }

  // In particular when the emitted container is the first, or no kept init container has the name.
  lemma DirInitIsTameIf(r: PodSpec, vmi: Vmi, ts: seq<Template>, o: Options)
    requires forall v :: v in r.volumes ==> IsPlain(v.name)
    requires PrivateVolumes(r.volumes) != [] || forall c :: c in Kept(r.inits) ==> c.name != DIR_INIT
    ensures DirInitIsTame(r, vmi, ts, o)
  {
    var vs, order := PrivateVolumes(r.volumes), InitOrder(r, vmi, ts, o);
    if vs != [] {
      PrivateVolumesAreVolumes(r.volumes);
      DirInitMakesOnlyDirs(vs, o.launcherImage);
      assert order[0] == DirInit(vs, o.launcherImage);
      NamedIs(order, DIR_INIT, 0);
    } else {
      DirInitIsRendered(r, vmi, ts, o);
    }
  }

  // What carries the name is the emitted container or a rendered one.
  lemma DirInitIsRendered(r: PodSpec, vmi: Vmi, ts: seq<Template>, o: Options)
    ensures forall c :: c in InitOrder(r, vmi, ts, o) && c.name == DIR_INIT ==>
      c in FirstInits(r, o.launcherImage) || c in Kept(r.inits)
  {
    DataVolumeInitsAreKept(vmi.volumes, ts, r.volumes, o.launcherImage);
    LastInitsMakeNoDirs(o);
  }

  lemma DirInitRunsCommand(r: PodSpec, vmi: Vmi, ts: seq<Template>, o: Options)
    requires RendersCommands(r)
    ensures forall c :: c in InitOrder(r, vmi, ts, o) && c.name == DIR_INIT ==> c.program.Argv?
  {
    DirInitIsRendered(r, vmi, ts, o);
    KeptAreNoSidecars(r.inits);
  }

  // The extended container may touch a file of the claim unless it only makes directories.
  lemma ExtendedTouches(p: PodSpec, c: Container, claim: string, path: Path)
    requires c.program.Argv? && WithStateDirs(c) in p.inits
    requires var v := VolumeNamed(p.volumes, VM_STATE); v.Some? && RootOf(v.value) == Location(Persistent(claim), [])
    ensures MayTouch(p, WithStateDirs(c), Location(Persistent(claim), path)) <== !MakesOnlyDirs(c.program)
  {
    StateDirsOnlyIff(c);
    var d := WithStateDirs(c);
    assert d.program.Argv?;
    assert d.mounts[|c.mounts|] == STATE_INIT_MOUNT;
    assert STATE_INIT_MOUNT in d.mounts;
  }

  lemma NvramMount(vmi: Vmi)
    ensures STATE_MOUNTS[2] in STATE_MOUNTS && STATE_MOUNTS[2].name == VM_STATE
    ensures StateBacking(STATE_MOUNTS[2], vmi) == Persistent(StateClaim(vmi))
  {
  }

  lemma VmStateRoot(r: PodSpec, vmi: Vmi, ts: seq<Template>, o: Options)
    requires Ready(r, vmi, ts, o)
    ensures var v := VolumeNamed(Adapted(r, vmi, ts, o).volumes, VM_STATE);
      v.Some? && RootOf(v.value) == Location(Persistent(StateClaim(vmi)), [])
  {
    StateVolumesOfAdapted(r, vmi, ts, o);
    NvramMount(vmi);
  }

  // Nobody but compute may touch the claim's files exactly when that container is tame.
  lemma StateIsShieldedIff(r: PodSpec, vmi: Vmi, ts: seq<Template>, o: Options, path: Path)
    requires Ready(r, vmi, ts, o) && StateIsNotRendered(r, vmi) && RendersCommands(r)
    ensures Shielded(Adapted(r, vmi, ts, o), Location(Persistent(StateClaim(vmi)), path)) <==>
      DirInitIsTame(r, vmi, ts, o)
  {
    if DirInitIsTame(r, vmi, ts, o) {
      forall c | IsOther(Adapted(r, vmi, ts, o), c)
        ensures !MayTouch(Adapted(r, vmi, ts, o), c, Location(Persistent(StateClaim(vmi)), path))
      {
        TameTouchesNothing(r, vmi, ts, o, c, Location(Persistent(StateClaim(vmi)), path));
      }
    } else {
      WildTouchesAll(r, vmi, ts, o, path);
    }
  }

  lemma WildTouchesAll(r: PodSpec, vmi: Vmi, ts: seq<Template>, o: Options, path: Path)
    requires Ready(r, vmi, ts, o) && RendersCommands(r) && !DirInitIsTame(r, vmi, ts, o)
    ensures !Shielded(Adapted(r, vmi, ts, o), Location(Persistent(StateClaim(vmi)), path))
  {
    var p, q := Adapted(r, vmi, ts, o), BeforeState(r, vmi, ts, o);
    BeforeStateIsReady(r, vmi, ts, o);
    DirInitRunsCommand(r, vmi, ts, o);
    VmStateRoot(r, vmi, ts, o);
    var i := Named(q.inits, DIR_INIT);
    assert q.inits[i] in q.inits && p.inits[i] == WithStateDirs(q.inits[i]);
    ExtendedTouches(p, q.inits[i], StateClaim(vmi), path);
  }

  lemma TameTouchesNothing(r: PodSpec, vmi: Vmi, ts: seq<Template>, o: Options, c: Container, l: Location)
    requires Ready(r, vmi, ts, o) && StateIsNotRendered(r, vmi) && RendersCommands(r) && DirInitIsTame(r, vmi, ts, o)
    requires IsOther(Adapted(r, vmi, ts, o), c) && l.backing == Persistent(StateClaim(vmi))
    ensures !MayTouch(Adapted(r, vmi, ts, o), c, l)
  {
    var p, q := Adapted(r, vmi, ts, o), BeforeState(r, vmi, ts, o);
    if MayTouch(p, c, l) {
      var m :| m in c.mounts && VolumeNamed(p.volumes, m.name).Some?
        && MayWrite(c, m, RootOf(VolumeNamed(p.volumes, m.name).value), l);
      StateClaimIsVmState(r, vmi, ts, o, m.name);
      BeforeStateIsReady(r, vmi, ts, o);
      OnlyDirInitMounts(q, vmi, c, m);
      StateDirsOnlyIff(q.inits[Named(q.inits, DIR_INIT)]);
    }
  }

  // -------- what survives --------

  // Of the paths that the rendered pod keeps in memory, exactly those in the three state directories
  // survive every history, provided the container that also mounts vm-state only makes directories.
  lemma SurvivesIffPersisted(r: PodSpec, vmi: Vmi, ts: seq<Template>, o: Options, path: Path)
    requires Ready(r, vmi, ts, o) && StateIsNotRendered(r, vmi) && RendersCommands(r)
    requires PRIVATE <= path && Locate(r, path).Some? && Locate(r, path).value.backing.Memory?
    ensures Survives(Adapted(r, vmi, ts, o), path) <==> Persisted(path) && DirInitIsTame(r, vmi, ts, o)
  {
    PersistedIsInVmState(vmi, path);
    if StateMount(path).Some? {
      LocateState(r, vmi, ts, o, path);
      if Persisted(path) {
        StateIsShieldedIff(r, vmi, ts, o, StateLocation(vmi, path).path);
      }
    } else {
      LocateElsewhere(r, vmi, ts, o, path);
    }
    SurvivesIff(Adapted(r, vmi, ts, o), path);
  }

  // -------- pods that meet the hypotheses --------

  // A compute container whose private directory is that emptyDir, or a sub-path of it.
  function SmallPod(volume: string, sub: Path, inits: seq<Container>): PodSpec {
    PodSpec([Volume(volume, EmptyDir)], inits,
            [Container(COMPUTE, "virt-launcher", Argv([]), [Mount(volume, PRIVATE, sub, false)], None)])
  }

  const SMALL_VMI := Vmi("vm", [], [], false, [])

  lemma SmallMounts(o: Options)
    ensures forall m :: m in AddedMounts(SMALL_VMI, o) ==> !(m.path <= PRIVATE)
  {
    PasstMountIsApart(HostDevices(SMALL_VMI), o.passtWorkarounds);
    StateMountsAreInVar();
    forall m | m in AddedMounts(SMALL_VMI, o)
      ensures !(m.path <= PRIVATE)
    {
      if m in FrontMounts(SMALL_VMI, o) {
        assert |m.path| > 0 && m.path[0] != PRIVATE[0];
      } else {
        assert m in STATE_MOUNTS;
      }
    }
  }

  lemma SmallPodMounts(volume: string, sub: Path, inits: seq<Container>)
    ensures ComputeMounts(SmallPod(volume, sub, inits)) == [Mount(volume, PRIVATE, sub, false)]
    ensures HasCompute(SmallPod(volume, sub, inits)) && Volume(volume, EmptyDir) in SmallPod(volume, sub, inits).volumes
  {
    var p := SmallPod(volume, sub, inits);
    assert p.containers[0].name == COMPUTE && p.volumes[0] == Volume(volume, EmptyDir);
  }

  lemma SmallPodIsRendered(volume: string, sub: Path, inits: seq<Container>)
    requires forall c :: c in inits ==> c.mounts == [] && c.program.Argv?
    ensures var p := SmallPod(volume, sub, inits);
      Rendered(p) && StateIsNotRendered(p, SMALL_VMI) && RendersCommands(p)
  {
    SmallPodMounts(volume, sub, inits);
  }

  lemma SmallPodIsReady(volume: string, sub: Path, inits: seq<Container>, o: Options)
    requires forall n :: NameOf(n) != volume
    requires forall c :: c in inits ==> c.mounts == [] && c.program.Argv?
    ensures Ready(SmallPod(volume, sub, inits), SMALL_VMI, [], o)
    ensures Ordered(ComputeMounts(SmallPod(volume, sub, inits)))
    ensures ClearOfAdded(SmallPod(volume, sub, inits), SMALL_VMI, o)
  {
    var p := SmallPod(volume, sub, inits);
    SmallPodIsRendered(volume, sub, inits);
    SmallPodMounts(volume, sub, inits);
    SmallMounts(o);
    OtherNamesAreFree(p, SMALL_VMI, [], o);
    assert ImportedVolumes([], [], p.volumes) == [];
  }

  lemma SmallLocation(volume: string, sub: Path, inits: seq<Container>, path: Path)
    requires PRIVATE <= path
    ensures Locate(SmallPod(volume, sub, inits), path).Some?
    ensures Locate(SmallPod(volume, sub, inits), path).value.backing == Memory(volume)
  {
    SmallPodMounts(volume, sub, inits);
    assert Covers(ComputeMounts(SmallPod(volume, sub, inits))[0], path);
  }

  // The hypotheses are met by the pod of a plain VM under all options.
  const PLAIN_POD := SmallPod("private", [], [])

  lemma PrivateIsNotInjected()
    ensures forall n :: NameOf(n) != "private"
  {
    forall n
      ensures NameOf(n) != "private"
    {
      FamilyIs(n);
      assert Family("private") == 12;
      assert |"private-libvirt-qemu"| != |"private"|;
    }
  }

  lemma PlainPodIsTame(o: Options)
    ensures DirInitIsTame(PLAIN_POD, SMALL_VMI, [], o)
  {
    DirInitIsTameIf(PLAIN_POD, SMALL_VMI, [], o);
  }

  lemma PlainPodIsReady(o: Options)
    ensures Ready(PLAIN_POD, SMALL_VMI, [], o) && StateIsNotRendered(PLAIN_POD, SMALL_VMI) && RendersCommands(PLAIN_POD)
    ensures Ordered(ComputeMounts(PLAIN_POD)) && ClearOfAdded(PLAIN_POD, SMALL_VMI, o)
    ensures DirInitIsTame(PLAIN_POD, SMALL_VMI, [], o)
  {
    PrivateIsNotInjected();
    SmallPodIsRendered("private", [], []);
    SmallPodIsReady("private", [], [], o);
    PlainPodIsTame(o);
  }

  // There the UEFI variables survive restarts and the console sockets do not.
  lemma PlainPodRestarts(o: Options)
    ensures Survives(Adapted(PLAIN_POD, SMALL_VMI, [], o), NVRAM + ["vm_VARS.fd"])
    ensures !Survives(Adapted(PLAIN_POD, SMALL_VMI, [], o), PRIVATE + ["default", "virt-serial0"])
  {
    var saved, socket := NVRAM + ["vm_VARS.fd"], PRIVATE + ["default", "virt-serial0"];
    PlainPodIsReady(o);
    SmallLocation("private", [], [], saved);
    SmallLocation("private", [], [], socket);
    PlainPaths();
    SurvivesIffPersisted(PLAIN_POD, SMALL_VMI, [], o, saved);
    SurvivesIffPersisted(PLAIN_POD, SMALL_VMI, [], o, socket);
  }

  lemma PlainPaths()
    ensures PRIVATE <= NVRAM + ["vm_VARS.fd"]
    ensures Persisted(NVRAM + ["vm_VARS.fd"]) && !Persisted(PRIVATE + ["default", "virt-serial0"])
  {
    var socket := PRIVATE + ["default", "virt-serial0"];
    assert socket[3] == "default" && NVRAM[3] == "libvirt" && SWTPM[3] == "libvirt" && LOCALCA[3] == "var";
  }

  // A pod whose private volume has another name gets no directory container; if it brings an init container
  // of that name, the state stage gives that one the claim, and the UEFI variables are at its mercy.
  const FOREIGN_POD := SmallPod("socket", [], [Container(DIR_INIT, "image", Argv(["/entrypoint"]), [], None)])

  lemma SocketIsNotInjected()
    ensures forall n :: NameOf(n) != "socket"
  {
    forall n
      ensures NameOf(n) != "socket"
    {
      FamilyIs(n);
      assert Family("socket") == 99;
    }
  }

  lemma ForeignDirInit(o: Options)
    ensures !DirInitIsTame(FOREIGN_POD, SMALL_VMI, [], o)
  {
    var c := FOREIGN_POD.inits[0];
    assert VolumeKey("socket") == "socket";
    assert PrivateVolumes(FOREIGN_POD.volumes) == [];
    assert Kept(FOREIGN_POD.inits) == [c];
    assert InitOrder(FOREIGN_POD, SMALL_VMI, [], o)[0] == c;
    NamedIs(InitOrder(FOREIGN_POD, SMALL_VMI, [], o), DIR_INIT, 0);
  }

  lemma ForeignPodIsReady(o: Options)
    ensures Ready(FOREIGN_POD, SMALL_VMI, [], o)
    ensures StateIsNotRendered(FOREIGN_POD, SMALL_VMI) && RendersCommands(FOREIGN_POD)
  {
    SocketIsNotInjected();
    SmallPodIsRendered("socket", [], FOREIGN_POD.inits);
    SmallPodIsReady("socket", [], FOREIGN_POD.inits, o);
  }

  lemma ForeignPodRestarts(o: Options)
    ensures Ready(FOREIGN_POD, SMALL_VMI, [], o)
    ensures StateIsNotRendered(FOREIGN_POD, SMALL_VMI) && RendersCommands(FOREIGN_POD)
    ensures Persisted(NVRAM + ["vm_VARS.fd"])
    ensures !Survives(Adapted(FOREIGN_POD, SMALL_VMI, [], o), NVRAM + ["vm_VARS.fd"])
  {
    var saved := NVRAM + ["vm_VARS.fd"];
    ForeignPodIsReady(o);
    SmallLocation("socket", [], FOREIGN_POD.inits, saved);
    PlainPaths();
    ForeignDirInit(o);
    SurvivesIffPersisted(FOREIGN_POD, SMALL_VMI, [], o, saved);
  }
}
