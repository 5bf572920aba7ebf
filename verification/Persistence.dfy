// Where the paths of the compute container really end up.
module Persistence {
  import opened Common
  import opened Mounts
  import opened PodModel
  import opened PodShape
  import opened PodNames
  import opened PodWellFormed
  import opened PodGuarantees

  // Where the bytes of a file really are.
  datatype Backing =
    | Memory(volume: string)
    | Persistent(claim: string)
    | Host
    | ImageFs(reference: string)
    | Elsewhere(volume: string)

  datatype Location = Location(backing: Backing, path: Path)

  type Store = map<Location, Bytes>

  function RootOf(v: Volume): Location {
    match v.source
    case EmptyDir => Location(Memory(v.name), [])
    case Claim(c) => Location(Persistent(c), [])
    case HostPath(p) => Location(Host, p)
    case Image(ref) => Location(ImageFs(ref), [])
    case Other => Location(Elsewhere(v.name), [])
  }

  function Below(root: Location, path: Path): Location {
    root.(path := root.path + path)
  }

  function VolumeNamed(vs: seq<Volume>, name: string): Option<Volume> {
    if vs == [] then None else if vs[0].name == name then Some(vs[0]) else VolumeNamed(vs[1..], name)
  }

  // Where a path ends up for a container: the mount on top, its volume, and the rest of the path below it.
  function LocateIn(vs: seq<Volume>, ms: seq<Mount>, path: Path): Option<Location> {
    var i := LastCovering(ms, path);
    if i.None? then None
    else
      var m := ms[i.value];
      var v := VolumeNamed(vs, m.name);
      if v.None? then None else Some(Below(RootOf(v.value), m.subPath + path[|m.path|..]))
  }

  // For compute.
  function Locate(p: PodSpec, path: Path): Option<Location> {
    LocateIn(p.volumes, ComputeMounts(p), path)
  }

  // -------- where the paths of an adapted pod end up --------

  lemma {:induction false} VolumeNamedIs(vs: seq<Volume>, v: Volume)
    requires DistinctNames(vs) && v in vs
    ensures VolumeNamed(vs, v.name) == Some(v)
  {
    if vs[0] != v {
      var i :| 0 < i < |vs| && vs[i] == v;
      assert vs[1..][i - 1] == v;
      VolumeNamedIs(vs[1..], v);
    }
  }

  lemma {:induction false} LastCoveringConcat(a: seq<Mount>, b: seq<Mount>, path: Path)
    ensures LastCovering(a + b, path) ==
      if LastCovering(b, path).Some? then Some(|a| + LastCovering(b, path).value) else LastCovering(a, path)
  {
    if b == [] {
      assert a + b == a;
    } else {
      assert Last(a + b) == Last(b) && (a + b)[..|a + b| - 1] == a + b[..|b| - 1];
      LastCoveringConcat(a, b[..|b| - 1], path);
    }
  }

  // The three state directories.
  predicate Persisted(path: Path) {
    NVRAM <= path || SWTPM <= path || LOCALCA <= path
  }

  // The state mount on top of a path, if any.
  function StateMount(path: Path): Option<Mount> {
    if LOCALCA <= path then Some(STATE_MOUNTS[4])
    else if SWTPM <= path then Some(STATE_MOUNTS[3])
    else if NVRAM <= path then Some(STATE_MOUNTS[2])
    else if QEMU <= path then Some(STATE_MOUNTS[1])
    else if LIBVIRT <= path then Some(STATE_MOUNTS[0])
    else None
  }

  lemma {:induction false} StateMountIsLast(path: Path)
    ensures var r := LastCovering(STATE_MOUNTS, path);
      StateMount(path) == if r.Some? then Some(STATE_MOUNTS[r.value]) else None
  {
    assert STATE_MOUNTS[..4][..3] == STATE_MOUNTS[..3] && STATE_MOUNTS[..3][..2] == STATE_MOUNTS[..2];
    assert STATE_MOUNTS[..2][..1] == STATE_MOUNTS[..1] && STATE_MOUNTS[..1][..0] == [];
    assert LastCovering(STATE_MOUNTS[..1], path) == if LIBVIRT <= path then Some(0) else None;
    assert LastCovering(STATE_MOUNTS[..2], path) ==
      if QEMU <= path then Some(1) else LastCovering(STATE_MOUNTS[..1], path);
    assert LastCovering(STATE_MOUNTS[..3], path) ==
      if NVRAM <= path then Some(2) else LastCovering(STATE_MOUNTS[..2], path);
    assert LastCovering(STATE_MOUNTS[..4], path) ==
      if SWTPM <= path then Some(3) else LastCovering(STATE_MOUNTS[..3], path);
    assert LastCovering(STATE_MOUNTS, path) ==
      if LOCALCA <= path then Some(4) else LastCovering(STATE_MOUNTS[..4], path);
  }

  lemma {:induction false} VolumeNamedMore(vs: seq<Volume>, more: seq<Volume>, name: string)
    requires VolumeNamed(vs, name).Some?
    ensures VolumeNamed(vs + more, name) == VolumeNamed(vs, name)
  {
    assert (vs + more)[0] == vs[0] && (vs + more)[1..] == vs[1..] + more;
    if vs[0].name != name {
      VolumeNamedMore(vs[1..], more, name);
    }
  }

  lemma {:induction false} NotCovered(ms: seq<Mount>, path: Path)
    requires forall m :: m in ms ==> !Covers(m, path)
    ensures LastCovering(ms, path).None?
  {
  }

  function FrontMounts(vmi: Vmi, o: Options): seq<Mount> {
    MountsOf(DeviceAttachments(HostDevices(vmi))) + if o.passtWorkarounds then MountsOf([PASST_BIN]) else []
  }

  lemma FrontCoversNothing(vmi: Vmi, o: Options, path: Path)
    requires PRIVATE <= path
    ensures LastCovering(FrontMounts(vmi, o), path).None?
  {
    PasstMountIsApart(HostDevices(vmi), o.passtWorkarounds);
    assert path[0] == PRIVATE[0] == "var";
    NotCovered(FrontMounts(vmi, o), path);
  }

  // Under /var/run/kubevirt-private only the state mounts are new.
  lemma AddedCovering(vmi: Vmi, o: Options, path: Path)
    requires PRIVATE <= path
    ensures var r := LastCovering(AddedMounts(vmi, o), path);
      StateMount(path) == if r.Some? then Some(AddedMounts(vmi, o)[r.value]) else None
  {
    FrontCoversNothing(vmi, o, path);
    LastCoveringConcat(FrontMounts(vmi, o), STATE_MOUNTS, path);
    StateMountIsLast(path);
    assert AddedMounts(vmi, o) == FrontMounts(vmi, o) + STATE_MOUNTS;
  }

  ghost predicate Ready(r: PodSpec, vmi: Vmi, ts: seq<Template>, o: Options) {
    Rendered(r) && HasRoom(r, vmi, ts, o)
  }

  function StateBacking(m: Mount, vmi: Vmi): Backing {
    if m.name == VM_STATE then Persistent(StateClaim(vmi)) else Memory(m.name)
  }

  lemma StateVolumesByName(p: PodSpec, vs: seq<Volume>, vmi: Vmi)
    requires DistinctNames(p.volumes) && p.volumes == vs + StateVolumes(vmi)
    ensures forall m :: m in STATE_MOUNTS ==>
      var v := VolumeNamed(p.volumes, m.name);
      v.Some? && RootOf(v.value) == Location(StateBacking(m, vmi), [])
  {
    var added := StateVolumes(vmi);
    assert added[0] in p.volumes && added[1] in p.volumes && added[2] in p.volumes;
    VolumeNamedIs(p.volumes, added[0]);
    VolumeNamedIs(p.volumes, added[1]);
    VolumeNamedIs(p.volumes, added[2]);
    assert "private-libvirt"[0] != VM_STATE[0] && "private-libvirt-qemu"[0] != VM_STATE[0];
  }

  // The location that the state mount on top of a path gives it.
  function StateLocation(vmi: Vmi, path: Path): Location
    requires StateMount(path).Some?
  {
    var m := StateMount(path).value;
    Location(StateBacking(m, vmi), m.subPath + path[|m.path|..])
  }

  lemma TopMount(r: PodSpec, vmi: Vmi, ts: seq<Template>, o: Options, path: Path)
    requires HasCompute(r) && PRIVATE <= path && StateMount(path).Some?
    ensures var ms := ComputeMounts(Adapted(r, vmi, ts, o));
      LastCovering(ms, path).Some? && ms[LastCovering(ms, path).value] == StateMount(path).value
  {
    AdaptedComputeMounts(r, vmi, ts, o);
    AddedCovering(vmi, o, path);
    LastCoveringConcat(ComputeMounts(r), AddedMounts(vmi, o), path);
  }

  lemma StateVolumesOfAdapted(r: PodSpec, vmi: Vmi, ts: seq<Template>, o: Options)
    requires Ready(r, vmi, ts, o)
    ensures forall m :: m in STATE_MOUNTS ==>
      var v := VolumeNamed(Adapted(r, vmi, ts, o).volumes, m.name);
      v.Some? && RootOf(v.value) == Location(StateBacking(m, vmi), [])
  {
    var q := BeforeState(r, vmi, ts, o);
    AdaptedIsWellFormedIff(r, vmi, ts, o);
    StateVolumesByName(WithState(q, vmi), q.volumes, vmi);
  }

  // Seen from the pod alone: the mount on top of the path and the root of its volume say where the path
  // ends up.
  lemma LocateOnTop(p: PodSpec, path: Path, m: Mount, backing: Backing)
    requires var ms := ComputeMounts(p);
      LastCovering(ms, path).Some? && ms[LastCovering(ms, path).value] == m
    requires var v := VolumeNamed(p.volumes, m.name);
      v.Some? && RootOf(v.value) == Location(backing, [])
    ensures m.path <= path && Locate(p, path) == Some(Location(backing, m.subPath + path[|m.path|..]))
  {
    var sub := m.subPath + path[|m.path|..];
    assert [] + sub == sub;
  }

  lemma StateMountIsOne(path: Path)
    requires StateMount(path).Some?
    ensures StateMount(path).value in STATE_MOUNTS
  {
  }

  lemma LocateBelow(p: PodSpec, vmi: Vmi, path: Path, m: Mount)
    requires StateMount(path) == Some(m)
    requires var ms := ComputeMounts(p);
      LastCovering(ms, path).Some? && ms[LastCovering(ms, path).value] == m
    requires VolumeNamed(p.volumes, m.name).Some?
    requires RootOf(VolumeNamed(p.volumes, m.name).value) == Location(StateBacking(m, vmi), [])
    ensures Locate(p, path) == Some(StateLocation(vmi, path))
  {
    LocateOnTop(p, path, m, StateBacking(m, vmi));
  }

  // A path below one of the five state mounts is in vm-state or in memory, as that mount says.
  lemma LocateState(r: PodSpec, vmi: Vmi, ts: seq<Template>, o: Options, path: Path)
    requires Ready(r, vmi, ts, o) && PRIVATE <= path && StateMount(path).Some?
    ensures Locate(Adapted(r, vmi, ts, o), path) == Some(StateLocation(vmi, path))
  {
    TopMount(r, vmi, ts, o, path);
    StateVolumesOfAdapted(r, vmi, ts, o);
    StateMountIsOne(path);
    LocateBelow(Adapted(r, vmi, ts, o), vmi, path, StateMount(path).value);
  }

  // Every other path under /var/run/kubevirt-private is where the rendered pod had it.
  lemma LocateElsewhere(r: PodSpec, vmi: Vmi, ts: seq<Template>, o: Options, path: Path)
    requires Ready(r, vmi, ts, o) && PRIVATE <= path && StateMount(path).None?
    requires Locate(r, path).Some?
    ensures Locate(Adapted(r, vmi, ts, o), path) == Locate(r, path)
  {
    AdaptedShape(r, vmi, ts, o);
    AdaptedComputeMounts(r, vmi, ts, o);
    AddedCovering(vmi, o, path);
    LastCoveringConcat(ComputeMounts(r), AddedMounts(vmi, o), path);
    var m := ComputeMounts(r)[LastCovering(ComputeMounts(r), path).value];
    VolumeNamedMore(r.volumes, AddedVolumes(r, vmi, ts, o), m.name);
  }

  // The state directories are below the private directory, and what is in them is in vm-state; under
  // the other two state mounts it is in memory.
  lemma PersistedIsInVmState(vmi: Vmi, path: Path)
    ensures Persisted(path) ==> PRIVATE <= path && StateMount(path).Some?
    ensures StateMount(path).Some? ==> (Persisted(path) <==> StateMount(path).value.name == VM_STATE)
  {
    assert PRIVATE <= NVRAM && PRIVATE <= SWTPM && PRIVATE <= LOCALCA;
    assert "private-libvirt"[0] != VM_STATE[0] && "private-libvirt-qemu"[0] != VM_STATE[0];
  }

  lemma PersistedSubPath(path: Path)
    requires Persisted(path)
    ensures StateMount(path).Some?
    ensures var m := StateMount(path).value;
      && m.path == (if m.subPath == ["nvram"] then NVRAM else if m.subPath == ["swtpm"] then SWTPM else LOCALCA)
      && m.subPath in {["nvram"], ["swtpm"], ["swtpm-localca"]} && m.path <= path
  {
    assert ["nvram"][0] != ["swtpm"][0] && ["nvram"][0] != ["swtpm-localca"][0] && ["swtpm"][0] != ["swtpm-localca"][0];
  }

  lemma StatePathsAreDistinct(vmi: Vmi, path: Path, other: Path)
    requires Persisted(path) && Persisted(other)
    requires StateMount(path).Some? && StateMount(other).Some? && StateLocation(vmi, path) == StateLocation(vmi, other)
    ensures path == other
  {
    PersistedSubPath(path);
    PersistedSubPath(other);
    var m, n := StateMount(path).value, StateMount(other).value;
    var tail, tail' := path[|m.path|..], other[|n.path|..];
    assert m.subPath == (m.subPath + tail)[..1] && n.subPath == (n.subPath + tail')[..1];
    assert tail == (m.subPath + tail)[1..] && tail' == (n.subPath + tail')[1..];
    assert path == m.path + tail && other == n.path + tail';
  }

  // No two paths in the state directories share a location.
  lemma PersistedLocationsAreDistinct(r: PodSpec, vmi: Vmi, ts: seq<Template>, o: Options, path: Path, other: Path)
    requires Ready(r, vmi, ts, o) && Persisted(path) && Persisted(other)
    requires Locate(Adapted(r, vmi, ts, o), path) == Locate(Adapted(r, vmi, ts, o), other)
    ensures path == other
  {
    PersistedIsInVmState(vmi, path);
    PersistedIsInVmState(vmi, other);
    LocateState(r, vmi, ts, o, path);
    LocateState(r, vmi, ts, o, other);
    StatePathsAreDistinct(vmi, path, other);
  }
}
