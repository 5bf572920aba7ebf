// The adapted pod in closed form: what is in it, where it came from, and in which order.
module PodShape {
  import opened Common
  import opened Mounts
  import opened PodModel
  import opened PodStages

  predicate HasCompute(p: PodSpec) {
    Named(p.containers, COMPUTE) < |p.containers|
  }

  function ComputeMounts(p: PodSpec): seq<Mount> {
    var i := Named(p.containers, COMPUTE);
    if i < |p.containers| then p.containers[i].mounts else []
  }

  // -------- the partition of the init containers --------

  function Sidecars(cs: seq<Container>): seq<Container> {
    if cs == [] then [] else Sidecars(cs[..|cs| - 1]) + if IsAlways(Last(cs)) then [Last(cs)] else []
  }

  function Cleared(cs: seq<Container>): (r: seq<Container>)
    ensures |r| == |cs|
  {
    seq(|cs|, i requires 0 <= i < |cs| => cs[i].(restartPolicy := None))
  }

  lemma PartitionStep(cs: seq<Container>)
    requires cs != []
    ensures var front, last := cs[..|cs| - 1], Last(cs);
      && cs == front + [last]
      && Kept(cs) == Kept(front) + (if IsAlways(last) then [] else [last])
      && Sidecars(cs) == Sidecars(front) + (if IsAlways(last) then [last] else [])
      && Promoted(cs) == Promoted(front) + (if IsAlways(last) then [last.(restartPolicy := None)] else [])
  {
  }

  lemma {:induction false} PromotedAreCleared(cs: seq<Container>)
    ensures Promoted(cs) == Cleared(Sidecars(cs))
  {
    if cs == [] {
    } else {
      PartitionStep(cs);
      PromotedAreCleared(cs[..|cs| - 1]);
      ClearedConcat(Sidecars(cs[..|cs| - 1]), Last(cs));
    }
  }

  // Every init container is either kept or promoted with its restart policy cleared; none is lost or
  // duplicated.
  lemma {:induction false} PartitionIsExact(cs: seq<Container>)
    ensures multiset(Kept(cs)) + multiset(Sidecars(cs)) == multiset(cs)
    ensures Promoted(cs) == Cleared(Sidecars(cs))
  {
    PromotedAreCleared(cs);
    if cs == [] {
    } else {
      var front, last := cs[..|cs| - 1], Last(cs);
      PartitionStep(cs);
      PartitionIsExact(front);
      OneMore(Kept(front), Sidecars(front), front, last);
      OneMore(Sidecars(front), Kept(front), front, last);
    }
  }

  lemma OneMore<T>(a: seq<T>, b: seq<T>, all: seq<T>, x: T)
    requires multiset(a) + multiset(b) == multiset(all)
    ensures multiset(a) + multiset(b + [x]) == multiset(all + [x])
  {
  }

  lemma ClearedConcat(cs: seq<Container>, c: Container)
    ensures Cleared(cs + [c]) == Cleared(cs) + [c.(restartPolicy := None)]
  {
  }

  lemma {:induction false} KeptAreNoSidecars(cs: seq<Container>)
    ensures forall c :: c in Kept(cs) ==> c.restartPolicy != Some("Always") && c in cs
    ensures forall c :: c in Sidecars(cs) ==> c.restartPolicy == Some("Always") && c in cs
  {
    if cs == [] {
    } else {
      KeptAreNoSidecars(cs[..|cs| - 1]);
    }
  }

  // The positions of the kept ones, and of the sidecars.
  function KeptAt(cs: seq<Container>): (r: seq<nat>)
    ensures forall i :: 0 <= i < |r| ==> r[i] < |cs|
  {
    if cs == [] then [] else KeptAt(cs[..|cs| - 1]) + if IsAlways(Last(cs)) then [] else [|cs| - 1]
  }

  function SidecarsAt(cs: seq<Container>): (r: seq<nat>)
    ensures forall i :: 0 <= i < |r| ==> r[i] < |cs|
  {
    if cs == [] then [] else SidecarsAt(cs[..|cs| - 1]) + if IsAlways(Last(cs)) then [|cs| - 1] else []
  }

  ghost predicate Picks(cs: seq<Container>, at: seq<nat>, picked: seq<Container>) {
    && |picked| == |at|
    && (forall i :: 0 <= i < |at| ==> at[i] < |cs| && picked[i] == cs[at[i]])
    && forall i, j :: 0 <= i < j < |at| ==> at[i] < at[j]
  }

  lemma PicksMore(cs: seq<Container>, at: seq<nat>, picked: seq<Container>, c: Container)
    requires Picks(cs, at, picked)
    ensures Picks(cs + [c], at, picked) && Picks(cs + [c], at + [|cs|], picked + [c])
  {
  }

  lemma {:induction false} PositionsByPolicy(cs: seq<Container>)
    ensures forall k :: 0 <= k < |cs| ==>
      (k in SidecarsAt(cs) <==> cs[k].restartPolicy == Some("Always")) && (k in KeptAt(cs) <==> k !in SidecarsAt(cs))
  {
    if cs == [] {
    } else {
      PositionsByPolicy(cs[..|cs| - 1]);
    }
  }

  lemma {:induction false} PositionsPick(cs: seq<Container>)
    ensures Picks(cs, KeptAt(cs), Kept(cs)) && Picks(cs, SidecarsAt(cs), Sidecars(cs))
  {
    if cs == [] {
    } else {
      var front, last := cs[..|cs| - 1], Last(cs);
      PositionsPick(front);
      PartitionStep(cs);
      PicksMore(front, KeptAt(front), Kept(front), last);
      PicksMore(front, SidecarsAt(front), Sidecars(front), last);
    }
  }

  // Both parts keep the order; a container is a sidecar exactly when its policy is Always.
  lemma PartitionKeepsOrder(cs: seq<Container>)
    ensures Picks(cs, KeptAt(cs), Kept(cs)) && Picks(cs, SidecarsAt(cs), Sidecars(cs))
    ensures forall k :: 0 <= k < |cs| ==>
      (k in SidecarsAt(cs) <==> cs[k].restartPolicy == Some("Always")) && (k in KeptAt(cs) <==> k !in SidecarsAt(cs))
  {
    PositionsByPolicy(cs);
    PositionsPick(cs);
  }

  lemma {:induction false} PartitionConcat(a: seq<Container>, b: seq<Container>)
    ensures Kept(a + b) == Kept(a) + Kept(b) && Promoted(a + b) == Promoted(a) + Promoted(b)
  {
    if b == [] {
      assert a + b == a;
    } else {
      assert (a + b)[..|a + b| - 1] == a + b[..|b| - 1];
      PartitionConcat(a, b[..|b| - 1]);
    }
  }

  lemma {:induction false} AllKept(cs: seq<Container>)
    requires forall c :: c in cs ==> !IsAlways(c)
    ensures Kept(cs) == cs && Promoted(cs) == []
  {
    if cs == [] {
    } else {
      assert Last(cs) in cs;
      PartitionStep(cs);
      AllKept(cs[..|cs| - 1]);
    }
  }

  lemma {:induction false} DataVolumeInitsAreKept(
    vols: seq<VmiVolume>, ts: seq<Template>, vs: seq<Volume>, image: string)
    ensures forall c :: c in DataVolumeInits(vols, ts, vs, image) ==> c.restartPolicy.None? && c.name != DIR_INIT
  {
    if vols == [] {
    } else {
      DataVolumeInitsAreKept(vols[..|vols| - 1], ts, vs, image);
      var v := Last(vols);
      if NeedsDisk(v, ts, vs) {
        assert InitFor(v, ts, vs, image).name[0] == 'i';
      }
    }
  }

  // -------- lookups are not disturbed by what earlier stages append --------

  lemma DevicesAreNoClaims(vs: seq<Volume>, ds: seq<Device>, claim: string)
    ensures ClaimVolume(vs + VolumesOf(DeviceAttachments(ds)), claim) == ClaimVolume(vs, claim)
  {
    ClaimVolumeSkips(vs, VolumesOf(DeviceAttachments(ds)), claim);
  }

  lemma {:induction false} SameDataVolumes(
    vols: seq<VmiVolume>, ts: seq<Template>, vs: seq<Volume>, ws: seq<Volume>, image: string)
    requires forall claim :: ClaimVolume(ws, claim) == ClaimVolume(vs, claim)
    ensures DataVolumeInits(vols, ts, ws, image) == DataVolumeInits(vols, ts, vs, image)
    ensures ImportVolumes(vols, ts, ws) == ImportVolumes(vols, ts, vs)
  {
    if vols == [] {
    } else {
      SameDataVolumes(vols[..|vols| - 1], ts, vs, ws, image);
    }
  }

  lemma {:induction false} PrivateVolumesConcat(a: seq<Volume>, b: seq<Volume>)
    ensures PrivateVolumes(a + b) == PrivateVolumes(a) + PrivateVolumes(b)
  {
    if b == [] {
      assert a + b == a;
    } else {
      assert (a + b)[..|a + b| - 1] == a + b[..|b| - 1];
      PrivateVolumesConcat(a, b[..|b| - 1]);
    }
  }

  lemma {:induction false} NoPrivateVolumes(vs: seq<Volume>)
    requires forall v :: v in vs ==> !v.source.EmptyDir?
    ensures PrivateVolumes(vs) == []
  {
    if vs == [] {
    } else {
      assert Last(vs) in vs;
      NoPrivateVolumes(vs[..|vs| - 1]);
    }
  }

  lemma MountsBehind(cs: seq<Container>, more: seq<Container>, name: string, ms: seq<Mount>)
    requires Named(cs, name) < |cs|
    ensures Named(cs + more, name) == Named(cs, name)
    ensures WithMounts(cs + more, name, ms) == WithMounts(cs, name, ms) + more
  {
    NamedIs(cs + more, name, Named(cs, name));
  }

  // -------- the adapted pod --------

  function AddedVolumes(r: PodSpec, vmi: Vmi, ts: seq<Template>, o: Options): seq<Volume> {
    VolumesOf(DeviceAttachments(HostDevices(vmi)))
    + ImportVolumes(vmi.volumes, ts, r.volumes)
    + (if o.passtWorkarounds then VolumesOf([PASST_BIN]) else [])
    + StateVolumes(vmi)
  }

  function AddedMounts(vmi: Vmi, o: Options): seq<Mount> {
    MountsOf(DeviceAttachments(HostDevices(vmi)))
    + (if o.passtWorkarounds then MountsOf([PASST_BIN]) else [])
    + STATE_MOUNTS
  }

  function FirstInits(r: PodSpec, image: string): seq<Container> {
    var vs := PrivateVolumes(r.volumes);
    if vs == [] then [] else [DirInit(vs, image)]
  }

  function LastInits(o: Options): seq<Container> {
    if o.passtWorkarounds then [PatcherInit(o.launcherImage)] else []
  }

  // The init containers, before the directory container learns about vm-state.
  function InitOrder(r: PodSpec, vmi: Vmi, ts: seq<Template>, o: Options): seq<Container> {
    FirstInits(r, o.launcherImage)
    + DataVolumeInits(vmi.volumes, ts, r.volumes, o.launcherImage)
    + Kept(r.inits)
    + LastInits(o)
  }

  lemma DevicesStage(r: PodSpec, vmi: Vmi, o: Options)
    requires HasCompute(r)
    ensures WithHostDevices(WithProxies(r, o), vmi) == PodSpec(
      r.volumes + VolumesOf(DeviceAttachments(HostDevices(vmi))),
      r.inits,
      WithMounts(r.containers, COMPUTE, MountsOf(DeviceAttachments(HostDevices(vmi)))) + Proxies(r, o))
  {
    MountsBehind(r.containers, Proxies(r, o), COMPUTE, MountsOf(DeviceAttachments(HostDevices(vmi))));
  }

  lemma DataVolumesStage(r: PodSpec, vmi: Vmi, ts: seq<Template>, image: string, p: PodSpec, ds: seq<Device>)
    requires p.volumes == r.volumes + VolumesOf(DeviceAttachments(ds)) && p.inits == r.inits
    ensures Cleaned(WithDataVolumes(p, vmi, ts, image)) == PodSpec(
      p.volumes + ImportVolumes(vmi.volumes, ts, r.volumes),
      DataVolumeInits(vmi.volumes, ts, r.volumes, image) + Kept(r.inits),
      p.containers + Promoted(r.inits))
  {
    forall claim
      ensures ClaimVolume(p.volumes, claim) == ClaimVolume(r.volumes, claim)
    {
      DevicesAreNoClaims(r.volumes, ds, claim);
    }
    SameDataVolumes(vmi.volumes, ts, r.volumes, p.volumes, image);
    var dv := DataVolumeInits(vmi.volumes, ts, r.volumes, image);
    DataVolumeInitsAreKept(vmi.volumes, ts, r.volumes, image);
    AllKept(dv);
    PartitionConcat(dv, r.inits);
    assert [] + Promoted(r.inits) == Promoted(r.inits);
  }

  lemma DirInitStage(r: PodSpec, p: PodSpec, ds: seq<Device>, vols: seq<VmiVolume>, ts: seq<Template>, image: string)
    requires p.volumes == r.volumes + VolumesOf(DeviceAttachments(ds)) + ImportVolumes(vols, ts, r.volumes)
    ensures WithDirInit(p, image) == p.(inits := FirstInits(r, image) + p.inits)
  {
    PrivateVolumesConcat(r.volumes + VolumesOf(DeviceAttachments(ds)), ImportVolumes(vols, ts, r.volumes));
    PrivateVolumesConcat(r.volumes, VolumesOf(DeviceAttachments(ds)));
    NoPrivateVolumes(VolumesOf(DeviceAttachments(ds)));
    ImportsAreImages(vols, ts, r.volumes);
    NoPrivateVolumes(ImportVolumes(vols, ts, r.volumes));
    var private := PrivateVolumes(r.volumes);
    assert private + [] + [] == private;
    assert [] + p.inits == p.inits;
  }

  lemma CleanedShape(r: PodSpec, vmi: Vmi, ts: seq<Template>, o: Options)
    requires HasCompute(r)
    ensures Cleaned(WithDataVolumes(WithHostDevices(WithProxies(r, o), vmi), vmi, ts, o.launcherImage)) == PodSpec(
      r.volumes + VolumesOf(DeviceAttachments(HostDevices(vmi))) + ImportVolumes(vmi.volumes, ts, r.volumes),
      DataVolumeInits(vmi.volumes, ts, r.volumes, o.launcherImage) + Kept(r.inits),
      WithMounts(r.containers, COMPUTE, MountsOf(DeviceAttachments(HostDevices(vmi))))
        + Proxies(r, o) + Promoted(r.inits))
  {
    DevicesStage(r, vmi, o);
    DataVolumesStage(r, vmi, ts, o.launcherImage, WithHostDevices(WithProxies(r, o), vmi), HostDevices(vmi));
  }

  // The pod up to the directory stage.
  lemma MiddleShape(r: PodSpec, vmi: Vmi, ts: seq<Template>, o: Options)
    requires HasCompute(r)
    ensures var devices := WithHostDevices(WithProxies(r, o), vmi);
      WithDirInit(Cleaned(WithDataVolumes(devices, vmi, ts, o.launcherImage)), o.launcherImage) == PodSpec(
        r.volumes + VolumesOf(DeviceAttachments(HostDevices(vmi))) + ImportVolumes(vmi.volumes, ts, r.volumes),
        FirstInits(r, o.launcherImage) + (DataVolumeInits(vmi.volumes, ts, r.volumes, o.launcherImage) + Kept(r.inits)),
        WithMounts(r.containers, COMPUTE, MountsOf(DeviceAttachments(HostDevices(vmi))))
          + (Proxies(r, o) + Promoted(r.inits)))
  {
    CleanedShape(r, vmi, ts, o);
    var cleaned := Cleaned(WithDataVolumes(WithHostDevices(WithProxies(r, o), vmi), vmi, ts, o.launcherImage));
    DirInitStage(r, cleaned, HostDevices(vmi), vmi.volumes, ts, o.launcherImage);
    Regroup([], WithMounts(r.containers, COMPUTE, MountsOf(DeviceAttachments(HostDevices(vmi)))),
            Proxies(r, o), Promoted(r.inits), []);
  }

  lemma MountsOnTop(cs: seq<Container>, more: seq<Container>, a: seq<Mount>, b: seq<Mount>)
    requires Named(cs, COMPUTE) < |cs|
    ensures WithMounts(WithMounts(cs, COMPUTE, a) + more, COMPUTE, b) == WithMounts(cs, COMPUTE, a + b) + more
  {
    WithMountsTwice(cs, COMPUTE, a, b);
    MountsBehind(WithMounts(cs, COMPUTE, a), more, COMPUTE, b);
  }

  // The last two stages, on a pod whose containers have the shape reached so far.
  lemma FinalStages(p: PodSpec, vmi: Vmi, image: string, cs: seq<Container>, ms: seq<Mount>, more: seq<Container>)
    requires Named(cs, COMPUTE) < |cs| && p.containers == WithMounts(cs, COMPUTE, ms) + more
    ensures WithState(p, vmi) == PodSpec(
      p.volumes + StateVolumes(vmi), WithStateInit(p.inits), WithMounts(cs, COMPUTE, ms + STATE_MOUNTS) + more)
    ensures WithState(WithPatcher(p, image), vmi) == PodSpec(
      p.volumes + VolumesOf([PASST_BIN]) + StateVolumes(vmi),
      WithStateInit(p.inits + [PatcherInit(image)]),
      WithMounts(cs, COMPUTE, ms + MountsOf([PASST_BIN]) + STATE_MOUNTS) + more)
  {
    MountsOnTop(cs, more, ms, STATE_MOUNTS);
    MountsOnTop(cs, more, ms, MountsOf([PASST_BIN]));
    MountsOnTop(cs, more, ms + MountsOf([PASST_BIN]), STATE_MOUNTS);
  }

  // The whole adaptation in closed form.  Volumes only grow.  Only the compute container changes
  // its mounts; behind the rendered containers come the proxies, then the promoted sidecars in order.
  lemma AdaptedShape(r: PodSpec, vmi: Vmi, ts: seq<Template>, o: Options)
    requires HasCompute(r)
    ensures var p := Adapted(r, vmi, ts, o);
      && p.volumes == r.volumes + AddedVolumes(r, vmi, ts, o)
      && p.inits == WithStateInit(InitOrder(r, vmi, ts, o))
      && p.containers == WithMounts(r.containers, COMPUTE, AddedMounts(vmi, o)) + (Proxies(r, o) + Promoted(r.inits))
  {
    MiddleShape(r, vmi, ts, o);
    var devices := WithHostDevices(WithProxies(r, o), vmi);
    var clean := WithDirInit(Cleaned(WithDataVolumes(devices, vmi, ts, o.launcherImage)), o.launcherImage);
    var ms := MountsOf(DeviceAttachments(HostDevices(vmi)));
    FinalStages(clean, vmi, o.launcherImage, r.containers, ms, Proxies(r, o) + Promoted(r.inits));
    var passt := if o.passtWorkarounds then [PASST_BIN] else [];
    Regroup(r.volumes, VolumesOf(DeviceAttachments(HostDevices(vmi))), ImportVolumes(vmi.volumes, ts, r.volumes),
            VolumesOf(passt), StateVolumes(vmi));
    Regroup([], FirstInits(r, o.launcherImage), DataVolumeInits(vmi.volumes, ts, r.volumes, o.launcherImage),
            Kept(r.inits), LastInits(o));
    assert ms + [] == ms;
  }

  lemma BeforeStateInits(r: PodSpec, vmi: Vmi, ts: seq<Template>, o: Options)
    requires HasCompute(r)
    ensures BeforeState(r, vmi, ts, o).inits == InitOrder(r, vmi, ts, o)
  {
    MiddleShape(r, vmi, ts, o);
    Regroup([], FirstInits(r, o.launcherImage), DataVolumeInits(vmi.volumes, ts, r.volumes, o.launcherImage),
            Kept(r.inits), LastInits(o));
  }

  lemma Regroup<T>(a: seq<T>, b: seq<T>, c: seq<T>, d: seq<T>, e: seq<T>)
    ensures a + b + c + d + e == a + (b + c + d + e)
    ensures d == [] ==> a + b + c + e == a + (b + c + d + e)
    ensures b + (c + d) + e == b + c + d + e
    ensures e == [] ==> b + (c + d) == b + c + d + e
  {
  }

  // -------- order of the init containers --------

  // Everything is exactly as listed, but for the first container with the directory container's name,
  // which also prepares vm-state.  That is the emitted one, standing first, if there is one; otherwise it
  // is the first kept rendered init container of that name, if there is one.
  lemma InitOrderIsFinal(r: PodSpec, vmi: Vmi, ts: seq<Template>, o: Options)
    requires HasCompute(r)
    ensures var p, order, kept := Adapted(r, vmi, ts, o), InitOrder(r, vmi, ts, o), Kept(r.inits);
      var dv, k := DataVolumeInits(vmi.volumes, ts, r.volumes, o.launcherImage), Named(kept, DIR_INIT);
      && |p.inits| == |order|
      && (FirstInits(r, o.launcherImage) != [] ==> p.inits == [WithStateDirs(order[0])] + order[1..])
      && (FirstInits(r, o.launcherImage) == [] && k < |kept| ==>
            |dv| + k < |order| && order[|dv| + k] == kept[k] && p.inits == order[|dv| + k := WithStateDirs(kept[k])])
      && (FirstInits(r, o.launcherImage) == [] && k == |kept| ==> p.inits == order)
  {
    AdaptedShape(r, vmi, ts, o);
    if FirstInits(r, o.launcherImage) == [] {
      StateInitInKept(r, vmi, ts, o);
    } else {
      StateInitFirst(InitOrder(r, vmi, ts, o));
    }
  }

  lemma StateInitInKept(r: PodSpec, vmi: Vmi, ts: seq<Template>, o: Options)
    requires FirstInits(r, o.launcherImage) == []
    ensures var order, kept := InitOrder(r, vmi, ts, o), Kept(r.inits);
      var dv, k := DataVolumeInits(vmi.volumes, ts, r.volumes, o.launcherImage), Named(kept, DIR_INIT);
      if k == |kept| then WithStateInit(order) == order
      else
        && |dv| + k < |order| && order[|dv| + k] == kept[k]
        && WithStateInit(order) == order[|dv| + k := WithStateDirs(kept[k])]
  {
    var first, dv := FirstInits(r, o.launcherImage), DataVolumeInits(vmi.volumes, ts, r.volumes, o.launcherImage);
    var kept, last := Kept(r.inits), LastInits(o);
    assert InitOrder(r, vmi, ts, o) == first + dv + kept + last;
    DataVolumeInitsAreKept(vmi.volumes, ts, r.volumes, o.launcherImage);
    LastInitsMakeNoDirs(o);
    StateInitBehind(first, dv, kept, last);
  }

  lemma StateInitFirst(cs: seq<Container>)
    requires cs != [] && cs[0].name == DIR_INIT
    ensures WithStateInit(cs) == [WithStateDirs(cs[0])] + cs[1..]
  {
  }

  lemma StateInitAt(cs: seq<Container>, i: nat)
    requires Named(cs, DIR_INIT) == i
    ensures WithStateInit(cs) == if i < |cs| then cs[i := WithStateDirs(cs[i])] else cs
  {
  }

  lemma StateInitBehind(first: seq<Container>, a: seq<Container>, b: seq<Container>, c: seq<Container>)
    requires first == []
    requires (forall x :: x in a ==> x.name != DIR_INIT) && (forall x :: x in c ==> x.name != DIR_INIT)
    ensures var order, k := first + a + b + c, Named(b, DIR_INIT);
      if k == |b| then WithStateInit(order) == order
      else |a| + k < |order| && order[|a| + k] == b[k] && WithStateInit(order) == order[|a| + k := WithStateDirs(b[k])]
  {
    assert first + a == a;
    StateInitBetween(a, b, c);
  }

  lemma StateInitBetween(a: seq<Container>, b: seq<Container>, c: seq<Container>)
    requires (forall x :: x in a ==> x.name != DIR_INIT) && (forall x :: x in c ==> x.name != DIR_INIT)
    ensures var order, k := a + b + c, Named(b, DIR_INIT);
      if k == |b| then WithStateInit(order) == order
      else |a| + k < |order| && order[|a| + k] == b[k] && WithStateInit(order) == order[|a| + k := WithStateDirs(b[k])]
  {
    var order, k := a + b + c, Named(b, DIR_INIT);
    NamedBetween(a, b, c, DIR_INIT);
    StateInitAt(order, if k == |b| then |order| else |a| + k);
    assert k < |b| ==> order[|a| + k] == b[k];
  }

  lemma LastInitsMakeNoDirs(o: Options)
    ensures forall c :: c in LastInits(o) ==> c.name != DIR_INIT
  {
    assert "passt-binary-patcher"[0] != DIR_INIT[0];
  }

  lemma NamedBetween(a: seq<Container>, b: seq<Container>, c: seq<Container>, name: string)
    requires (forall x :: x in a ==> x.name != name) && (forall x :: x in c ==> x.name != name)
    ensures Named(a + b + c, name) == if Named(b, name) < |b| then |a| + Named(b, name) else |a + b + c|
  {
    var all, k := a + b + c, Named(b, name);
    forall j | 0 <= j < |all| && (j < |a| + k || k == |b|)
      ensures all[j].name != name
    {
      if j < |a| {
        assert all[j] == a[j] && a[j] in a;
      } else if j < |a| + |b| {
        assert all[j] == b[j - |a|];
      } else {
        assert all[j] == c[j - |a| - |b|] && c[j - |a| - |b|] in c;
      }
    }
    NamedIs(all, name, if k < |b| then |a| + k else |all|);
  }

  lemma SidecarFree(a: seq<Container>, b: seq<Container>)
    requires (forall c :: c in a ==> !IsAlways(c)) && (forall c :: c in b ==> !IsAlways(c))
    ensures forall c :: c in a + b ==> !IsAlways(c)
  {
  }

  // No sidecar is left among the init containers.
  lemma NoSidecarRemains(r: PodSpec, vmi: Vmi, ts: seq<Template>, o: Options)
    requires HasCompute(r)
    ensures forall c :: c in Adapted(r, vmi, ts, o).inits ==> c.restartPolicy != Some("Always")
  {
    AdaptedShape(r, vmi, ts, o);
    KeptAreNoSidecars(r.inits);
    DataVolumeInitsAreKept(vmi.volumes, ts, r.volumes, o.launcherImage);
    var first, dv := FirstInits(r, o.launcherImage), DataVolumeInits(vmi.volumes, ts, r.volumes, o.launcherImage);
    SidecarFree(first, dv);
    SidecarFree(first + dv, Kept(r.inits));
    SidecarFree(first + dv + Kept(r.inits), LastInits(o));
    StateInitKeepsPolicies(InitOrder(r, vmi, ts, o));
  }

  lemma StateInitKeepsPolicies(cs: seq<Container>)
    requires forall c :: c in cs ==> !IsAlways(c)
    ensures forall c :: c in WithStateInit(cs) ==> !IsAlways(c)
  {
    var i := Named(cs, DIR_INIT);
    if i < |cs| {
      assert cs[i] in cs;
    }
  }
}
