// The console and VNC proxies of the adapted pod, spelled out: what they listen on, and what they reach.
module PodProxies {
  import opened Common
  import opened Mounts
  import opened PodModel
  import opened PodStages
  import opened PodShape
  import opened PodWellFormed
  import opened PodGuarantees
  import opened Persistence
  import opened Survival

  predicate MountsPrivate(c: Container, j: nat) {
    && j < |c.mounts| && c.mounts[j].path == ["var", "run", "kubevirt-private"]
    && forall k :: 0 <= k < j ==> c.mounts[k].path != ["var", "run", "kubevirt-private"]
  }

  // Mount j of container i is the first at the private path of a compute container.
  ghost predicate PrivateMount(cs: seq<Container>, i: nat, j: nat) {
    && i < |cs| && cs[i].name == "compute" && MountsPrivate(cs[i], j)
    && forall k, l: nat :: 0 <= k < i && cs[k].name == "compute" ==> !MountsPrivate(cs[k], l)
  }

  lemma FirstPrivate(ms: seq<Mount>, c: Container)
    requires c.mounts == ms
    ensures FirstMountAt(ms, PRIVATE) < |ms| ==> MountsPrivate(c, FirstMountAt(ms, PRIVATE))
    ensures forall j :: MountsPrivate(c, j) ==> j == FirstMountAt(ms, PRIVATE)
  {
  }

  lemma {:induction false} PrivateVolumeIs(cs: seq<Container>, i: nat, j: nat)
    requires PrivateMount(cs, i, j)
    ensures PrivateVolumeName(cs) == cs[i].mounts[j].name
  {
    FirstPrivate(cs[0].mounts, cs[0]);
    if i == 0 {
    } else {
      assert forall k, l: nat :: 0 <= k < i - 1 && cs[1..][k].name == "compute" ==> !MountsPrivate(cs[1..][k], l);
      PrivateVolumeIs(cs[1..], i - 1, j);
    }
  }

  lemma {:induction false} NoPrivateVolume(cs: seq<Container>)
    requires forall i, j: nat :: 0 <= i < |cs| && cs[i].name == "compute" ==> !MountsPrivate(cs[i], j)
    ensures PrivateVolumeName(cs) == ""
  {
    if cs == [] {
    } else {
      FirstPrivate(cs[0].mounts, cs[0]);
      assert forall i, j: nat :: 0 <= i < |cs| - 1 && cs[1..][i].name == "compute" ==> !MountsPrivate(cs[1..][i], j);
      NoPrivateVolume(cs[1..]);
    }
  }

  // -------- the two containers --------

  // socat from the TCP port to the socket in the private directory, which is the given volume.
  predicate IsProxy(c: Container, name: string, image: string, port: nat, socket: string, volume: string) {
    && c.name == name && c.image == image && c.restartPolicy.None?
    && c.program == Argv(["socat", "TCP-LISTEN:" + Decimal(port) + ",fork,reuseaddr",
                          "UNIX:/var/run/kubevirt-private/default/" + socket])
    && c.mounts == [Mount(volume, ["var", "run", "kubevirt-private"], [], false)]
  }

  lemma ProxiesFor(p: PodSpec, o: Options, volume: string)
    requires PrivateVolumeName(p.containers) == volume != ""
    ensures var cs, n := Proxies(p, o), if o.addSerial then 1 else 0;
      && |cs| == n + (if o.addVnc then 1 else 0)
      && (o.addSerial ==> IsProxy(cs[0], "console-proxy", o.serialImage, o.serialPort, "virt-serial0", volume))
      && (o.addVnc ==> IsProxy(cs[n], "vnc-proxy", o.vncImage, o.vncPort, "virt-vnc", volume))
  {
  }

  // If a compute container mounts the private path, both proxies stand behind the rendered containers, as
  // asked for: the console proxy on the serial port and socket, the VNC proxy on the VNC port and socket.
  lemma ProxiesAreAsked(r: PodSpec, vmi: Vmi, ts: seq<Template>, o: Options, i: nat, j: nat)
    requires HasCompute(r) && PrivateMount(r.containers, i, j) && r.containers[i].mounts[j].name != ""
    ensures var cs, n, volume := Adapted(r, vmi, ts, o).containers, |r.containers|, r.containers[i].mounts[j].name;
      var k := n + if o.addSerial then 1 else 0;
      && |cs| == k + (if o.addVnc then 1 else 0) + |Promoted(r.inits)|
      && (o.addSerial ==> IsProxy(cs[n], "console-proxy", o.serialImage, o.serialPort, "virt-serial0", volume))
      && (o.addVnc ==> IsProxy(cs[k], "vnc-proxy", o.vncImage, o.vncPort, "virt-vnc", volume))
  {
    AdaptedShape(r, vmi, ts, o);
    PrivateVolumeIs(r.containers, i, j);
    ProxiesFor(r, o, r.containers[i].mounts[j].name);
  }

  // If none does, there are none.
  lemma NoProxies(r: PodSpec, vmi: Vmi, ts: seq<Template>, o: Options)
    requires HasCompute(r)
    requires forall i, j: nat :: 0 <= i < |r.containers| && r.containers[i].name == "compute" ==>
      !MountsPrivate(r.containers[i], j)
    ensures var cs := Adapted(r, vmi, ts, o).containers;
      |cs| == |r.containers| + |Promoted(r.inits)| && cs[|r.containers|..] == Promoted(r.inits)
  {
    AdaptedShape(r, vmi, ts, o);
    NoPrivateVolume(r.containers);
    assert [] + Promoted(r.inits) == Promoted(r.inits);
  }

  // -------- what a proxy reaches --------

  function SocketPath(socket: string): Path {
    ["var", "run", "kubevirt-private", "default", socket]
  }

  lemma SocketIsNoState(socket: string)
    ensures PRIVATE <= SocketPath(socket) && StateMount(SocketPath(socket)).None?
  {
    var path := SocketPath(socket);
    assert path[3] == "default" && LIBVIRT[3] == "libvirt" && LOCALCA[3] == "var";
    assert LIBVIRT <= QEMU && QEMU <= NVRAM && QEMU <= SWTPM;
    assert NVRAM[3] == SWTPM[3] == QEMU[3] == "libvirt";
  }

  lemma ProxyLocation(vs: seq<Volume>, volume: string, socket: string, v: Volume)
    requires VolumeNamed(vs, volume) == Some(v)
    ensures LocateIn(vs, [Mount(volume, ["var", "run", "kubevirt-private"], [], false)], SocketPath(socket))
         == Some(Below(RootOf(v), ["default", socket]))
  {
    var ms := [Mount(volume, ["var", "run", "kubevirt-private"], [], false)];
    assert ms[0].path <= SocketPath(socket);
    assert [] + SocketPath(socket)[3..] == ["default", socket];
  }

  lemma {:induction false} DeclaredIsNamed(vs: seq<Volume>, name: string)
    requires Declared(vs, name)
    ensures VolumeNamed(vs, name).Some?
  {
    if vs[0].name == name {
    } else {
      assert Declared(vs[1..], name);
      DeclaredIsNamed(vs[1..], name);
    }
  }

  // The volume that compute mounts at the private path is declared, and every path below has a location.
  lemma PrivateIsLocated(r: PodSpec, j: nat, path: Path)
    requires Rendered(r) && PrivateMount(r.containers, Named(r.containers, COMPUTE), j) && PRIVATE <= path
    ensures VolumeNamed(r.volumes, ComputeMounts(r)[j].name).Some? && Locate(r, path).Some?
  {
    var ms := ComputeMounts(r);
    assert r.containers[Named(r.containers, COMPUTE)] in r.containers;
    assert forall m :: m in ms ==> Declared(r.volumes, m.name);
    assert ms[j] in ms && Covers(ms[j], path);
    DeclaredIsNamed(r.volumes, ms[j].name);
    var k := LastCovering(ms, path).value;
    assert ms[k] in ms;
    DeclaredIsNamed(r.volumes, ms[k].name);
  }

  // Through its own mount a proxy reaches the socket that compute has at that path exactly when the rendered
  // compute has it directly in the private volume.
  lemma ProxyReachesIff(r: PodSpec, vmi: Vmi, ts: seq<Template>, o: Options, j: nat, socket: string)
    requires Ready(r, vmi, ts, o) && PrivateMount(r.containers, Named(r.containers, COMPUTE), j)
    ensures VolumeNamed(r.volumes, ComputeMounts(r)[j].name).Some?
    ensures var p, volume := Adapted(r, vmi, ts, o), ComputeMounts(r)[j].name;
      LocateIn(p.volumes, [Mount(volume, ["var", "run", "kubevirt-private"], [], false)], SocketPath(socket))
        == Locate(p, SocketPath(socket))
      <==>
      Locate(r, SocketPath(socket)) == Some(Below(RootOf(VolumeNamed(r.volumes, volume).value), ["default", socket]))
  {
    var p, volume := Adapted(r, vmi, ts, o), ComputeMounts(r)[j].name;
    SocketIsNoState(socket);
    PrivateIsLocated(r, j, SocketPath(socket));
    LocateElsewhere(r, vmi, ts, o, SocketPath(socket));
    AdaptedShape(r, vmi, ts, o);
    VolumeNamedMore(r.volumes, AddedVolumes(r, vmi, ts, o), volume);
    ProxyLocation(p.volumes, volume, socket, VolumeNamed(r.volumes, volume).value);
  }

  // When nothing is mounted over the socket in the private directory, that is when compute mounts the volume
  // itself and no sub-path of it.
  lemma PrivateMountIsShared(r: PodSpec, vmi: Vmi, ts: seq<Template>, o: Options, j: nat, socket: string)
    requires Ready(r, vmi, ts, o) && PrivateMount(r.containers, Named(r.containers, COMPUTE), j)
    requires LastCovering(ComputeMounts(r), SocketPath(socket)) == Some(j)
    ensures var p, volume := Adapted(r, vmi, ts, o), ComputeMounts(r)[j].name;
      LocateIn(p.volumes, [Mount(volume, ["var", "run", "kubevirt-private"], [], false)], SocketPath(socket))
        == Locate(p, SocketPath(socket))
      <==> ComputeMounts(r)[j].subPath == []
  {
    var m := ComputeMounts(r)[j];
    ProxyReachesIff(r, vmi, ts, o, j, socket);
    LocatedOnTop(r.volumes, ComputeMounts(r), j, socket);
    SubPathMatters(RootOf(VolumeNamed(r.volumes, m.name).value), m.subPath, ["default", socket]);
  }

  lemma LocatedOnTop(vs: seq<Volume>, ms: seq<Mount>, j: nat, socket: string)
    requires LastCovering(ms, SocketPath(socket)) == Some(j)
    requires j < |ms| && ms[j].path == ["var", "run", "kubevirt-private"] && VolumeNamed(vs, ms[j].name).Some?
    ensures LocateIn(vs, ms, SocketPath(socket))
         == Some(Below(RootOf(VolumeNamed(vs, ms[j].name).value), ms[j].subPath + ["default", socket]))
  {
    assert SocketPath(socket)[3..] == ["default", socket];
  }

  lemma SubPathMatters(root: Location, sub: Path, tail: Path)
    ensures Below(root, sub + tail) == Below(root, tail) <==> sub == []
  {
    if sub == [] {
      assert sub + tail == tail;
    } else {
      assert |Below(root, sub + tail).path| != |Below(root, tail).path|;
    }
  }

  // A well-formed pod whose compute mounts a sub-path there: its console proxy finds no socket of compute's.
  const SUB_POD := SmallPod("private", ["sub"], [])

  lemma SubPodIsNotShared(o: Options)
    ensures Ready(SUB_POD, SMALL_VMI, [], o)
    ensures var p := Adapted(SUB_POD, SMALL_VMI, [], o);
      LocateIn(p.volumes, [Mount("private", ["var", "run", "kubevirt-private"], [], false)], SocketPath("virt-serial0"))
        != Locate(p, SocketPath("virt-serial0"))
  {
    var path, m := SocketPath("virt-serial0"), Mount("private", PRIVATE, ["sub"], false);
    PrivateIsNotInjected();
    SmallPodIsReady("private", ["sub"], [], o);
    SmallPodMounts("private", ["sub"], []);
    assert ComputeMounts(SUB_POD) == [m] && SUB_POD.containers[Named(SUB_POD.containers, COMPUTE)].mounts == [m];
    SocketIsNoState("virt-serial0");
    assert Covers(m, path);
    assert MountsPrivate(SUB_POD.containers[0], 0);
    PrivateMountIsShared(SUB_POD, SMALL_VMI, [], o, 0, "virt-serial0");
  }
}
