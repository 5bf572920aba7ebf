// What the other stages leave in the adapted pod, spelled out: the containers that stay as they were, the
// directory container, the passt patcher and the state volumes.
module PodContents {
  import opened Common
  import opened Mounts
  import opened PodModel
  import opened PodStages
  import opened PodShape
  import opened PodWellFormed
  import opened PodGuarantees
  import opened PodDataVolumes
  import opened DirScript
  import opened Persistence

  // -------- what stays --------

  // Compute is the first container of that name.
  predicate IsCompute(p: PodSpec, i: nat) {
    && i < |p.containers| && p.containers[i].name == "compute"
    && forall k :: 0 <= k < i ==> p.containers[k].name != "compute"
  }

  lemma ComputeIs(p: PodSpec, i: nat)
    requires IsCompute(p, i)
    ensures HasCompute(p) && ComputeMounts(p) == p.containers[i].mounts && Named(p.containers, COMPUTE) == i
  {
    NamedIs(p.containers, COMPUTE, i);
  }

  // Rendered volumes and containers keep their places; only compute changes, and only by mounts behind its own.
  lemma RenderedPartsStay(r: PodSpec, vmi: Vmi, ts: seq<Template>, o: Options, i: nat)
    requires IsCompute(r, i)
    ensures var p := Adapted(r, vmi, ts, o);
      && r.volumes <= p.volumes
      && |r.containers| <= |p.containers|
      && (forall k :: 0 <= k < |r.containers| && k != i ==> p.containers[k] == r.containers[k])
      && r.containers[i].mounts <= p.containers[i].mounts
      && p.containers[i] == r.containers[i].(mounts := p.containers[i].mounts)
      && IsCompute(p, i)
  {
    var added, more := AddedMounts(vmi, o), Proxies(r, o) + Promoted(r.inits);
    ComputeIs(r, i);
    AdaptedShape(r, vmi, ts, o);
    MountsAt(r.containers, i, added);
    BehindStays(r.containers, i, r.containers[i].mounts + added, more);
  }

  lemma MountsAt(cs: seq<Container>, i: nat, ms: seq<Mount>)
    requires Named(cs, COMPUTE) == i < |cs|
    ensures WithMounts(cs, COMPUTE, ms) == cs[i := cs[i].(mounts := cs[i].mounts + ms)]
  {
  }

  lemma BehindStays(cs: seq<Container>, i: nat, ms: seq<Mount>, more: seq<Container>)
    requires i < |cs|
    ensures var all := cs[i := cs[i].(mounts := ms)] + more;
      && |cs| <= |all| && all[i] == cs[i].(mounts := ms)
      && forall k :: 0 <= k < |cs| && k != i ==> all[k] == cs[k]
  {
  }

  // -------- the directory container --------

  predicate IsPrivate(v: Volume) {
    v.source.EmptyDir? &&
    (v.name == "private" || (|v.name| >= 14 && v.name[|v.name| - 14..] == "-private-empty"))
  }

  lemma PrivateNameIff(name: string)
    ensures VolumeKey(name) == "private" <==>
      name == "private" || (|name| >= 14 && name[|name| - 14..] == "-private-empty")
  {
    PrivateKeyIff(name);
    if s :| name == s + "-private-empty" {
      assert name[|name| - 14..] == "-private-empty";
    }
    if |name| >= 14 && name[|name| - 14..] == "-private-empty" {
      assert name == name[..|name| - 14] + "-private-empty";
    }
  }

  // The positions of the private volumes.
  ghost function PrivateAt(vs: seq<Volume>): (r: seq<nat>)
    ensures forall i :: 0 <= i < |r| ==> r[i] < |vs|
  {
    if vs == [] then [] else PrivateAt(vs[..|vs| - 1]) + if IsPrivate(Last(vs)) then [|vs| - 1] else []
  }

  lemma {:induction false} PrivateVolumesAre(vs: seq<Volume>)
    ensures var at, ws := PrivateAt(vs), PrivateVolumes(vs);
      && |ws| == |at| && (forall i :: 0 <= i < |at| ==> ws[i] == vs[at[i]])
      && (forall i, j :: 0 <= i < j < |at| ==> at[i] < at[j])
      && (forall k :: 0 <= k < |vs| ==> (k in at <==> IsPrivate(vs[k])))
  {
    if vs == [] {
    } else {
      var front := vs[..|vs| - 1];
      PrivateVolumesAre(front);
      PrivateNameIff(Last(vs).name);
      assert vs == front + [Last(vs)];
    }
  }

  // The directories made by a script of mkdir commands, in order.
  function MadeDirs(ws: seq<string>): seq<string> {
    if |ws| < 3 then [] else [ws[2]] + if |ws| == 3 then [] else MadeDirs(ws[4..])
  }

  lemma TailOfConcat(a: seq<string>, x: string, b: seq<string>)
    requires |a| >= 3
    ensures (a + [x] + b)[2] == a[2]
    ensures |a| == 3 ==> (a + [x] + b)[4..] == b
    ensures |a| > 3 ==> (a + [x] + b)[4..] == a[4..] + [x] + b
  {
  }

  lemma {:induction false} MadeDirsConcat(a: seq<string>, x: string, b: seq<string>)
    requires |a| % 4 == 3 && |b| > 0
    ensures MadeDirs(a + [x] + b) == MadeDirs(a) + MadeDirs(b)
  {
    TailOfConcat(a, x, b);
    if |a| > 3 {
      MadeDirsConcat(a[4..], x, b);
    }
  }

  lemma {:induction false} MkdirsLength(ws: seq<string>)
    requires IsMkdirs(ws)
    ensures |ws| % 4 == 3
  {
    if |ws| > 3 {
      MkdirsLength(ws[4..]);
    }
  }

  ghost predicate ScriptMakes(script: string, dirs: seq<string>) {
    IsMkdirs(Words(script)) && MadeDirs(Words(script)) == dirs
  }

  lemma AndMakes(a: string, b: string, m: seq<string>, n: seq<string>)
    requires ScriptMakes(a, m) && ScriptMakes(b, n)
    ensures ScriptMakes(a + " && " + b, m + n)
  {
    WordsOfAnd(a, b);
    MkdirsAndMkdirs(Words(a), Words(b));
    MkdirsLength(Words(a));
    MadeDirsConcat(Words(a), "&&", Words(b));
  }

  lemma MkdirMakes(dir: string)
    requires IsPlain(dir)
    ensures ScriptMakes(Mkdir(dir), [dir])
  {
    WordsOfMkdir(dir);
  }

  function PrivateDir(v: Volume): string {
    "/emptydir/" + v.name + "/libvirt/qemu"
  }

  function PrivateDirs(vs: seq<Volume>): (r: seq<string>)
    ensures |r| == |vs|
  {
    seq(|vs|, i requires 0 <= i < |vs| => PrivateDir(vs[i]))
  }

  lemma DirCommandMakes(v: Volume)
    requires IsPlain(v.name)
    ensures ScriptMakes(DirCommand(v), [PrivateDir(v)])
  {
    PlainConcat("/emptydir/", v.name);
    PlainConcat("/emptydir/" + v.name, "/libvirt/qemu");
    MkdirMakes(PrivateDir(v));
  }

  lemma {:induction false} JoinedMake(cmds: seq<string>, dirs: seq<string>)
    requires |cmds| == |dirs| > 0 && forall i :: 0 <= i < |cmds| ==> ScriptMakes(cmds[i], [dirs[i]])
    ensures ScriptMakes(JoinAnd(cmds), dirs)
  {
    assert dirs == [dirs[0]] + dirs[1..];
    if |cmds| == 1 {
      assert dirs == [dirs[0]];
    } else {
      JoinedMake(cmds[1..], dirs[1..]);
      AndMakes(cmds[0], JoinAnd(cmds[1..]), [dirs[0]], dirs[1..]);
    }
  }

  lemma DirCommandsMake(vs: seq<Volume>)
    requires vs != [] && forall v :: v in vs ==> IsPlain(v.name)
    ensures ScriptMakes(JoinAnd(DirCommands(vs)), PrivateDirs(vs))
  {
    forall i | 0 <= i < |vs|
      ensures ScriptMakes(DirCommands(vs)[i], [PrivateDirs(vs)[i]])
    {
      DirCommandMakes(vs[i]);
    }
    JoinedMake(DirCommands(vs), PrivateDirs(vs));
  }

  lemma ThreeMake(a: string, b: string, c: string)
    requires IsPlain(a) && IsPlain(b) && IsPlain(c)
    ensures ScriptMakes(JoinAnd([Mkdir(a), Mkdir(b), Mkdir(c)]), [a, b, c])
  {
    MkdirMakes(a);
    MkdirMakes(b);
    MkdirMakes(c);
    JoinedMake([Mkdir(a), Mkdir(b), Mkdir(c)], [a, b, c]);
  }

  lemma StateCommandsMake()
    ensures ScriptMakes(JoinAnd(STATE_COMMANDS),
                        ["/vm-state-init/nvram", "/vm-state-init/swtpm", "/vm-state-init/swtpm-localca"])
  {
    StateDirsArePlain();
    ThreeMake("/vm-state-init/nvram", "/vm-state-init/swtpm", "/vm-state-init/swtpm-localca");
  }

  // With a private volume, the first init container makes libvirt/qemu in each of them and the three
  // sub-directories of vm-state, and mounts them where it makes them.
  lemma DirectoriesAreMade(r: PodSpec, vmi: Vmi, ts: seq<Template>, o: Options)
    requires HasCompute(r) && PrivateVolumes(r.volumes) != []
    requires forall v :: v in r.volumes ==> IsPlain(v.name)
    ensures var p, vs := Adapted(r, vmi, ts, o), PrivateVolumes(r.volumes);
      && p.inits != []
      && MakesDirectories(p.inits[0], vs, o.launcherImage)
  {
    var vs := PrivateVolumes(r.volumes);
    InitOrderIsFinal(r, vmi, ts, o);
    PrivateVolumesAreVolumes(r.volumes);
    DirInitExtended(vs, o.launcherImage);
    assert InitOrder(r, vmi, ts, o)[0] == DirInit(vs, o.launcherImage);
  }

  ghost predicate MakesDirectories(c: Container, vs: seq<Volume>, image: string) {
    && c.name == "virt-handler-dir-init" && c.image == image && c.restartPolicy.None?
    && c.program.Argv? && |c.program.argv| == 3 && c.program.argv[0] == "/bin/bash" && c.program.argv[1] == "-c"
    && ScriptMakes(c.program.argv[2], PrivateDirs(vs)
         + ["/vm-state-init/nvram", "/vm-state-init/swtpm", "/vm-state-init/swtpm-localca"])
    && |c.mounts| == |vs| + 1
    && (forall i :: 0 <= i < |vs| ==> c.mounts[i] == Mount(vs[i].name, ["emptydir", vs[i].name], [], false))
    && Last(c.mounts) == Mount("vm-state", ["vm-state-init"], [], false)
  }

  lemma DirInitExtended(vs: seq<Volume>, image: string)
    requires vs != [] && forall v :: v in vs ==> IsPlain(v.name)
    ensures MakesDirectories(WithStateDirs(DirInit(vs, image)), vs, image)
  {
    var dirs := ["/vm-state-init/nvram", "/vm-state-init/swtpm", "/vm-state-init/swtpm-localca"];
    DirCommandsMake(vs);
    StateCommandsMake();
    AndMakes(JoinAnd(DirCommands(vs)), JoinAnd(STATE_COMMANDS), PrivateDirs(vs), dirs);
  }

  // Any container that the state stage extends keeps its name, image, policy and mounts; a bash script gains
  // the same three directories behind what it did.
  lemma ExtendedKeepsTheRest(c: Container, dirs: seq<string>)
    ensures var d := WithStateDirs(c);
      && d.name == c.name && d.image == c.image && d.restartPolicy == c.restartPolicy
      && d.mounts == c.mounts + [Mount("vm-state", ["vm-state-init"], [], false)]
      && (!(c.program.Argv? && |c.program.argv| == 3 && c.program.argv[..2] == ["/bin/bash", "-c"]) ==>
            d.program == c.program)
    ensures c.program.Argv? && |c.program.argv| == 3 && c.program.argv[..2] == ["/bin/bash", "-c"] ==>
      var script := WithStateDirs(c).program;
      && script.Argv? && |script.argv| == 3 && script.argv[..2] == ["/bin/bash", "-c"]
      && c.program.argv[2] + " && " <= script.argv[2]
      && (ScriptMakes(c.program.argv[2], dirs) ==>
            ScriptMakes(script.argv[2], dirs
              + ["/vm-state-init/nvram", "/vm-state-init/swtpm", "/vm-state-init/swtpm-localca"]))
  {
    if c.program.Argv? && |c.program.argv| == 3 && ScriptMakes(c.program.argv[2], dirs) {
      StateCommandsMake();
      AndMakes(c.program.argv[2], JoinAnd(STATE_COMMANDS), dirs,
               ["/vm-state-init/nvram", "/vm-state-init/swtpm", "/vm-state-init/swtpm-localca"]);
    }
  }

  // -------- the state directories --------

  lemma NvramPath(path: Path, tail: Path)
    requires path == ["var", "run", "kubevirt-private", "libvirt", "qemu", "nvram"] + tail
    ensures PRIVATE <= path && StateMount(path) == Some(STATE_MOUNTS[2])
    ensures path[|STATE_MOUNTS[2].path|..] == tail
  {
    assert path[5] == "nvram" && SWTPM[5] == "swtpm" && path[3] == "libvirt" && LOCALCA[3] == "var";
  }

  lemma SwtpmPath(path: Path, tail: Path)
    requires path == ["var", "run", "kubevirt-private", "libvirt", "qemu", "swtpm"] + tail
    ensures PRIVATE <= path && StateMount(path) == Some(STATE_MOUNTS[3])
    ensures path[|STATE_MOUNTS[3].path|..] == tail
  {
    assert path[3] == "libvirt" && LOCALCA[3] == "var";
  }

  lemma LocalcaPath(path: Path, tail: Path)
    requires path == ["var", "run", "kubevirt-private", "var", "lib", "swtpm-localca"] + tail
    ensures PRIVATE <= path && StateMount(path) == Some(STATE_MOUNTS[4])
    ensures path[|STATE_MOUNTS[4].path|..] == tail
  {
  }

  lemma StateAt(r: PodSpec, vmi: Vmi, ts: seq<Template>, o: Options, path: Path, n: nat, tail: Path)
    requires Ready(r, vmi, ts, o) && PRIVATE <= path && n in {2, 3, 4}
    requires StateMount(path) == Some(STATE_MOUNTS[n]) && |STATE_MOUNTS[n].path| <= |path|
    requires path[|STATE_MOUNTS[n].path|..] == tail
    ensures Locate(Adapted(r, vmi, ts, o), path)
         == Some(Location(Persistent(vmi.name + "-vm-state"), STATE_MOUNTS[n].subPath + tail))
  {
    LocateState(r, vmi, ts, o, path);
  }

  // The UEFI variables, the TPM state and the TPM's certificate authority are in the claim <vm>-vm-state,
  // below the sub-directories that the directory container makes.
  lemma StateIsInClaim(r: PodSpec, vmi: Vmi, ts: seq<Template>, o: Options, tail: Path)
    requires Ready(r, vmi, ts, o)
    ensures var p, claim := Adapted(r, vmi, ts, o), Persistent(vmi.name + "-vm-state");
      && Locate(p, ["var", "run", "kubevirt-private", "libvirt", "qemu", "nvram"] + tail)
           == Some(Location(claim, ["nvram"] + tail))
      && Locate(p, ["var", "run", "kubevirt-private", "libvirt", "qemu", "swtpm"] + tail)
           == Some(Location(claim, ["swtpm"] + tail))
      && Locate(p, ["var", "run", "kubevirt-private", "var", "lib", "swtpm-localca"] + tail)
           == Some(Location(claim, ["swtpm-localca"] + tail))
  {
    var nvram := ["var", "run", "kubevirt-private", "libvirt", "qemu", "nvram"] + tail;
    var swtpm := ["var", "run", "kubevirt-private", "libvirt", "qemu", "swtpm"] + tail;
    var ca := ["var", "run", "kubevirt-private", "var", "lib", "swtpm-localca"] + tail;
    NvramPath(nvram, tail);
    SwtpmPath(swtpm, tail);
    LocalcaPath(ca, tail);
    StateAt(r, vmi, ts, o, nvram, 2, tail);
    StateAt(r, vmi, ts, o, swtpm, 3, tail);
    StateAt(r, vmi, ts, o, ca, 4, tail);
  }

  lemma LibvirtPath(path: Path, tail: Path)
    requires path == ["var", "run", "kubevirt-private", "libvirt"] + tail
    requires tail == [] || tail[0] != "qemu"
    ensures PRIVATE <= path && StateMount(path) == Some(STATE_MOUNTS[0]) && path[|STATE_MOUNTS[0].path|..] == tail
  {
    assert path[3] == "libvirt" && LOCALCA[3] == "var";
    assert QEMU[4] == NVRAM[4] == SWTPM[4] == "qemu";
    assert |path| > 4 ==> path[4] == tail[0];
  }

  lemma QemuPath(path: Path, tail: Path)
    requires path == ["var", "run", "kubevirt-private", "libvirt", "qemu"] + tail
    requires tail == [] || (tail[0] != "nvram" && tail[0] != "swtpm")
    ensures PRIVATE <= path && StateMount(path) == Some(STATE_MOUNTS[1]) && path[|STATE_MOUNTS[1].path|..] == tail
  {
    assert path[3] == "libvirt" && LOCALCA[3] == "var";
    assert NVRAM[5] == "nvram" && SWTPM[5] == "swtpm";
    assert |path| > 5 ==> path[5] == tail[0];
  }

  lemma FirstStateMounts(vmi: Vmi)
    ensures STATE_MOUNTS[0].subPath == STATE_MOUNTS[1].subPath == []
    ensures StateBacking(STATE_MOUNTS[0], vmi) == Memory("private-libvirt")
    ensures StateBacking(STATE_MOUNTS[1], vmi) == Memory("private-libvirt-qemu")
  {
    assert "private-libvirt"[0] != VM_STATE[0] && "private-libvirt-qemu"[0] != VM_STATE[0];
  }

  lemma BackedAt(r: PodSpec, vmi: Vmi, ts: seq<Template>, o: Options, path: Path, m: Mount, tail: Path)
    requires Ready(r, vmi, ts, o) && PRIVATE <= path && StateMount(path) == Some(m) && m.subPath == []
    requires |m.path| <= |path| && path[|m.path|..] == tail
    ensures Locate(Adapted(r, vmi, ts, o), path) == Some(Location(StateBacking(m, vmi), tail))
  {
    LocateState(r, vmi, ts, o, path);
    assert [] + tail == tail;
  }

  // Everything else below libvirt and libvirt/qemu is in an emptyDir of its own.
  lemma LibvirtIsInMemory(r: PodSpec, vmi: Vmi, ts: seq<Template>, o: Options, tail: Path)
    requires Ready(r, vmi, ts, o) && (tail == [] || tail[0] != "qemu")
    ensures Locate(Adapted(r, vmi, ts, o), ["var", "run", "kubevirt-private", "libvirt"] + tail)
         == Some(Location(Memory("private-libvirt"), tail))
  {
    var path := ["var", "run", "kubevirt-private", "libvirt"] + tail;
    LibvirtPath(path, tail);
    FirstStateMounts(vmi);
    BackedAt(r, vmi, ts, o, path, STATE_MOUNTS[0], tail);
  }

  lemma QemuIsInMemory(r: PodSpec, vmi: Vmi, ts: seq<Template>, o: Options, tail: Path)
    requires Ready(r, vmi, ts, o) && (tail == [] || (tail[0] != "nvram" && tail[0] != "swtpm"))
    ensures Locate(Adapted(r, vmi, ts, o), ["var", "run", "kubevirt-private", "libvirt", "qemu"] + tail)
         == Some(Location(Memory("private-libvirt-qemu"), tail))
  {
    var path := ["var", "run", "kubevirt-private", "libvirt", "qemu"] + tail;
    QemuPath(path, tail);
    FirstStateMounts(vmi);
    BackedAt(r, vmi, ts, o, path, STATE_MOUNTS[1], tail);
  }

  // -------- the passt patcher --------

  // With passt workarounds the last init container patches into an emptyDir that compute mounts read-only at
  // the same path; without them there is none.
  lemma PatcherIsLast(r: PodSpec, vmi: Vmi, ts: seq<Template>, o: Options)
    requires HasCompute(r) && o.passtWorkarounds
    ensures var p := Adapted(r, vmi, ts, o);
      && p.inits != []
      && Last(p.inits) == Container("passt-binary-patcher", o.launcherImage, PatchPasst,
                                    [Mount("passt-bin", ["passt-bin"], [], false)], None)
      && Volume("passt-bin", EmptyDir) in p.volumes
      && Mount("passt-bin", ["passt-bin"], [], true) in ComputeMounts(p)
  {
    var order := InitOrder(r, vmi, ts, o);
    AdaptedShape(r, vmi, ts, o);
    AdaptedComputeMounts(r, vmi, ts, o);
    LastInitsMakeNoDirs(o);
    assert Last(order) == LastInits(o)[0];
    assert LastInits(o)[0] in LastInits(o);
    LastStays(order);
    PasstAttached(r, vmi, ts, o);
  }

  lemma LastStays(cs: seq<Container>)
    requires cs != [] && Last(cs).name != DIR_INIT
    ensures WithStateInit(cs) != [] && Last(WithStateInit(cs)) == Last(cs)
  {
  }

  lemma PasstAttached(r: PodSpec, vmi: Vmi, ts: seq<Template>, o: Options)
    requires o.passtWorkarounds
    ensures Volume("passt-bin", EmptyDir) in AddedVolumes(r, vmi, ts, o)
    ensures Mount("passt-bin", ["passt-bin"], [], true) in AddedMounts(vmi, o)
  {
    assert VolumesOf([PASST_BIN])[0] == Volume("passt-bin", EmptyDir);
    assert MountsOf([PASST_BIN])[0] == Mount("passt-bin", ["passt-bin"], [], true);
  }
}
