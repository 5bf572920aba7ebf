// The pod being adapted, and each adaptation stage as a function of the pod it receives.
module PodModel {
  import opened Common
  import opened Mounts

  datatype Source = EmptyDir | Claim(claim: string) | HostPath(path: Path) | Image(reference: string) | Other

  datatype Volume = Volume(name: string, source: Source)

  // A command line, or one of the two embedded scripts modelled elsewhere.
  datatype Program =
    | Argv(argv: seq<string>)
    | ImportDisk(dir: Path, sourceMount: Path, size: int)
    | InitDisk(dir: Path, size: int)
    | PatchPasst

  datatype Container = Container(
    name: string, image: string, program: Program, mounts: seq<Mount>, restartPolicy: Option<string>)

  datatype PodSpec = PodSpec(volumes: seq<Volume>, inits: seq<Container>, containers: seq<Container>)

  datatype Options = Options(
    launcherImage: string,
    addVnc: bool, vncPort: nat, vncImage: string,
    addSerial: bool, serialPort: nat, serialImage: string,
    passtWorkarounds: bool)

  datatype VmiVolume = VmiVolume(name: string, dataVolume: Option<string>)

  // The VMI as far as the stages look at it; `groups` are the VFIO groups found on the host.
  datatype Vmi = Vmi(
    name: string, volumes: seq<VmiVolume>, gpus: seq<string>, hasHostDevices: bool, groups: seq<string>)

  // A DataVolume template; `request` is the storage request in bytes, if there is one.
  datatype Template = Template(name: string, hasStorage: bool, request: Option<int>, registryUrl: Option<string>)

  const COMPUTE := "compute"
  const DIR_INIT := "virt-handler-dir-init"
  const PRIVATE: Path := ["var", "run", "kubevirt-private"]
  const ALWAYS := "Always"

  // -------- the compute container --------

  function Named(cs: seq<Container>, name: string): (i: nat)
    ensures i <= |cs| && (i < |cs| ==> cs[i].name == name)
    ensures forall j :: 0 <= j < i ==> cs[j].name != name
  {
    if cs == [] || cs[0].name == name then 0 else 1 + Named(cs[1..], name)
  }

  lemma NamedIs(cs: seq<Container>, name: string, i: nat)
    requires i <= |cs| && (i < |cs| ==> cs[i].name == name)
    requires forall j :: 0 <= j < i ==> cs[j].name != name
    ensures Named(cs, name) == i
  {
  }

  // The first container of that name gets more mounts.
  function WithMounts(cs: seq<Container>, name: string, ms: seq<Mount>): (r: seq<Container>)
    ensures |r| == |cs|
  {
    var i := Named(cs, name);
    if i < |cs| then cs[i := cs[i].(mounts := cs[i].mounts + ms)] else cs
  }

  lemma WithMountsTwice(cs: seq<Container>, name: string, a: seq<Mount>, b: seq<Mount>)
    ensures WithMounts(WithMounts(cs, name, a), name, b) == WithMounts(cs, name, a + b)
    ensures Named(WithMounts(cs, name, a), name) == Named(cs, name)
  {
    var i := Named(cs, name);
    NamedIs(WithMounts(cs, name, a), name, i);
    if i < |cs| {
      assert cs[i].mounts + a + b == cs[i].mounts + (a + b);
    }
  }

  // -------- attached volumes: a volume and where compute mounts it --------

  datatype Attachment = Attachment(source: Source, mount: Mount)

  function VolumesOf(attachments: seq<Attachment>): (r: seq<Volume>)
    ensures |r| == |attachments|
  {
    seq(|attachments|, i requires 0 <= i < |attachments| => Volume(attachments[i].mount.name, attachments[i].source))
  }

  function MountsOf(attachments: seq<Attachment>): (r: seq<Mount>)
    ensures |r| == |attachments|
  {
    seq(|attachments|, i requires 0 <= i < |attachments| => attachments[i].mount)
  }

  function Attached(p: PodSpec, attachments: seq<Attachment>): PodSpec {
    p.(volumes := p.volumes + VolumesOf(attachments),
       containers := WithMounts(p.containers, COMPUTE, MountsOf(attachments)))
  }

  lemma AttachedTwice(p: PodSpec, a: seq<Attachment>, b: seq<Attachment>)
    ensures Attached(Attached(p, a), b) == Attached(p, a + b)
  {
    WithMountsTwice(p.containers, COMPUTE, MountsOf(a), MountsOf(b));
    assert MountsOf(a + b) == MountsOf(a) + MountsOf(b);
    assert VolumesOf(a + b) == VolumesOf(a) + VolumesOf(b);
  }

  lemma AttachedNothing(p: PodSpec)
    ensures Attached(p, []) == p
  {
    var i := Named(p.containers, COMPUTE);
    assert i < |p.containers| ==> p.containers[i].mounts + [] == p.containers[i].mounts;
  }

  // -------- host devices --------

  datatype Device =
    | Kvm | Tun | VhostNet | Cgroup
    | Nvidia(index: nat) | NvidiaCtl | NvidiaUvm | NvidiaUvmTools | NvidiaModeset
    | DriCard(index: nat) | DriRender(index: nat)
    | Vfio | VfioGroup(group: string)

  function DeviceName(d: Device): string {
    match d
    case Kvm => "kvm"
    case Tun => "tun"
    case VhostNet => "vhost-net"
    case Cgroup => "cgroup"
    case Nvidia(i) => "nvidia" + Decimal(i)
    case NvidiaCtl => "nvidiactl"
    case NvidiaUvm => "nvidia-uvm"
    case NvidiaUvmTools => "nvidia-uvm-tools"
    case NvidiaModeset => "nvidia-modeset"
    case DriCard(i) => "dri-card" + Decimal(i)
    case DriRender(i) => "dri-render" + Decimal(i)
    case Vfio => "vfio"
    case VfioGroup(g) => "vfio-group-" + g
  }

  function DevicePath(d: Device): Path {
    match d
    case Kvm => ["dev", "kvm"]
    case Tun => ["dev", "net", "tun"]
    case VhostNet => ["dev", "vhost-net"]
    case Cgroup => ["sys", "fs", "cgroup"]
    case Nvidia(i) => ["dev", "nvidia" + Decimal(i)]
    case NvidiaCtl => ["dev", "nvidiactl"]
    case NvidiaUvm => ["dev", "nvidia-uvm"]
    case NvidiaUvmTools => ["dev", "nvidia-uvm-tools"]
    case NvidiaModeset => ["dev", "nvidia-modeset"]
    case DriCard(i) => ["dev", "dri", "card" + Decimal(i)]
    case DriRender(i) => ["dev", "dri", "renderD" + Decimal(128 + i)]
    case Vfio => ["dev", "vfio", "vfio"]
    case VfioGroup(g) => ["dev", "vfio", g]
  }

  function DeviceAttachment(d: Device): Attachment {
    Attachment(HostPath(DevicePath(d)), Mount(DeviceName(d), DevicePath(d), [], d.Cgroup?))
  }

  function DeviceAttachments(ds: seq<Device>): (r: seq<Attachment>)
    ensures |r| == |ds|
  {
    seq(|ds|, i requires 0 <= i < |ds| => DeviceAttachment(ds[i]))
  }

  const NVIDIA_SHARED := [NvidiaCtl, NvidiaUvm, NvidiaUvmTools, NvidiaModeset]

  datatype Vendor = NvidiaVendor | AmdVendor | IntelVendor | UnknownVendor

  function LowerChar(c: char): char {
    if 'A' <= c <= 'Z' then c - 'A' + 'a' else c
  }

  function ToLower(s: string): (r: string)
    ensures |r| == |s|
  {
    seq(|s|, i requires 0 <= i < |s| => LowerChar(s[i]))
  }

  predicate Contains(s: string, sub: string) {
    exists i :: 0 <= i <= |s| && sub <= s[i..]
  }

  function DetectGpuVendor(deviceName: string): Vendor {
    var lower := ToLower(deviceName);
    if Contains(lower, "nvidia") then NvidiaVendor
    else if Contains(lower, "amd") || Contains(lower, "radeon") then AmdVendor
    else if Contains(lower, "intel") then IntelVendor
    else UnknownVendor
  }

  function GpuDevices(vendor: Vendor, i: nat): seq<Device> {
    match vendor
    case NvidiaVendor => [Nvidia(i)] + if i == 0 then NVIDIA_SHARED else []
    case AmdVendor => [DriCard(i), DriRender(i)]
    case IntelVendor => [DriCard(i), DriRender(i)]
    case UnknownVendor => [DriCard(i)]
  }

  function AllGpuDevices(gpus: seq<string>): seq<Device> {
    if gpus == [] then []
    else AllGpuDevices(gpus[..|gpus| - 1]) + GpuDevices(DetectGpuVendor(Last(gpus)), |gpus| - 1)
  }

  function GroupDevices(groups: seq<string>): (r: seq<Device>)
    ensures |r| == |groups|
  {
    seq(|groups|, i requires 0 <= i < |groups| => VfioGroup(groups[i]))
  }

  function VfioDevices(vmi: Vmi): seq<Device> {
    if vmi.hasHostDevices then [Vfio] + GroupDevices(vmi.groups) else []
  }

  function HostDevices(vmi: Vmi): seq<Device> {
    [Kvm, Tun, VhostNet, Cgroup] + AllGpuDevices(vmi.gpus) + VfioDevices(vmi)
  }

  function WithHostDevices(p: PodSpec, vmi: Vmi): PodSpec {
    Attached(p, DeviceAttachments(HostDevices(vmi)))
  }

  // -------- console and VNC proxies --------

  function FirstMountAt(ms: seq<Mount>, path: Path): (j: nat)
    ensures j <= |ms| && (j < |ms| ==> ms[j].path == path)
    ensures forall k :: 0 <= k < j ==> ms[k].path != path
  {
    if ms == [] || ms[0].path == path then 0 else 1 + FirstMountAt(ms[1..], path)
  }

  // The volume that a compute container mounts at /var/run/kubevirt-private, or "".
  function PrivateVolumeName(cs: seq<Container>): string {
    if cs == [] then ""
    else
      var ms := cs[0].mounts;
      if cs[0].name == COMPUTE && FirstMountAt(ms, PRIVATE) < |ms| then ms[FirstMountAt(ms, PRIVATE)].name
      else PrivateVolumeName(cs[1..])
  }

  function Proxy(name: string, image: string, port: nat, socket: string, volume: string): Container {
    Container(name, image,
      Argv(["socat", "TCP-LISTEN:" + Decimal(port) + ",fork,reuseaddr",
            "UNIX:/var/run/kubevirt-private/default/" + socket]),
      [Mount(volume, PRIVATE, [], false)], None)
  }

  function ConsoleProxy(o: Options, volume: string): Container {
    Proxy("console-proxy", o.serialImage, o.serialPort, "virt-serial0", volume)
  }

  function VncProxy(o: Options, volume: string): Container {
    Proxy("vnc-proxy", o.vncImage, o.vncPort, "virt-vnc", volume)
  }

  // The proxies emitted for a pod, console before VNC.
  function Proxies(p: PodSpec, o: Options): seq<Container> {
    var volume := PrivateVolumeName(p.containers);
    if volume == "" then []
    else (if o.addSerial then [ConsoleProxy(o, volume)] else []) + (if o.addVnc then [VncProxy(o, volume)] else [])
  }

  function WithProxies(p: PodSpec, o: Options): PodSpec {
    p.(containers := p.containers + Proxies(p, o))
  }

  // -------- DataVolumes --------

  datatype DvMeta = DvMeta(size: int, url: string)

  function MetaOf(t: Template): DvMeta {
    DvMeta(if t.request.Some? then t.request.value else 0, if t.registryUrl.Some? then t.registryUrl.value else "")
  }

  // The last template of that name that has storage.
  function LookupMeta(ts: seq<Template>, name: string): Option<DvMeta> {
    if ts == [] then None
    else if Last(ts).hasStorage && Last(ts).name == name then Some(MetaOf(Last(ts)))
    else LookupMeta(ts[..|ts| - 1], name)
  }

  // The name of the first pod volume backed by that claim, or "".
  function ClaimVolume(vs: seq<Volume>, claim: string): string {
    if vs == [] then ""
    else if vs[0].source == Claim(claim) then vs[0].name
    else ClaimVolume(vs[1..], claim)
  }

  function SlugChar(c: char): char {
    if c == '_' then '-' else LowerChar(c)
  }

  function Slug(s: string): (r: string)
    ensures |r| == |s|
  {
    seq(|s|, i requires 0 <= i < |s| => SlugChar(s[i]))
  }

  function TrimPrefix(s: string, prefix: string): string {
    if prefix <= s then s[|prefix|..] else s
  }

  function DiskDir(v: VmiVolume): Path {
    PRIVATE + ["vmi-disks", v.name]
  }

  function ImportVolumeName(v: VmiVolume): string {
    "import-src-" + Slug(v.name)
  }

  function ImportVolume(v: VmiVolume, m: DvMeta): Volume {
    Volume(ImportVolumeName(v), Image(TrimPrefix(TrimPrefix(m.url, "docker://"), "oci://")))
  }

  function ImportMountPath(v: VmiVolume): Path {
    ["var", "run", "import-source", v.name]
  }

  // The init container that provisions the disk of one VMI volume.
  function ProvisionInit(v: VmiVolume, m: DvMeta, podVolume: string, image: string): Container {
    if m.url != "" then
      Container("import-disk-" + Slug(v.name), image, ImportDisk(DiskDir(v), ImportMountPath(v), m.size),
        [Mount(podVolume, DiskDir(v), [], false), Mount(ImportVolumeName(v), ImportMountPath(v), [], true)], None)
    else
      Container("init-disk-" + Slug(v.name), image, InitDisk(DiskDir(v), m.size),
        [Mount(podVolume, DiskDir(v), [], false)], None)
  }

  // A VMI volume gets an init container if its DataVolume has a template with a positive size and the
  // pod has a volume for its claim.
  predicate NeedsDisk(v: VmiVolume, ts: seq<Template>, vs: seq<Volume>) {
    && v.dataVolume.Some?
    && LookupMeta(ts, v.dataVolume.value).Some?
    && LookupMeta(ts, v.dataVolume.value).value.size > 0
    && ClaimVolume(vs, v.dataVolume.value) != ""
  }

  function Selected(vols: seq<VmiVolume>, ts: seq<Template>, vs: seq<Volume>): seq<VmiVolume> {
    if vols == [] then []
    else Selected(vols[..|vols| - 1], ts, vs) + if NeedsDisk(Last(vols), ts, vs) then [Last(vols)] else []
  }

  function InitFor(v: VmiVolume, ts: seq<Template>, vs: seq<Volume>, image: string): Container
    requires NeedsDisk(v, ts, vs)
  {
    ProvisionInit(v, LookupMeta(ts, v.dataVolume.value).value, ClaimVolume(vs, v.dataVolume.value), image)
  }

  // The positions of the volumes that need a disk.
  function SelectedAt(vols: seq<VmiVolume>, ts: seq<Template>, vs: seq<Volume>): (r: seq<nat>)
    ensures forall i :: 0 <= i < |r| ==> r[i] < |vols|
  {
    if vols == [] then []
    else SelectedAt(vols[..|vols| - 1], ts, vs) + if NeedsDisk(Last(vols), ts, vs) then [|vols| - 1] else []
  }

  // The selection has each of those volumes once per occurrence, in VMI order, and no other.
  lemma {:induction false} SelectedNeedDisk(vols: seq<VmiVolume>, ts: seq<Template>, vs: seq<Volume>)
    ensures var sel, at := Selected(vols, ts, vs), SelectedAt(vols, ts, vs);
      && |sel| == |at| && (forall i :: 0 <= i < |at| ==> sel[i] == vols[at[i]])
      && (forall i, j :: 0 <= i < j < |at| ==> at[i] < at[j])
      && (forall k :: 0 <= k < |vols| ==> (k in at <==> NeedsDisk(vols[k], ts, vs)))
  {
    if vols == [] {
    } else {
      var front := vols[..|vols| - 1];
      SelectedNeedDisk(front, ts, vs);
      assert vols == front + [Last(vols)];
      var at := SelectedAt(front, ts, vs);
      assert forall k :: k in at ==> k < |front|;
    }
  }

  // In VMI order, the init containers of the selected volumes ...
  function DataVolumeInits(vols: seq<VmiVolume>, ts: seq<Template>, vs: seq<Volume>, image: string): seq<Container> {
    if vols == [] then []
    else
      DataVolumeInits(vols[..|vols| - 1], ts, vs, image)
      + if NeedsDisk(Last(vols), ts, vs) then [InitFor(Last(vols), ts, vs, image)] else []
  }

  predicate Imported(v: VmiVolume, ts: seq<Template>, vs: seq<Volume>) {
    NeedsDisk(v, ts, vs) && LookupMeta(ts, v.dataVolume.value).value.url != ""
  }

  // ... and the image volumes of those among them that are imported.
  function ImportVolumes(vols: seq<VmiVolume>, ts: seq<Template>, vs: seq<Volume>): seq<Volume> {
    if vols == [] then []
    else
      ImportVolumes(vols[..|vols| - 1], ts, vs)
      + if Imported(Last(vols), ts, vs)
        then [ImportVolume(Last(vols), LookupMeta(ts, Last(vols).dataVolume.value).value)]
        else []
  }

  function WithDataVolumes(p: PodSpec, vmi: Vmi, ts: seq<Template>, image: string): PodSpec {
    p.(volumes := p.volumes + ImportVolumes(vmi.volumes, ts, p.volumes),
       inits := DataVolumeInits(vmi.volumes, ts, p.volumes, image) + p.inits)
  }

  // -------- cleanup: native sidecars become containers --------

  predicate IsAlways(c: Container) {
    c.restartPolicy == Some(ALWAYS)
  }

  function Kept(cs: seq<Container>): seq<Container> {
    if cs == [] then [] else Kept(cs[..|cs| - 1]) + if IsAlways(Last(cs)) then [] else [Last(cs)]
  }

  function Promoted(cs: seq<Container>): seq<Container> {
    if cs == [] then []
    else Promoted(cs[..|cs| - 1]) + if IsAlways(Last(cs)) then [Last(cs).(restartPolicy := None)] else []
  }

  function Cleaned(p: PodSpec): PodSpec {
    p.(inits := Kept(p.inits), containers := p.containers + Promoted(p.inits))
  }

  // -------- the directory init container --------

  function HasSuffix(s: string, suffix: string): bool {
    |suffix| <= |s| && s[|s| - |suffix|..] == suffix
  }

  // The last occurrence of c, or -1.
  function LastIndex(s: string, c: char): (i: int)
    ensures -1 <= i < |s| && (i >= 0 ==> s[i] == c)
    ensures forall j :: i < j < |s| ==> s[j] != c
  {
    if s == "" then -1 else if Last(s) == c then |s| - 1 else LastIndex(s[..|s| - 1], c)
  }

  function VolumeKey(name: string): string {
    if HasSuffix(name, "-empty") then
      var trimmed := name[..|name| - 6];
      var idx := LastIndex(trimmed, '-');
      if idx >= 0 then trimmed[idx + 1..] else name
    else name
  }

  predicate NeedsDirs(v: Volume) {
    v.source.EmptyDir? && VolumeKey(v.name) == "private"
  }

  function PrivateVolumes(vs: seq<Volume>): seq<Volume> {
    if vs == [] then [] else PrivateVolumes(vs[..|vs| - 1]) + if NeedsDirs(Last(vs)) then [Last(vs)] else []
  }

  function DirMount(v: Volume): Mount {
    Mount(v.name, ["emptydir", v.name], [], false)
  }

  function Mkdir(dir: string): string {
    "mkdir -p " + dir
  }

  function DirCommand(v: Volume): string {
    Mkdir("/emptydir/" + v.name + "/libvirt/qemu")
  }

  function DirMounts(vs: seq<Volume>): (r: seq<Mount>)
    ensures |r| == |vs|
  {
    seq(|vs|, i requires 0 <= i < |vs| => DirMount(vs[i]))
  }

  function DirCommands(vs: seq<Volume>): (r: seq<string>)
    ensures |r| == |vs|
  {
    seq(|vs|, i requires 0 <= i < |vs| => DirCommand(vs[i]))
  }

  function JoinAnd(cmds: seq<string>): string {
    if cmds == [] then "" else if |cmds| == 1 then cmds[0] else cmds[0] + " && " + JoinAnd(cmds[1..])
  }

  function Bash(script: string): Program {
    Argv(["/bin/bash", "-c", script])
  }

  function DirInit(vs: seq<Volume>, image: string): Container {
    Container(DIR_INIT, image, Bash(JoinAnd(DirCommands(vs))), DirMounts(vs), None)
  }

  function WithDirInit(p: PodSpec, image: string): PodSpec {
    var vs := PrivateVolumes(p.volumes);
    if vs == [] then p else p.(inits := [DirInit(vs, image)] + p.inits)
  }

  // -------- the passt patcher --------

  const PASST_BIN := Attachment(EmptyDir, Mount("passt-bin", ["passt-bin"], [], true))

  function PatcherInit(image: string): Container {
    Container("passt-binary-patcher", image, PatchPasst, [Mount("passt-bin", ["passt-bin"], [], false)], None)
  }

  function WithPatcher(p: PodSpec, image: string): PodSpec {
    var q := Attached(p, [PASST_BIN]);
    q.(inits := q.inits + [PatcherInit(image)])
  }

  // -------- persistent state --------

  const VM_STATE := "vm-state"
  const LIBVIRT: Path := PRIVATE + ["libvirt"]
  const QEMU: Path := LIBVIRT + ["qemu"]
  const NVRAM: Path := QEMU + ["nvram"]
  const SWTPM: Path := QEMU + ["swtpm"]
  const LOCALCA: Path := PRIVATE + ["var", "lib", "swtpm-localca"]

  function StateClaim(vmi: Vmi): string {
    vmi.name + "-vm-state"
  }

  function StateVolumes(vmi: Vmi): seq<Volume> {
    [Volume(VM_STATE, Claim(StateClaim(vmi))),
     Volume("private-libvirt", EmptyDir), Volume("private-libvirt-qemu", EmptyDir)]
  }

  const STATE_MOUNTS := [
    Mount("private-libvirt", LIBVIRT, [], false),
    Mount("private-libvirt-qemu", QEMU, [], false),
    Mount(VM_STATE, NVRAM, ["nvram"], false),
    Mount(VM_STATE, SWTPM, ["swtpm"], false),
    Mount(VM_STATE, LOCALCA, ["swtpm-localca"], false)]

  const STATE_INIT_MOUNT := Mount(VM_STATE, ["vm-state-init"], [], false)

  const STATE_COMMANDS :=
    [Mkdir("/vm-state-init/nvram"), Mkdir("/vm-state-init/swtpm"), Mkdir("/vm-state-init/swtpm-localca")]

  // The directory init container also makes the sub-directories of vm-state.
  function WithStateDirs(c: Container): Container {
    var m := c.(mounts := c.mounts + [STATE_INIT_MOUNT]);
    if c.program.Argv? && |c.program.argv| == 3 && c.program.argv[0] == "/bin/bash" && c.program.argv[1] == "-c"
    then m.(program := Bash(c.program.argv[2] + " && " + JoinAnd(STATE_COMMANDS)))
    else m
  }

  function WithStateInit(cs: seq<Container>): (r: seq<Container>)
    ensures |r| == |cs|
  {
    var i := Named(cs, DIR_INIT);
    if i < |cs| then cs[i := WithStateDirs(cs[i])] else cs
  }

  function WithState(p: PodSpec, vmi: Vmi): PodSpec {
    PodSpec(p.volumes + StateVolumes(vmi), WithStateInit(p.inits), WithMounts(p.containers, COMPUTE, STATE_MOUNTS))
  }

  // -------- all stages --------

  // The pod that the last stage receives.
  function BeforeState(p: PodSpec, vmi: Vmi, ts: seq<Template>, o: Options): PodSpec {
    var devices := WithHostDevices(WithProxies(p, o), vmi);
    var clean := WithDirInit(Cleaned(WithDataVolumes(devices, vmi, ts, o.launcherImage)), o.launcherImage);
    if o.passtWorkarounds then WithPatcher(clean, o.launcherImage) else clean
  }

  function Adapted(p: PodSpec, vmi: Vmi, ts: seq<Template>, o: Options): PodSpec {
    WithState(BeforeState(p, vmi, ts, o), vmi)
  }
}
