// The disk provisioning scripts as a state machine.
//
// One run of a script is a sequence of process states.  Every command may complete, fail
// (after which `set -e` sends control to the EXIT trap), or be cut short by a kill; a run may also
// simply stop between two commands.  `qemu-img` is known only through the contracts below.
module DiskScript {
  import opened Common

  // What a run finds in its environment: nothing for the blank script; for the import script, the
  // raw conversion of the first disk image under the source mount, if there is one.
  datatype Mode = Blank | Import(image: Option<Bytes>)

  datatype Boot = Boot(mode: Mode, size: nat)

  // The volume's disk.img and disk.img.partial.
  datatype Files = Files(disk: Option<Bytes>, tmp: Option<Bytes>)

  // One constructor per command, in script order.
  datatype Pc =
    | RmStale        // rm -f "$TMP"
    | SetTrap        // trap ... EXIT
    | TestDisk       // [ ! -f "$DISK" ]
    | FindSource     // find ... | head -1, and the emptiness test
    | Fill           // qemu-img convert / qemu-img create, into TMP
    | StatTmp        // CURRENT=$(stat "$TMP")
    | TestGrowTmp    // [ "$SIZE" -gt "$CURRENT" ]      (import only)
    | GrowTmp        // qemu-img resize "$TMP"          (import only)
    | RestatTmp      // CURRENT=$(stat "$TMP")          (import only)
    | CheckTmp       // [ "$CURRENT" -lt "$SIZE" ]
    | Rename         // mv -f "$TMP" "$DISK"
    | StatDisk       // CURRENT=$(stat "$DISK")
    | TestGrowDisk   // [ "$SIZE" -gt "$CURRENT" ]
    | GrowDisk       // qemu-img resize "$DISK"
    | Trap(status: nat)    // rm -f "$TMP", run on EXIT
    | Exited(code: nat)
    | Killed

  datatype Proc = Proc(pc: Pc, vol: Files, current: nat)

  // How much is assumed of a qemu-img command that reports success: only that it keeps (or
  // zero-fills) data, or also that it produces the size it was asked for.
  datatype Tools = AnySize | Exact

  // -------- bytes --------

  function Zeros(n: nat): (z: Bytes)
    ensures |z| == n
  {
    seq(n, _ => 0)
  }

  predicate AllZero(s: Bytes) {
    forall i :: 0 <= i < |s| ==> s[i] == 0
  }

  function Pad(s: Bytes, n: nat): (r: Bytes)
    ensures s <= r && |r| == Max(|s|, n)
  {
    if |s| < n then s + Zeros(n - |s|) else s
  }

  function Max(a: nat, b: nat): nat {
    if a < b then b else a
  }

  // -------- contracts of qemu-img --------

  predicate Filled(b: Boot, tools: Tools, t: Bytes) {
    match b.mode
    case Blank => if tools.Exact? then t == Zeros(b.size) else AllZero(t)
    case Import(image) => image.Some? && t == image.value
  }

  predicate Grown(tools: Tools, old': Bytes, size: nat, new': Bytes) {
    if tools.Exact? then new' == Pad(old', size) else old' <= new'
  }

  // A grow that failed or was killed keeps the data, and never overshoots an exact target.
  predicate TornGrow(tools: Tools, old': Bytes, size: nat, new': Bytes) {
    old' <= new' && (tools.Exact? ==> new' <= Pad(old', size))
  }

  // -------- steps --------

  predicate Running(pc: Pc) {
    !pc.Exited? && !pc.Killed?
  }

  // The command at p.pc completes with status zero.
  predicate Command(b: Boot, tools: Tools, p: Proc, p': Proc) {
    match p.pc
    case RmStale => p' == p.(pc := SetTrap, vol := p.vol.(tmp := None))
    case SetTrap => p' == p.(pc := TestDisk)
    case TestDisk =>
      p' == p.(pc := if p.vol.disk.Some? then StatDisk else if b.mode.Import? then FindSource else Fill)
    case FindSource => p' == p.(pc := if b.mode == Import(None) then Trap(1) else Fill)
    case Fill =>
      && p'.vol.tmp.Some? && Filled(b, tools, p'.vol.tmp.value)
      && p' == p.(pc := StatTmp, vol := p.vol.(tmp := p'.vol.tmp))
    case StatTmp =>
      && p.vol.tmp.Some?
      && p' == p.(pc := if b.mode.Import? then TestGrowTmp else CheckTmp, current := |p.vol.tmp.value|)
    case TestGrowTmp => p' == p.(pc := if b.size > p.current then GrowTmp else CheckTmp)
    case GrowTmp =>
      && p.vol.tmp.Some? && p'.vol.tmp.Some?
      && Grown(tools, p.vol.tmp.value, b.size, p'.vol.tmp.value)
      && p' == p.(pc := RestatTmp, vol := p.vol.(tmp := p'.vol.tmp))
    case RestatTmp => p.vol.tmp.Some? && p' == p.(pc := CheckTmp, current := |p.vol.tmp.value|)
    case CheckTmp => p' == p.(pc := if p.current < b.size then Trap(1) else Rename)
    case Rename => p.vol.tmp.Some? && p' == p.(pc := Trap(0), vol := Files(p.vol.tmp, None))
    case StatDisk => p.vol.disk.Some? && p' == p.(pc := TestGrowDisk, current := |p.vol.disk.value|)
    case TestGrowDisk => p' == p.(pc := if b.size > p.current then GrowDisk else Trap(0))
    case GrowDisk =>
      && p.vol.disk.Some? && p'.vol.disk.Some?
      && Grown(tools, p.vol.disk.value, b.size, p'.vol.disk.value)
      && p' == p.(pc := Trap(0), vol := p.vol.(disk := p'.vol.disk))
    case Trap(status) => p' == p.(pc := Exited(status), vol := p.vol.(tmp := None))
    case Exited(_) => false
    case Killed => false
  }

  // What the volume may look like when the command at p.pc fails or is cut short: unlink and rename
  // take effect wholly or not at all, a half-written TMP holds anything, a grow keeps the data.
  predicate Torn(b: Boot, tools: Tools, p: Proc, v: Files) {
    match p.pc
    case RmStale => v == p.vol || v == p.vol.(tmp := None)
    case Trap(_) => v == p.vol || v == p.vol.(tmp := None)
    case Fill => v.disk == p.vol.disk
    case GrowTmp => v.disk == p.vol.disk
    case Rename => v == p.vol || (p.vol.tmp.Some? && v == Files(p.vol.tmp, None))
    case GrowDisk =>
      v == p.vol || (p.vol.disk.Some? && v.disk.Some? && v.tmp == p.vol.tmp &&
                     TornGrow(tools, p.vol.disk.value, b.size, v.disk.value))
    case _ => v == p.vol
  }

  // Where `set -e` leads: before the trap is set the shell just exits; a failing trap makes the exit
  // status non-zero; everything else goes through the trap.
  function FailPc(pc: Pc): Pc {
    match pc
    case RmStale => Exited(1)
    case SetTrap => Exited(1)
    case Trap(_) => Exited(1)
    case _ => Trap(1)
  }

  predicate Step(b: Boot, tools: Tools, p: Proc, p': Proc) {
    || Command(b, tools, p, p')
    || (Running(p.pc) && Torn(b, tools, p, p'.vol) && p'.current == p.current &&
        (p'.pc == FailPc(p.pc) || p'.pc == Killed))
  }

  // -------- runs and histories --------

  function Start(v: Files): Proc {
    Proc(RmStale, v, 0)
  }

  ghost predicate IsRun(b: Boot, tools: Tools, v: Files, tr: seq<Proc>) {
    && |tr| > 0
    && tr[0] == Start(v)
    && forall i :: 0 < i < |tr| ==> Step(b, tools, tr[i - 1], tr[i])
  }

  ghost predicate Succeeded(tr: seq<Proc>)
    requires |tr| > 0
  {
    Last(tr).pc == Exited(0)
  }

  // Between runs the guest may rewrite its disk in place.
  datatype Event = Run(boot: Boot, trace: seq<Proc>) | GuestWrite(content: Bytes)

  ghost predicate IsEvent(tools: Tools, v: Files, e: Event) {
    match e
    case Run(b, tr) => IsRun(b, tools, v, tr)
    case GuestWrite(d) => v.disk.Some? && |d| == |v.disk.value|
  }

  function After(v: Files, e: Event): Files {
    match e
    case Run(_, tr) => if |tr| > 0 then Last(tr).vol else v
    case GuestWrite(d) => v.(disk := Some(d))
  }

  function AfterAll(v: Files, es: seq<Event>): Files
    decreases |es|
  {
    if es == [] then v else AfterAll(After(v, es[0]), es[1..])
  }

  ghost predicate IsHistory(tools: Tools, v: Files, es: seq<Event>)
    decreases |es|
  {
    es != [] ==> IsEvent(tools, v, es[0]) && IsHistory(tools, After(v, es[0]), es[1..])
  }
}
