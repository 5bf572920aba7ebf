// The provisioning scripts themselves, as code that changes the volume command by command.  Every
// command may fail; a script that exits is then proved to have been a run of the state machine.
module DiskRunner {
  import opened Common
  import opened DiskScript
  import DiskSafety

  lemma ExtendRun(b: Boot, tools: Tools, v: Files, tr: seq<Proc>, p: Proc)
    requires IsRun(b, tools, v, tr) && Step(b, tools, Last(tr), p)
    ensures IsRun(b, tools, v, tr + [p])
  {
  }

  lemma ExitedRun(b: Boot, tools: Tools, v: Files, tr: seq<Proc>)
    requires IsRun(b, tools, v, tr) && Last(tr).pc.Exited?
    ensures DiskSafety.DiskOutcome(b, tools, v.disk, Last(tr).vol.disk)
    ensures Succeeded(tr) ==> Last(tr).vol.tmp.None? && DiskSafety.DiskDone(b, tools, v.disk, Last(tr).vol.disk)
    ensures Succeeded(tr) ==> v.disk.Some? || b.mode != Import(None)
    ensures Succeeded(tr) && tools.Exact? ==>
              Last(tr).vol == Files(Some(DiskSafety.Provisioned(b, v.disk)), None)
  {
    DiskSafety.RunKeepsInv(b, tools, v, tr, |tr| - 1);
    if Succeeded(tr) && tools.Exact? {
      DiskSafety.SuccessIsProvisioned(b, v, tr);
    }
  }

  // Which of the commands fail in this run (a kill never returns to the caller).
  datatype Faults = Faults(
    rm: bool, find: bool, fill: bool, statTmp: bool, growTmp: bool, restatTmp: bool, mv: bool,
    statDisk: bool, growDisk: bool, trapRm: bool)

  const NO_FAULTS := Faults(false, false, false, false, false, false, false, false, false, false)

  class DataVolume {
    var disk: Option<Bytes>
    var tmp: Option<Bytes>

    constructor (v: Files)
      ensures Contents() == v
    {
      disk, tmp := v.disk, v.tmp;
    }

    function Contents(): Files
      reads this
    {
      Files(disk, tmp)
    }

    // rm -f "$TMP"
    method RemoveTmp(fails: bool) returns (ok: bool)
      modifies this`tmp
      ensures ok == !fails
      ensures tmp.None? || (!ok && tmp == old(tmp))
    {
      ok := !fails;
      var removed: bool := *;
      if ok || removed {
        tmp := None;
      }
    }

    // qemu-img convert -O raw "$SOURCE" "$TMP", or qemu-img create -f raw "$TMP" "$SIZE"
    method FillTmp(b: Boot, tools: Tools, fails: bool) returns (ok: bool)
      requires b.mode != Import(None)
      modifies this`tmp
      ensures ok == !fails
      ensures ok ==> tmp.Some? && Filled(b, tools, tmp.value)
    {
      ok := !fails;
      var written: Option<Bytes> := *;
      tmp := written;
      if ok && !(written.Some? && Filled(b, tools, written.value)) {
        tmp := if b.mode.Import? then b.mode.image else Some(Zeros(b.size));
      }
    }

    // qemu-img resize -f raw "$TMP" "$SIZE"
    method ResizeTmp(size: nat, tools: Tools, fails: bool) returns (ok: bool)
      requires tmp.Some?
      modifies this`tmp
      ensures ok == !fails
      ensures ok ==> tmp.Some? && Grown(tools, old(tmp).value, size, tmp.value)
    {
      ok := !fails;
      var written: Option<Bytes> := *;
      if ok && !(written.Some? && Grown(tools, tmp.value, size, written.value)) {
        written := Some(Pad(tmp.value, size));
      }
      tmp := written;
    }

    // mv -f "$TMP" "$DISK"
    method MoveTmpToDisk(fails: bool) returns (ok: bool)
      requires tmp.Some?
      modifies this
      ensures ok == !fails
      ensures ok ==> Contents() == Files(old(tmp), None)
      ensures !ok ==> Contents() == old(Contents())
    {
      ok := !fails;
      if ok {
        disk, tmp := tmp, None;
      }
    }

    // qemu-img resize -f raw "$DISK" "$SIZE"
    method ResizeDisk(size: nat, tools: Tools, fails: bool) returns (ok: bool)
      requires disk.Some?
      modifies this`disk
      ensures ok == !fails
      ensures disk.Some? && (TornGrow(tools, old(disk).value, size, disk.value) || (!ok && disk == old(disk)))
      ensures ok ==> Grown(tools, old(disk).value, size, disk.value)
    {
      ok := !fails;
      var written: Bytes := *;
      if ok && !Grown(tools, disk.value, size, written) {
        written := Pad(disk.value, size);
      }
      if TornGrow(tools, disk.value, size, written) {
        disk := Some(written);
      }
    }

    // Grow an imported image that is smaller than SIZE.
    method GrowImported(b: Boot, tools: Tools, faults: Faults, ghost v: Files, ghost before: seq<Proc>, measured: nat)
      returns (ok: bool, current: nat, ghost tr: seq<Proc>)
      requires IsRun(b, tools, v, before) && tmp.Some?
      requires Last(before) == Proc(TestGrowTmp, Contents(), measured)
      modifies this`tmp
      ensures IsRun(b, tools, v, tr)
      ensures Last(tr) == Proc(if ok then CheckTmp else Trap(1), Contents(), current)
      ensures ok ==> tmp.Some?
      ensures !faults.growTmp && !faults.restatTmp ==>
        ok && (tools.Exact? && measured == |old(tmp).value| ==> b.size <= current)
    {
      tr, current, ok := before, measured, true;
      if b.size > current {
        tr := Record(b, tools, v, tr, GrowTmp, current);
        ok := ResizeTmp(b.size, tools, faults.growTmp);
        if ok {
          tr := Record(b, tools, v, tr, RestatTmp, current);
          ok := !faults.restatTmp;
          current := if ok then |tmp.value| else current;
        }
      }
      tr := Record(b, tools, v, tr, if ok then CheckTmp else Trap(1), current);
    }

    // Refuse an image that is too small, otherwise rename it into place.
    method PublishTmp(b: Boot, tools: Tools, faults: Faults, ghost v: Files, ghost before: seq<Proc>, current: nat)
      returns (status: nat, ghost tr: seq<Proc>)
      requires IsRun(b, tools, v, before) && tmp.Some?
      requires Last(before) == Proc(CheckTmp, Contents(), current)
      modifies this
      ensures IsRun(b, tools, v, tr)
      ensures Last(tr).pc == Trap(status) && Last(tr).vol == Contents()
      ensures status == 0 <==> b.size <= current && !faults.mv
    {
      tr := before;
      if current < b.size {
        status := 1;
      } else {
        tr := Record(b, tools, v, tr, Rename, current);
        var ok := MoveTmpToDisk(faults.mv);
        status := if ok then 0 else 1;
      }
      tr := Record(b, tools, v, tr, Trap(status), current);
    }

    // The branch taken when there is no disk yet.
    method FirstBoot(b: Boot, tools: Tools, faults: Faults, ghost v: Files, ghost before: seq<Proc>)
      returns (status: nat, ghost tr: seq<Proc>)
      requires IsRun(b, tools, v, before) && disk.None?
      requires Last(before) == Proc(if b.mode.Import? then FindSource else Fill, Contents(), 0)
      modifies this
      ensures IsRun(b, tools, v, tr)
      ensures Last(tr).pc == Trap(status) && Last(tr).vol == Contents()
      ensures faults == NO_FAULTS && tools.Exact? && b.mode != Import(None) ==> status == 0
    {
      tr, status := before, 1;
      if b.mode == Import(None) || (b.mode.Import? && faults.find) {
        tr := Record(b, tools, v, tr, Trap(1), 0);
        return;
      }
      if b.mode.Import? {
        tr := Record(b, tools, v, tr, Fill, 0);
      }
      var ok := FillTmp(b, tools, faults.fill);
      tr := Record(b, tools, v, tr, if ok then StatTmp else Trap(1), 0);
      if !ok {
        return;
      }
      if faults.statTmp {
        tr := Record(b, tools, v, tr, Trap(1), 0);
        return;
      }
      var current := |tmp.value|;
      if b.mode.Import? {
        tr := Record(b, tools, v, tr, TestGrowTmp, current);
        ok, current, tr := GrowImported(b, tools, faults, v, tr, current);
      } else {
        tr := Record(b, tools, v, tr, CheckTmp, current);
      }
      if ok {
        status, tr := PublishTmp(b, tools, faults, v, tr, current);
      }
    }

    // The branch taken when the disk exists: grow it, never shrink it.
    method LaterBoot(b: Boot, tools: Tools, faults: Faults, ghost v: Files, ghost before: seq<Proc>)
      returns (status: nat, ghost tr: seq<Proc>)
      requires IsRun(b, tools, v, before) && disk.Some?
      requires Last(before) == Proc(StatDisk, Contents(), 0)
      modifies this
      ensures IsRun(b, tools, v, tr)
      ensures Last(tr).pc == Trap(status) && Last(tr).vol == Contents()
      ensures !faults.statDisk && !faults.growDisk ==> status == 0
    {
      tr := before;
      if faults.statDisk {
        tr := Record(b, tools, v, tr, Trap(1), 0);
        status := 1;
        return;
      }
      var current := |disk.value|;
      tr := Record(b, tools, v, tr, TestGrowDisk, current);
      status := 0;
      if b.size > current {
        tr := Record(b, tools, v, tr, GrowDisk, current);
        var ok := ResizeDisk(b.size, tools, faults.growDisk);
        status := if ok then 0 else 1;
      }
      tr := Record(b, tools, v, tr, Trap(status), current);
    }

    // From the test for a disk to the end of the `if`.
    method RunBody(b: Boot, tools: Tools, faults: Faults, ghost v: Files, ghost before: seq<Proc>)
      returns (status: nat, ghost tr: seq<Proc>)
      requires IsRun(b, tools, v, before) && Last(before) == Proc(TestDisk, Contents(), 0)
      modifies this
      ensures IsRun(b, tools, v, tr)
      ensures Last(tr).pc == Trap(status) && Last(tr).vol == Contents()
      ensures faults == NO_FAULTS && tools.Exact? && (old(disk).Some? || b.mode != Import(None)) ==> status == 0
    {
      if disk.None? {
        tr := Record(b, tools, v, before, if b.mode.Import? then FindSource else Fill, 0);
        status, tr := FirstBoot(b, tools, faults, v, tr);
      } else {
        tr := Record(b, tools, v, before, StatDisk, 0);
        status, tr := LaterBoot(b, tools, faults, v, tr);
      }
    }

    // The whole script.
    method RunScript(b: Boot, tools: Tools, faults: Faults) returns (status: nat, ghost tr: seq<Proc>)
      modifies this
      ensures IsRun(b, tools, old(Contents()), tr)
      ensures Last(tr).pc == Exited(status) && Last(tr).vol == Contents()
      ensures DiskSafety.DiskOutcome(b, tools, old(disk), disk)
      ensures !faults.rm && !faults.trapRm ==> tmp.None? && DiskSafety.ExitsCleanly(b, tools, tr)
      ensures faults.rm || faults.trapRm ==> status == 1
      ensures status == 0 ==> tmp.None? && DiskSafety.DiskDone(b, tools, old(disk), disk)
      ensures status == 0 && tools.Exact? ==>
                Contents() == Files(Some(DiskSafety.Provisioned(b, old(disk))), None)
      ensures faults == NO_FAULTS && tools.Exact? ==>
                (status == 0 <==> old(disk).Some? || b.mode != Import(None))
    {
      ghost var v := Contents();
      tr := [Start(v)];
      var ok := RemoveTmp(faults.rm);
      if !ok {
        tr := Record(b, tools, v, tr, Exited(1), 0);
        status := 1;
      } else {
        tr := Record(b, tools, v, tr, SetTrap, 0);
        tr := Record(b, tools, v, tr, TestDisk, 0);
        status, tr := RunBody(b, tools, faults, v, tr);
        ghost var current := Last(tr).current;
        ghost var trap := tr;
        ok := RemoveTmp(faults.trapRm);
        status := if ok then status else 1;
        tr := Record(b, tools, v, tr, Exited(status), current);
        if ok {
          assert tr[|tr| - 2] == Last(trap);
          DiskSafety.TrapExitsCleanly(b, tools, v, tr);
        }
      }
      ExitedRun(b, tools, v, tr);
    }

    // Bookkeeping: the process state reached after a command.
    ghost method Record(b: Boot, tools: Tools, v: Files, tr: seq<Proc>, pc: Pc, current: nat) returns (r: seq<Proc>)
      requires IsRun(b, tools, v, tr) && Step(b, tools, Last(tr), Proc(pc, Contents(), current))
      ensures IsRun(b, tools, v, r) && r == tr + [Proc(pc, Contents(), current)]
    {
      ExtendRun(b, tools, v, tr, Proc(pc, Contents(), current));
      r := tr + [Proc(pc, Contents(), current)];
    }
  }
}
