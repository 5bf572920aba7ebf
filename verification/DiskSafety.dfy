// What the provisioning scripts guarantee over every run and every history of boots.
module DiskSafety {
  import opened Common
  import opened DiskScript

  // -------- single-run invariant --------

  // A first-boot image that may be published as the disk: zeros, or the whole conversion of the
  // source followed by whatever growing it added.
  ghost predicate Good(b: Boot, t: Bytes) {
    match b.mode
    case Blank => AllZero(t)
    case Import(image) => image.Some? && image.value <= t
  }

  // The exact first-boot image.
  function Base(b: Boot): Bytes {
    if b.mode.Import? && b.mode.image.Some? then b.mode.image.value else []
  }

  ghost predicate Publishable(b: Boot, tools: Tools, t: Bytes) {
    Good(b, t) && b.size <= |t| && (tools.Exact? ==> t == Pad(Base(b), b.size))
  }

  // How the disk may differ from the one the run started with, at any moment of the run.
  ghost predicate DiskOutcome(b: Boot, tools: Tools, d0: Option<Bytes>, d: Option<Bytes>) {
    || d == d0
    || (d0.None? && d.Some? && Publishable(b, tools, d.value))
    || (d0.Some? && d.Some? && |d0.value| < b.size && TornGrow(tools, d0.value, b.size, d.value))
  }

  // How it differs once the run has exited with status zero.
  ghost predicate DiskDone(b: Boot, tools: Tools, d0: Option<Bytes>, d: Option<Bytes>) {
    && d.Some?
    && (d0.None? ==> Publishable(b, tools, d.value))
    && (d0.Some? ==> if b.size <= |d0.value| then d == d0 else Grown(tools, d0.value, b.size, d.value))
  }

  ghost predicate RunInv(b: Boot, tools: Tools, v0: Files, p: Proc) {
    var d0, d, t := v0.disk, p.vol.disk, p.vol.tmp;
    match p.pc
    case RmStale => p.vol == v0
    case SetTrap => d == d0 && t.None?
    case TestDisk => d == d0 && t.None?
    case FindSource => d == d0 && d0.None? && b.mode.Import?
    case Fill => d == d0 && d0.None? && b.mode != Import(None)
    case StatTmp => d == d0 && d0.None? && t.Some? && Filled(b, tools, t.value)
    case TestGrowTmp =>
      d == d0 && d0.None? && b.mode.Import? && t.Some? && Filled(b, tools, t.value) && p.current == |t.value|
    case GrowTmp => d == d0 && d0.None? && b.mode.Import? && t.Some? && Filled(b, tools, t.value) && |t.value| < b.size
    case RestatTmp =>
      d == d0 && d0.None? && t.Some? && Good(b, t.value) && (tools.Exact? ==> t.value == Pad(Base(b), b.size))
    case CheckTmp =>
      && d == d0 && d0.None? && t.Some? && Good(b, t.value) && p.current == |t.value|
      && (tools.Exact? ==> t.value == Pad(Base(b), b.size))
    case Rename => d == d0 && d0.None? && t.Some? && Publishable(b, tools, t.value)
    case StatDisk => d == d0 && d0.Some?
    case TestGrowDisk => d == d0 && d0.Some? && p.current == |d.value|
    case GrowDisk => d == d0 && d0.Some? && |d.value| < b.size
    case Trap(status) => DiskOutcome(b, tools, d0, d) && (status == 0 ==> DiskDone(b, tools, d0, d))
    case Exited(status) => DiskOutcome(b, tools, d0, d) && (status == 0 ==> DiskDone(b, tools, d0, d) && t.None?)
    case Killed => DiskOutcome(b, tools, d0, d)
  }

  lemma FilledIsGood(b: Boot, tools: Tools, t: Bytes)
    requires Filled(b, tools, t)
    ensures Good(b, t)
    ensures tools.Exact? && (b.mode.Blank? || b.size <= |t|) ==> t == Pad(Base(b), b.size)
    ensures b.mode.Import? ==> t == Base(b)
  {
    assert [] + Zeros(b.size) == Zeros(b.size);
  }

  lemma FirstBootCommandKeepsInv(b: Boot, tools: Tools, v0: Files, p: Proc, p': Proc)
    requires RunInv(b, tools, v0, p) && Command(b, tools, p, p')
    requires p.pc.StatTmp? || p.pc.TestGrowTmp? || p.pc.GrowTmp?
    ensures RunInv(b, tools, v0, p')
  {
    FilledIsGood(b, tools, p.vol.tmp.value);
  }

  lemma EarlyCommandKeepsInv(b: Boot, tools: Tools, v0: Files, p: Proc, p': Proc)
    requires RunInv(b, tools, v0, p) && Command(b, tools, p, p')
    requires p.pc.RmStale? || p.pc.SetTrap? || p.pc.TestDisk? || p.pc.FindSource? || p.pc.Fill?
    ensures RunInv(b, tools, v0, p')
  {
  }

  lemma LateCommandKeepsInv(b: Boot, tools: Tools, v0: Files, p: Proc, p': Proc)
    requires RunInv(b, tools, v0, p) && Command(b, tools, p, p')
    requires p.pc in {RestatTmp, CheckTmp, Rename, StatDisk, TestGrowDisk, GrowDisk} || p.pc.Trap?
    ensures RunInv(b, tools, v0, p')
  {
  }

  lemma StepKeepsInv(b: Boot, tools: Tools, v0: Files, p: Proc, p': Proc)
    requires RunInv(b, tools, v0, p) && Step(b, tools, p, p')
    ensures RunInv(b, tools, v0, p')
  {
    if Command(b, tools, p, p') {
      if p.pc.StatTmp? || p.pc.TestGrowTmp? || p.pc.GrowTmp? {
        FirstBootCommandKeepsInv(b, tools, v0, p, p');
      } else if p.pc.RmStale? || p.pc.SetTrap? || p.pc.TestDisk? || p.pc.FindSource? || p.pc.Fill? {
        EarlyCommandKeepsInv(b, tools, v0, p, p');
      } else {
        LateCommandKeepsInv(b, tools, v0, p, p');
      }
    }
  }

  lemma {:induction false} RunKeepsInv(b: Boot, tools: Tools, v: Files, tr: seq<Proc>, k: nat)
    requires IsRun(b, tools, v, tr) && k < |tr|
    ensures RunInv(b, tools, v, tr[k])
  {
    if k > 0 {
      RunKeepsInv(b, tools, v, tr, k - 1);
      StepKeepsInv(b, tools, v, tr[k - 1], tr[k]);
    }
  }

  // -------- where a disk comes from --------

  // Past Fill, a run has completed the fill itself: TMP is this run's work.
  lemma {:induction false} TmpIsFilledByThisRun(b: Boot, tools: Tools, v: Files, tr: seq<Proc>, k: nat)
    requires IsRun(b, tools, v, tr) && k < |tr|
    requires tr[k].pc in {StatTmp, TestGrowTmp, GrowTmp, RestatTmp, CheckTmp, Rename}
    ensures exists j :: 0 < j <= k && tr[j - 1].pc == Fill && tr[j].pc == StatTmp
  {
    assert Step(b, tools, tr[k - 1], tr[k]);
    if tr[k].pc != StatTmp {
      TmpIsFilledByThisRun(b, tools, v, tr, k - 1);
    } else {
      assert tr[k - 1].pc == Fill;
    }
  }

  // At step k the disk appears: by the rename of a TMP that this run filled and whose measured size
  // had just passed the check.
  ghost predicate Published(b: Boot, tools: Tools, tr: seq<Proc>, k: nat)
    requires k < |tr|
  {
    && 2 <= k
    && tr[k - 1].pc == Rename
    && tr[k - 1].vol.disk.None?
    && tr[k - 1].vol.tmp.Some?
    && tr[k].vol == Files(tr[k - 1].vol.tmp, None)
    && Publishable(b, tools, tr[k].vol.disk.value)
    && tr[k - 2].pc == CheckTmp
    && b.size <= tr[k - 2].current == |tr[k].vol.disk.value|
    && tr[k - 2].vol == tr[k - 1].vol
    && exists j :: 0 < j < k && tr[j - 1].pc == Fill && tr[j].pc == StatTmp
  }

  lemma AppearsAtRename(b: Boot, tools: Tools, v0: Files, p: Proc, p': Proc)
    requires RunInv(b, tools, v0, p) && Step(b, tools, p, p')
    requires p.vol.disk.None? && p'.vol.disk.Some?
    ensures p.pc == Rename && p.vol.tmp.Some? && p'.vol == Files(p.vol.tmp, None)
    ensures Publishable(b, tools, p.vol.tmp.value)
  {
  }

  lemma CheckComesBeforeRename(b: Boot, tools: Tools, v0: Files, p: Proc, p': Proc)
    requires RunInv(b, tools, v0, p) && Step(b, tools, p, p') && p'.pc == Rename
    ensures p.pc == CheckTmp && p'.vol == p.vol
    ensures p.vol.tmp.Some? && b.size <= p.current == |p.vol.tmp.value|
  {
  }

  lemma DiskAppearsByRename(b: Boot, tools: Tools, v: Files, tr: seq<Proc>, k: nat)
    requires IsRun(b, tools, v, tr) && 0 < k < |tr|
    requires tr[k - 1].vol.disk.None? && tr[k].vol.disk.Some?
    ensures Published(b, tools, tr, k)
  {
    RunKeepsInv(b, tools, v, tr, k - 1);
    AppearsAtRename(b, tools, v, tr[k - 1], tr[k]);
    assert tr[k - 1] != tr[0];
    RunKeepsInv(b, tools, v, tr, k - 2);
    CheckComesBeforeRename(b, tools, v, tr[k - 2], tr[k - 1]);
    TmpIsFilledByThisRun(b, tools, v, tr, k - 1);
  }

  lemma PublishedDiskStays(b: Boot, tools: Tools, v0: Files, p: Proc, p': Proc)
    requires RunInv(b, tools, v0, p) && Step(b, tools, p, p')
    requires v0.disk.None? && p.vol.disk.Some?
    ensures p'.vol.disk == p.vol.disk
  {
    assert p.pc.Trap? || !Running(p.pc);
  }

  lemma {:induction false} RunPublishes(b: Boot, tools: Tools, v: Files, tr: seq<Proc>, n: nat) returns (k: nat)
    requires IsRun(b, tools, v, tr) && n < |tr|
    requires v.disk.None? && tr[n].vol.disk.Some?
    ensures 0 < k <= n && Published(b, tools, tr, k)
    ensures tr[k].vol.disk == tr[n].vol.disk
  {
    if tr[n - 1].vol.disk.None? {
      DiskAppearsByRename(b, tools, v, tr, n);
      k := n;
    } else {
      k := RunPublishes(b, tools, v, tr, n - 1);
      RunKeepsInv(b, tools, v, tr, n - 1);
      PublishedDiskStays(b, tools, v, tr[n - 1], tr[n]);
    }
  }

  // Event k of a history is the run that created the disk, at its step i.
  ghost predicate CreatedBy(tools: Tools, v: Files, es: seq<Event>, k: nat, i: nat)
    requires k < |es|
  {
    && AfterAll(v, es[..k]).disk.None?
    && es[k].Run?
    && i < |es[k].trace|
    && Published(es[k].boot, tools, es[k].trace, i)
    && AfterAll(v, es[..k + 1]).disk == es[k].trace[i].vol.disk
  }

  lemma CreatedLater(tools: Tools, v: Files, es: seq<Event>, k: nat, i: nat)
    requires k + 1 < |es| && CreatedBy(tools, After(v, es[0]), es[1..], k, i)
    ensures CreatedBy(tools, v, es, k + 1, i)
  {
    assert es[1..][k] == es[k + 1];
    assert es[..k + 1][1..] == es[1..][..k];
    assert es[..k + 2][1..] == es[1..][..k + 1];
  }

  lemma CreatedAt(tools: Tools, v: Files, es: seq<Event>, k: nat) returns (i: nat)
    requires k < |es| && IsEvent(tools, AfterAll(v, es[..k]), es[k])
    requires AfterAll(v, es[..k + 1]) == After(AfterAll(v, es[..k]), es[k])
    requires AfterAll(v, es[..k]).disk.None? && AfterAll(v, es[..k + 1]).disk.Some?
    ensures CreatedBy(tools, v, es, k, i)
  {
    var e, w := es[k], AfterAll(v, es[..k]);
    i := RunPublishes(e.boot, tools, w, e.trace, |e.trace| - 1);
  }

  lemma AfterOne(v: Files, es: seq<Event>)
    requires es != []
    ensures AfterAll(v, es[..0]) == v && AfterAll(v, es[..1]) == After(v, es[0])
  {
    assert es[..1][1..] == [];
  }

  // Crash safety over all histories: a volume that had no disk only ever gets one that some run
  // of the history filled, checked and renamed, whatever was killed or left behind before.
  lemma {:induction false} HistoryCreatesDiskByRename(tools: Tools, v: Files, es: seq<Event>)
    requires IsHistory(tools, v, es)
    requires v.disk.None? && AfterAll(v, es).disk.Some?
    ensures exists k, i :: 0 <= k < |es| && CreatedBy(tools, v, es, k, i)
    decreases |es|
  {
    var v1 := After(v, es[0]);
    if v1.disk.Some? {
      AfterOne(v, es);
      var i := CreatedAt(tools, v, es, 0);
    } else {
      HistoryCreatesDiskByRename(tools, v1, es[1..]);
      var k, i :| 0 <= k < |es[1..]| && CreatedBy(tools, v1, es[1..], k, i);
      CreatedLater(tools, v, es, k, i);
    }
  }

  // A .partial left by an earlier boot has no influence: once it is removed, the run is a run from
  // any other leftover as well, and until then the disk is untouched.
  lemma StalePartialIsIrrelevant(b: Boot, tools: Tools, v: Files, tr: seq<Proc>, stale: Option<Bytes>)
    requires IsRun(b, tools, v, tr)
    requires |tr| >= 2 && tr[1].pc == SetTrap
    ensures IsRun(b, tools, v.(tmp := stale), [Start(v.(tmp := stale))] + tr[1..])
  {
    var v' := v.(tmp := stale);
    var tr' := [Start(v')] + tr[1..];
    assert Step(b, tools, tr[0], tr[1]);
    forall i | 0 < i < |tr'|
      ensures Step(b, tools, tr'[i - 1], tr'[i])
    {
      assert Step(b, tools, tr[i - 1], tr[i]);
    }
  }

  // -------- data preservation --------

  lemma RunPreservesDisk(b: Boot, tools: Tools, v: Files, tr: seq<Proc>, k: nat)
    requires IsRun(b, tools, v, tr) && k < |tr|
    requires v.disk.Some?
    ensures tr[k].vol.disk.Some? && v.disk.value <= tr[k].vol.disk.value
    ensures b.size <= |v.disk.value| ==> tr[k].vol.disk == v.disk
  {
    RunKeepsInv(b, tools, v, tr, k);
  }

  // Over any history the disk is never removed and never shrinks; without guest writes its bytes
  // are a prefix of the bytes after.
  lemma {:induction false} HistoryPreservesDisk(tools: Tools, v: Files, es: seq<Event>)
    requires IsHistory(tools, v, es)
    requires v.disk.Some?
    ensures var v' := AfterAll(v, es);
      && v'.disk.Some? && |v.disk.value| <= |v'.disk.value|
      && ((forall e :: e in es ==> e.Run?) ==> v.disk.value <= v'.disk.value)
    decreases |es|
  {
    if es == [] {
    } else {
      if es[0].Run? {
        RunPreservesDisk(es[0].boot, tools, v, es[0].trace, |es[0].trace| - 1);
      }
      HistoryPreservesDisk(tools, After(v, es[0]), es[1..]);
    }
  }

  // -------- successful runs --------

  lemma SuccessfulRun(b: Boot, tools: Tools, v: Files, tr: seq<Proc>)
    requires IsRun(b, tools, v, tr) && Succeeded(tr)
    ensures Last(tr).vol.tmp.None? && DiskDone(b, tools, v.disk, Last(tr).vol.disk)
  {
    RunKeepsInv(b, tools, v, tr, |tr| - 1);
  }

  // The first-boot branch measures what it publishes, so it meets SIZE whatever qemu-img did; the
  // grow of an existing disk is not measured, so there success means SIZE was met only if no grow was
  // needed.
  lemma SuccessMeetsSizeIff(b: Boot, v: Files)
    ensures (forall tr :: IsRun(b, AnySize, v, tr) && Succeeded(tr)
              ==> Last(tr).vol.disk.Some? && b.size <= |Last(tr).vol.disk.value|)
       <==> (v.disk.None? || b.size <= |v.disk.value|)
  {
    if v.disk.None? || b.size <= |v.disk.value| {
      forall tr | IsRun(b, AnySize, v, tr) && Succeeded(tr)
        ensures Last(tr).vol.disk.Some? && b.size <= |Last(tr).vol.disk.value|
      {
        SuccessfulRun(b, AnySize, v, tr);
      }
    } else {
      var w, n := v.(tmp := None), |v.disk.value|;
      var tr := [Start(v), Proc(SetTrap, w, 0), Proc(TestDisk, w, 0), Proc(StatDisk, w, 0),
                 Proc(TestGrowDisk, w, n), Proc(GrowDisk, w, n), Proc(Trap(0), w, n), Proc(Exited(0), w, n)];
      assert IsRun(b, AnySize, v, tr) && Succeeded(tr);
    }
  }

  // The disk a successful run leaves, when qemu-img produces exact sizes.
  function Provisioned(b: Boot, d: Option<Bytes>): Bytes {
    Pad(if d.Some? then d.value else Base(b), b.size)
  }

  lemma SuccessIsProvisioned(b: Boot, v: Files, tr: seq<Proc>)
    requires IsRun(b, Exact, v, tr) && Succeeded(tr)
    ensures Last(tr).vol == Files(Some(Provisioned(b, v.disk)), None)
  {
    SuccessfulRun(b, Exact, v, tr);
  }

  lemma PadPad(s: Bytes, m: nat, n: nat)
    ensures Pad(Pad(s, m), n) == Pad(s, Max(m, n))
  {
    var l, r := Pad(Pad(s, m), n), Pad(s, Max(m, n));
    forall i | 0 <= i < |l|
      ensures l[i] == r[i]
    {
    }
  }

  lemma PadWithin(s: Bytes, x: Bytes, n: nat)
    requires s <= x <= Pad(s, n)
    ensures Pad(x, n) == Pad(s, n)
  {
    var l, r := Pad(x, n), Pad(s, n);
    forall i | 0 <= i < |l|
      ensures l[i] == r[i]
    {
    }
  }

  function MaxSize(es: seq<Event>): nat {
    if es == [] then 0
    else Max(MaxSize(es[..|es| - 1]), if Last(es).Run? then Last(es).boot.size else 0)
  }

  ghost predicate SuccessfulBoot(e: Event) {
    e.Run? && |e.trace| > 0 && Succeeded(e.trace)
  }

  // The largest size that a successful boot asked for.
  ghost function MaxSucceeded(es: seq<Event>): nat {
    if es == [] then 0
    else Max(MaxSucceeded(es[..|es| - 1]), if SuccessfulBoot(Last(es)) then Last(es).boot.size else 0)
  }

  // What was last put on the disk as a whole: by the guest, by the boot that created the disk, or before.
  ghost function LastPut(v: Files, es: seq<Event>): Option<Bytes> {
    if es == [] then v.disk
    else
      var front, last := es[..|es| - 1], Last(es);
      if last.GuestWrite? then Some(last.content)
      else if AfterAll(v, front).disk.None? && AfterAll(v, es).disk.Some? then Some(Base(last.boot))
      else LastPut(v, front)
  }

  // The boots since then, including the one that put it there.
  ghost function SincePut(v: Files, es: seq<Event>): seq<Event> {
    if es == [] then []
    else
      var front, last := es[..|es| - 1], Last(es);
      if last.GuestWrite? then []
      else if AfterAll(v, front).disk.None? then [last]
      else SincePut(v, front) + [last]
  }

  // What was first put on the disk.
  ghost function FirstPut(v: Files, es: seq<Event>): Option<Bytes> {
    if es == [] then v.disk
    else
      var front, last := es[..|es| - 1], Last(es);
      if FirstPut(v, front).Some? then FirstPut(v, front)
      else if last.Run? && AfterAll(v, es).disk.Some? then Some(Base(last.boot))
      else None
  }

  lemma {:induction false} HistoryBack(tools: Tools, v: Files, es: seq<Event>)
    requires IsHistory(tools, v, es) && es != []
    ensures var front := es[..|es| - 1];
      && IsHistory(tools, v, front) && IsEvent(tools, AfterAll(v, front), Last(es))
      && AfterAll(v, es) == After(AfterAll(v, front), Last(es))
    decreases |es|
  {
    if |es| == 1 {
      assert es[1..] == [];
    } else {
      HistoryBack(tools, After(v, es[0]), es[1..]);
      assert es[..|es| - 1][1..] == es[1..][..|es| - 2];
    }
  }

  // x is w zero-filled to some length of at least m and at most n, or of w itself.
  ghost predicate Filling(w: Bytes, m: nat, n: nat, x: Bytes) {
    x == Pad(w, |x|) && Max(|w|, m) <= |x| <= Max(|w|, n)
  }

  lemma PadFurther(w: Bytes, x: Bytes, y: Bytes, n: nat)
    requires x == Pad(w, |x|) && x <= y <= Pad(x, n)
    ensures y == Pad(w, |y|)
  {
    var r := Pad(w, |y|);
    forall i | 0 <= i < |y|
      ensures y[i] == r[i]
    {
      assert y[i] == Pad(x, n)[i];
    }
  }

  // What one more run does to a disk that is there.
  lemma RunOnDisk(b: Boot, v: Files, tr: seq<Proc>)
    requires IsRun(b, Exact, v, tr) && v.disk.Some?
    ensures var d, d' := v.disk.value, Last(tr).vol.disk;
      && d'.Some? && d <= d'.value <= Pad(d, b.size)
      && (Succeeded(tr) ==> d'.value == Pad(d, b.size))
  {
    RunKeepsInv(b, Exact, v, tr, |tr| - 1);
  }

  // What a run makes of an empty volume.
  lemma RunOnNothing(b: Boot, v: Files, tr: seq<Proc>)
    requires IsRun(b, Exact, v, tr) && v.disk.None?
    ensures var d' := Last(tr).vol.disk;
      && (d'.Some? ==> d'.value == Pad(Base(b), b.size))
      && (Succeeded(tr) ==> d'.Some?)
  {
    RunKeepsInv(b, Exact, v, tr, |tr| - 1);
  }

  lemma NothingSucceededYet(v: Files, es: seq<Event>)
    requires IsHistory(Exact, v, es) && AfterAll(v, es).disk.None?
    ensures v.disk.None? && FirstPut(v, es).None? && MaxSucceeded(es) == 0
    decreases |es|
  {
    if es == [] {
    } else {
      var front, last := es[..|es| - 1], Last(es);
      HistoryBack(Exact, v, es);
      if AfterAll(v, front).disk.Some? {
        if last.Run? {
          RunOnDisk(last.boot, AfterAll(v, front), last.trace);
        }
        assert false;
      }
      NothingSucceededYet(v, front);
      RunOnNothing(last.boot, AfterAll(v, front), last.trace);
    }
  }

  // From the first content w on, d is as long as the largest successful boot asked for, if that is longer
  // than w, and no longer than w and any boot asked for.
  ghost predicate Bounded(w: Bytes, es: seq<Event>, d: Bytes) {
    Max(|w|, MaxSucceeded(es)) <= |d| <= Max(|w|, MaxSize(es))
  }

  // The disk is what was last put on it, zero-filled to a length between the largest size a boot got since
  // and the largest one asked for since; its length lies between what all boots so far got and asked for.
  ghost predicate Explained(v: Files, es: seq<Event>, d: Bytes) {
    && LastPut(v, es).Some? && FirstPut(v, es).Some?
    && Filling(LastPut(v, es).value, MaxSucceeded(SincePut(v, es)), MaxSize(SincePut(v, es)), d)
    && Bounded(FirstPut(v, es).value, es, d)
  }

  // The event before which there was no disk.
  lemma CreatingBoot(v: Files, es: seq<Event>)
    requires IsHistory(Exact, v, es) && es != [] && AfterAll(v, es).disk.Some?
    requires AfterAll(v, es[..|es| - 1]).disk.None?
    ensures Explained(v, es, AfterAll(v, es).disk.value)
  {
    var front, last := es[..|es| - 1], Last(es);
    HistoryBack(Exact, v, es);
    NothingSucceededYet(v, front);
    RunOnNothing(last.boot, AfterAll(v, front), last.trace);
    OneBoot(last);
  }

  lemma PutStays(v: Files, es: seq<Event>)
    requires es != [] && Last(es).Run?
    requires var front := es[..|es| - 1];
      AfterAll(v, front).disk.Some? && FirstPut(v, front).Some?
    ensures var front := es[..|es| - 1];
      && LastPut(v, es) == LastPut(v, front) && FirstPut(v, es) == FirstPut(v, front)
      && SincePut(v, es) == SincePut(v, front) + [Last(es)]
  {
  }

  lemma BoundedMore(w: Bytes, es: seq<Event>, e: Event, x: Bytes, y: Bytes)
    requires e.Run? && Bounded(w, es, x) && x <= y <= Pad(x, e.boot.size)
    requires SuccessfulBoot(e) ==> y == Pad(x, e.boot.size)
    ensures Bounded(w, es + [e], y)
  {
    SizesOfMore(es, e);
  }

  lemma FillingBoot(w: Bytes, since: seq<Event>, e: Event, x: Bytes, y: Bytes)
    requires e.Run? && Filling(w, MaxSucceeded(since), MaxSize(since), x) && x <= y <= Pad(x, e.boot.size)
    requires SuccessfulBoot(e) ==> y == Pad(x, e.boot.size)
    ensures Filling(w, MaxSucceeded(since + [e]), MaxSize(since + [e]), y)
  {
    PadFurther(w, x, y, e.boot.size);
    SizesOfMore(since, e);
  }

  lemma ExplainedMore(v: Files, es: seq<Event>, d: Bytes, d': Bytes)
    requires es != [] && Last(es).Run? && AfterAll(v, es[..|es| - 1]).disk.Some?
    requires Explained(v, es[..|es| - 1], d) && d <= d' <= Pad(d, Last(es).boot.size)
    requires SuccessfulBoot(Last(es)) ==> d' == Pad(d, Last(es).boot.size)
    ensures Explained(v, es, d')
  {
    var front, last := es[..|es| - 1], Last(es);
    assert es == front + [last];
    PutStays(v, es);
    FillingBoot(LastPut(v, front).value, SincePut(v, front), last, d, d');
    BoundedMore(FirstPut(v, front).value, front, last, d, d');
  }

  lemma FurtherBoot(v: Files, es: seq<Event>)
    requires IsHistory(Exact, v, es) && es != [] && Last(es).Run?
    requires var front := es[..|es| - 1];
      AfterAll(v, front).disk.Some? && Explained(v, front, AfterAll(v, front).disk.value)
    ensures AfterAll(v, es).disk.Some? && Explained(v, es, AfterAll(v, es).disk.value)
  {
    var front, last := es[..|es| - 1], Last(es);
    HistoryBack(Exact, v, es);
    RunOnDisk(last.boot, AfterAll(v, front), last.trace);
    ExplainedMore(v, es, AfterAll(v, front).disk.value, AfterAll(v, es).disk.value);
  }

  // Every disk is so explained, over every history with exact tools, whatever was killed, failed or
  // succeeded, and whatever the guest wrote.
  lemma {:induction false} HistoryOfDisk(v: Files, es: seq<Event>)
    requires IsHistory(Exact, v, es) && AfterAll(v, es).disk.Some?
    ensures Explained(v, es, AfterAll(v, es).disk.value)
    decreases |es|
  {
    if es == [] {
    } else {
      var front := es[..|es| - 1];
      HistoryBack(Exact, v, es);
      if AfterAll(v, front).disk.None? {
        CreatingBoot(v, es);
      } else {
        HistoryOfDisk(v, front);
        if Last(es).Run? {
          FurtherBoot(v, es);
        }
      }
    }
  }

  // In particular, over any history of a volume with a disk: it ends at least as long as the largest
  // successful boot asked for and no longer than the largest boot did, or as long as it was.
  lemma HistoryNeverOvershoots(v: Files, es: seq<Event>)
    requires IsHistory(Exact, v, es) && v.disk.Some?
    ensures AfterAll(v, es).disk.Some?
    ensures Bounded(v.disk.value, es, AfterAll(v, es).disk.value)
  {
    HistoryPreservesDisk(Exact, v, es);
    HistoryOfDisk(v, es);
    FirstPutOfDisk(v, es);
  }

  // And of an empty volume: what counts as its first length is what the creating boot's image had.
  lemma HistoryFromNothing(v: Files, es: seq<Event>)
    requires IsHistory(Exact, v, es) && v.disk.None? && AfterAll(v, es).disk.Some?
    ensures exists k, i ::
      0 <= k < |es| && CreatedBy(Exact, v, es, k, i) && Bounded(Base(es[k].boot), es, AfterAll(v, es).disk.value)
  {
    var k, i := FirstPutIsCreated(v, es);
    HistoryOfDisk(v, es);
  }

  lemma CreatedStays(tools: Tools, v: Files, front: seq<Event>, es: seq<Event>, k: nat, i: nat)
    requires front <= es && k < |front| && CreatedBy(tools, v, front, k, i)
    ensures CreatedBy(tools, v, es, k, i)
  {
    assert es[..k] == front[..k] && es[..k + 1] == front[..k + 1];
  }

  lemma {:induction false} FirstPutIsCreated(v: Files, es: seq<Event>) returns (k: nat, i: nat)
    requires IsHistory(Exact, v, es) && v.disk.None? && AfterAll(v, es).disk.Some?
    ensures k < |es| && CreatedBy(Exact, v, es, k, i) && FirstPut(v, es) == Some(Base(es[k].boot))
    decreases |es|
  {
    var front := es[..|es| - 1];
    HistoryBack(Exact, v, es);
    if AfterAll(v, front).disk.Some? {
      k, i := FirstPutIsCreated(v, front);
      CreatedStays(Exact, v, front, es, k, i);
    } else {
      NothingSucceededYet(v, front);
      k := |front|;
      assert es[..k] == front && es[..k + 1] == es;
      i := CreatedAt(Exact, v, es, k);
    }
  }

  lemma OneBoot(e: Event)
    requires e.Run?
    ensures MaxSize([e]) == e.boot.size && MaxSucceeded([e]) == if SuccessfulBoot(e) then e.boot.size else 0
  {
    assert [e][..0] == [];
  }

  lemma SizesOfMore(es: seq<Event>, e: Event)
    requires e.Run?
    ensures MaxSize(es + [e]) == Max(MaxSize(es), e.boot.size)
    ensures MaxSucceeded(es + [e]) == Max(MaxSucceeded(es), if SuccessfulBoot(e) then e.boot.size else 0)
  {
    assert (es + [e])[..|es|] == es;
  }

  // -------- what is left behind --------

  // The run exits, rather than being killed, and wherever it gets to one of the two rm commands, on the
  // way in and in the EXIT trap, that command works.
  ghost predicate ExitsCleanly(b: Boot, tools: Tools, tr: seq<Proc>) {
    && |tr| > 0 && Last(tr).pc.Exited?
    && forall i :: 0 < i < |tr| && (tr[i - 1].pc.RmStale? || tr[i - 1].pc.Trap?) ==> Command(b, tools, tr[i - 1], tr[i])
  }

  lemma StepsAroundRm(b: Boot, tools: Tools, p: Proc, p': Proc)
    requires Step(b, tools, p, p')
    ensures Running(p.pc) && !p'.pc.RmStale?
    ensures p.pc.Trap? ==> !Running(p'.pc)
  {
  }

  // rm is the first command of a run, and in the trap the last.
  lemma RmComesFirstAndLast(b: Boot, tools: Tools, v: Files, tr: seq<Proc>, i: nat)
    requires IsRun(b, tools, v, tr) && i < |tr|
    ensures tr[i].pc.RmStale? ==> i == 0
    ensures tr[i].pc.Trap? ==> |tr| - 2 <= i
    ensures !Running(tr[i].pc) ==> i == |tr| - 1
  {
    if i > 0 {
      StepsAroundRm(b, tools, tr[i - 1], tr[i]);
    }
    if i + 1 < |tr| {
      StepsAroundRm(b, tools, tr[i], tr[i + 1]);
    }
    if i + 2 < |tr| {
      StepsAroundRm(b, tools, tr[i + 1], tr[i + 2]);
    }
  }

  // A run whose trap is reached and works exits cleanly.
  lemma TrapExitsCleanly(b: Boot, tools: Tools, v: Files, tr: seq<Proc>)
    requires IsRun(b, tools, v, tr) && |tr| >= 2 && tr[|tr| - 2].pc.Trap?
    requires Last(tr).pc.Exited? && Command(b, tools, tr[|tr| - 2], tr[|tr| - 1])
    ensures ExitsCleanly(b, tools, tr)
  {
    forall i | 0 < i < |tr| && (tr[i - 1].pc.RmStale? || tr[i - 1].pc.Trap?)
      ensures Command(b, tools, tr[i - 1], tr[i])
    {
      RmComesFirstAndLast(b, tools, v, tr, i - 1);
      RmComesFirstAndLast(b, tools, v, tr, i);
      assert Step(b, tools, tr[i - 1], tr[i]);
    }
  }

  // The exit is the trap's, or that of a shell which could not set it; by then TMP had been removed.
  lemma ExitFollowsRm(b: Boot, tools: Tools, v0: Files, p: Proc, p': Proc)
    requires RunInv(b, tools, v0, p) && Step(b, tools, p, p') && p'.pc.Exited?
    requires p.pc.RmStale? || p.pc.Trap? ==> Command(b, tools, p, p')
    ensures p'.vol.tmp.None?
  {
  }

  // Succeeded or failed, and wherever: a boot that exits with both rm commands working leaves no .partial.
  lemma ExitLeavesNoPartial(b: Boot, tools: Tools, v: Files, tr: seq<Proc>)
    requires IsRun(b, tools, v, tr) && ExitsCleanly(b, tools, tr)
    ensures Last(tr).vol.tmp.None?
  {
    var n := |tr| - 1;
    assert tr[0].pc == RmStale;
    RunKeepsInv(b, tools, v, tr, n - 1);
    ExitFollowsRm(b, tools, v, tr[n - 1], tr[n]);
  }

  ghost predicate CleanBoot(tools: Tools, e: Event) {
    e.Run? && ExitsCleanly(e.boot, tools, e.trace)
  }

  // Event k is the last boot of the history, and exits so.
  ghost predicate LastBootIsClean(tools: Tools, es: seq<Event>, k: nat) {
    k < |es| && CleanBoot(tools, es[k]) && forall j :: k < j < |es| ==> es[j].GuestWrite?
  }

  // Over any history: whatever earlier boots left behind, nothing is left after such a boot.
  lemma {:induction false} HistoryLeavesNoPartial(tools: Tools, v: Files, es: seq<Event>, k: nat)
    requires IsHistory(tools, v, es) && LastBootIsClean(tools, es, k)
    ensures AfterAll(v, es).tmp.None?
    decreases |es|
  {
    var front, last := es[..|es| - 1], Last(es);
    HistoryBack(tools, v, es);
    if k == |es| - 1 {
      ExitLeavesNoPartial(last.boot, tools, AfterAll(v, front), last.trace);
    } else {
      HistoryLeavesNoPartial(tools, v, front, k);
    }
  }

  // -------- histories whose boots all succeed --------

  ghost predicate BootsSucceed(es: seq<Event>) {
    forall e :: e in es && e.Run? ==> SuccessfulBoot(e)
  }

  ghost predicate OnlyBoots(es: seq<Event>) {
    forall e :: e in es ==> e.Run?
  }

  lemma {:induction false} SameSizes(es: seq<Event>)
    requires BootsSucceed(es)
    ensures MaxSucceeded(es) == MaxSize(es)
  {
    if es == [] {
    } else {
      assert Last(es) in es;
      SameSizes(es[..|es| - 1]);
    }
  }

  lemma {:induction false} SinceAreEvents(v: Files, es: seq<Event>)
    ensures forall e :: e in SincePut(v, es) ==> e in es
  {
    if es == [] {
    } else {
      SinceAreEvents(v, es[..|es| - 1]);
    }
  }

  // Closed form: successful boots, with the guest at work in between, zero-fill what was last put on the
  // disk to the largest size asked for since; the length is the largest there ever was.
  lemma SuccessfulBootsOfDisk(v: Files, es: seq<Event>)
    requires IsHistory(Exact, v, es) && BootsSucceed(es) && v.disk.Some?
    ensures var d := AfterAll(v, es).disk;
      && LastPut(v, es).Some? && d == Some(Pad(LastPut(v, es).value, MaxSize(SincePut(v, es))))
      && |d.value| == Max(|v.disk.value|, MaxSize(es))
    ensures OnlyBoots(es) ==> LastPut(v, es) == v.disk && SincePut(v, es) == es
  {
    HistoryPreservesDisk(Exact, v, es);
    FillingIsExact(v, es);
    FirstPutOfDisk(v, es);
    if OnlyBoots(es) {
      OnlyBootsPut(v, es);
    }
  }

  lemma FillingIsExact(v: Files, es: seq<Event>)
    requires IsHistory(Exact, v, es) && BootsSucceed(es) && AfterAll(v, es).disk.Some?
    ensures LastPut(v, es).Some? && FirstPut(v, es).Some?
    ensures AfterAll(v, es).disk.value == Pad(LastPut(v, es).value, MaxSize(SincePut(v, es)))
    ensures |AfterAll(v, es).disk.value| == Max(|FirstPut(v, es).value|, MaxSize(es))
  {
    HistoryOfDisk(v, es);
    SinceAreEvents(v, es);
    SameSizes(SincePut(v, es));
    SameSizes(es);
    PadIsShort(LastPut(v, es).value, MaxSize(SincePut(v, es)), AfterAll(v, es).disk.value);
  }

  lemma PadIsShort(w: Bytes, n: nat, x: Bytes)
    requires Filling(w, n, n, x)
    ensures x == Pad(w, n)
  {
  }

  lemma {:induction false} FirstPutOfDisk(v: Files, es: seq<Event>)
    requires v.disk.Some?
    ensures FirstPut(v, es) == v.disk
  {
    if es == [] {
    } else {
      FirstPutOfDisk(v, es[..|es| - 1]);
    }
  }

  lemma {:induction false} OnlyBootsPut(v: Files, es: seq<Event>)
    requires IsHistory(Exact, v, es) && OnlyBoots(es) && v.disk.Some?
    ensures LastPut(v, es) == v.disk && SincePut(v, es) == es
  {
    if es == [] {
    } else {
      var front := es[..|es| - 1];
      assert Last(es) in es;
      HistoryBack(Exact, v, es);
      HistoryPreservesDisk(Exact, v, front);
      OnlyBootsPut(v, front);
      assert es == front + [Last(es)];
    }
  }

  // From an empty volume: what was put there first is the image that the first boot imported, or nothing.
  lemma SuccessfulBoots(v: Files, es: seq<Event>)
    requires IsHistory(Exact, v, es) && BootsSucceed(es)
    requires v.disk.None? && es != []
    ensures es[0].Run? && AfterAll(v, es).disk.Some?
    ensures var d, base := AfterAll(v, es).disk.value, Base(es[0].boot);
      && LastPut(v, es).Some? && d == Pad(LastPut(v, es).value, MaxSize(SincePut(v, es)))
      && |d| == Max(|base|, MaxSize(es))
      && (OnlyBoots(es) ==> LastPut(v, es) == Some(base) && SincePut(v, es) == es)
  {
    assert es[0] in es;
    RunOnNothing(es[0].boot, v, es[0].trace);
    HistoryPreservesDisk(Exact, After(v, es[0]), es[1..]);
    FillingIsExact(v, es);
    FirstPutOfNothing(v, es);
    if OnlyBoots(es) {
      OnlyBootsPutBase(v, es);
    }
  }

  lemma {:induction false} FirstPutOfNothing(v: Files, es: seq<Event>)
    requires es != [] && es[0].Run? && v.disk.None? && After(v, es[0]).disk.Some?
    ensures FirstPut(v, es) == Some(Base(es[0].boot))
  {
    if |es| == 1 {
      AfterOne(v, es);
      assert es[..1] == es && FirstPut(v, es[..0]).None?;
    } else {
      assert es[..|es| - 1][0] == es[0];
      FirstPutOfNothing(v, es[..|es| - 1]);
    }
  }

  lemma FirstBootPutsBase(v: Files, es: seq<Event>)
    requires |es| == 1 && es[0].Run? && v.disk.None? && After(v, es[0]).disk.Some?
    ensures LastPut(v, es) == Some(Base(es[0].boot)) && SincePut(v, es) == es
  {
    AfterOne(v, es);
    assert es[..1] == es;
  }

  // Once the first boot has created the disk it is there.
  lemma DiskStays(v: Files, es: seq<Event>)
    requires IsHistory(Exact, v, es) && es != [] && After(v, es[0]).disk.Some?
    ensures AfterAll(v, es).disk.Some?
  {
    HistoryPreservesDisk(Exact, After(v, es[0]), es[1..]);
  }

  lemma {:induction false} OnlyBootsPutBase(v: Files, es: seq<Event>)
    requires IsHistory(Exact, v, es) && OnlyBoots(es)
    requires es != [] && v.disk.None? && After(v, es[0]).disk.Some?
    ensures LastPut(v, es) == Some(Base(es[0].boot)) && SincePut(v, es) == es
    decreases |es|
  {
    assert Last(es) in es && es[0] in es;
    if |es| == 1 {
      FirstBootPutsBase(v, es);
    } else {
      var front := es[..|es| - 1];
      HistoryBack(Exact, v, es);
      DiskStays(v, front);
      OnlyBootsPutBase(v, front);
      FirstPutOfNothing(v, front);
      PutStays(v, es);
      assert es == front + [Last(es)];
    }
  }

  // Idempotence: after a success, further successful boots in either mode that ask for no more than
  // the disk already has -- among them a second VM volume backed by the same DataVolume -- change nothing.
  lemma RepeatedBootChangesNothing(v: Files, es: seq<Event>)
    requires IsHistory(Exact, v, es) && OnlyBoots(es) && BootsSucceed(es)
    requires v.disk.Some? && v.tmp.None? && MaxSize(es) <= |v.disk.value|
    ensures AfterAll(v, es) == v
  {
    if es == [] {
    } else {
      SuccessfulBootsOfDisk(v, es);
      HistoryBack(Exact, v, es);
      var before := AfterAll(v, es[..|es| - 1]);
      assert Last(es) in es;
      SuccessfulRun(Last(es).boot, Exact, before, Last(es).trace);
    }
  }

  // -------- recovery from interrupted boots --------

  // How far any number of cut-short attempts at the same boot may have got.
  ghost predicate Toward(b: Boot, d0: Option<Bytes>, d: Option<Bytes>) {
    match d0
    case None => d.None? || d == Some(Provisioned(b, None))
    case Some(old') => d.Some? && old' <= d.value <= Provisioned(b, d0)
  }

  lemma TowardStep(b: Boot, d0: Option<Bytes>, v: Files, tr: seq<Proc>)
    requires Toward(b, d0, v.disk) && IsRun(b, Exact, v, tr)
    ensures Toward(b, d0, Last(tr).vol.disk)
  {
    RunKeepsInv(b, Exact, v, tr, |tr| - 1);
    if d0.Some? {
      PadWithin(d0.value, v.disk.value, b.size);
    }
  }

  lemma {:induction false} AttemptsStayToward(b: Boot, d0: Option<Bytes>, v: Files, es: seq<Event>)
    requires IsHistory(Exact, v, es) && Toward(b, d0, v.disk)
    requires forall e :: e in es ==> e.Run? && e.boot == b
    ensures Toward(b, d0, AfterAll(v, es).disk)
    decreases |es|
  {
    if es == [] {
    } else {
      TowardStep(b, d0, v, es[0].trace);
      AttemptsStayToward(b, d0, After(v, es[0]), es[1..]);
    }
  }

  // However often a boot is killed or fails, and wherever, the first attempt that succeeds leaves
  // exactly what one uninterrupted boot would have left.
  lemma InterruptedBootRecovers(b: Boot, v: Files, attempts: seq<Event>, final: seq<Proc>)
    requires IsHistory(Exact, v, attempts)
    requires forall e :: e in attempts ==> e.Run? && e.boot == b
    requires IsRun(b, Exact, AfterAll(v, attempts), final) && Succeeded(final)
    ensures Last(final).vol == Files(Some(Provisioned(b, v.disk)), None)
  {
    AttemptsStayToward(b, v.disk, v, attempts);
    var w := AfterAll(v, attempts);
    SuccessIsProvisioned(b, w, final);
    if v.disk.Some? {
      PadWithin(v.disk.value, w.disk.value, b.size);
    } else if w.disk.Some? {
      PadPad(Base(b), b.size, b.size);
    }
  }

  // Without an image there is nothing to import: such a run never succeeds and never makes a disk.
  lemma ImportWithoutImageFails(tools: Tools, size: nat, v: Files, tr: seq<Proc>)
    requires IsRun(Boot(Import(None), size), tools, v, tr) && v.disk.None?
    ensures !Succeeded(tr) && Last(tr).vol.disk.None?
  {
    RunKeepsInv(Boot(Import(None), size), tools, v, tr, |tr| - 1);
  }
}
