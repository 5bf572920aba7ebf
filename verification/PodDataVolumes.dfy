// Which VMI volumes get a provisioning init container, in which mode, and which emptyDirs get
// directories.
module PodDataVolumes {
  import opened Common
  import opened Mounts
  import opened PodModel
  import opened PodStages
  import opened DiskScript
  import opened DiskSafety

  // Template i is the last one of that name with storage.
  ghost predicate LastTemplate(ts: seq<Template>, name: string, i: nat) {
    && i < |ts| && ts[i].hasStorage && ts[i].name == name
    && forall j :: i < j < |ts| ==> !(ts[j].hasStorage && ts[j].name == name)
  }

  // Of several templates with one name the last with storage decides.
  lemma {:induction false} LastTemplateWins(ts: seq<Template>, name: string, m: DvMeta)
    ensures LookupMeta(ts, name) == Some(m) <==> exists i: nat :: LastTemplate(ts, name, i) && m == MetaOf(ts[i])
  {
    if ts == [] {
    } else {
      var front := ts[..|ts| - 1];
      if Last(ts).hasStorage && Last(ts).name == name {
        assert LastTemplate(ts, name, |ts| - 1);
      } else {
        LastTemplateWins(front, name, m);
        forall i: nat
          ensures LastTemplate(front, name, i) <==> LastTemplate(ts, name, i)
        {
          assert i < |front| ==> front[i] == ts[i];
        }
      }
    }
  }

  // The loop yields one init container per selected volume, in VMI order, each running the import script
  // if the template has a registry URL and the blank script if not, on the disk in the claim's volume.
  lemma {:induction false} InitsFollowSelection(vols: seq<VmiVolume>, ts: seq<Template>, vs: seq<Volume>, image: string)
    ensures var sel, inits := Selected(vols, ts, vs), DataVolumeInits(vols, ts, vs, image);
      && |inits| == |sel|
      && forall i :: 0 <= i < |sel| ==>
           && sel[i] in vols && NeedsDisk(sel[i], ts, vs)
           && inits[i] == InitFor(sel[i], ts, vs, image)
           && (inits[i].program.ImportDisk? <==> Imported(sel[i], ts, vs))
           && (inits[i].program.InitDisk? <==> !Imported(sel[i], ts, vs))
           && |inits[i].mounts| > 0 && inits[i].mounts[0].name == ClaimVolume(vs, sel[i].dataVolume.value)
  {
    if vols == [] {
    } else {
      InitsFollowSelection(vols[..|vols| - 1], ts, vs, image);
    }
  }

  // What an init container's script is given; the image is what it finds under its source mount.
  function BootOf(c: Container, found: Option<Bytes>): Boot
    requires (c.program.ImportDisk? || c.program.InitDisk?) && c.program.size >= 0
  {
    Boot(if c.program.ImportDisk? then Import(found) else Blank, c.program.size)
  }

  // Two VMI volumes behind one DataVolume run the same script on the same disk; once the first has
  // succeeded, a successful second one changes nothing, whatever image it finds.
  lemma SecondInitChangesNothing(
    v: VmiVolume, w: VmiVolume, ts: seq<Template>, vs: seq<Volume>, image: string,
    disk: Files, found: Option<Bytes>, found': Option<Bytes>, tr: seq<Proc>, tr': seq<Proc>)
    requires NeedsDisk(v, ts, vs) && NeedsDisk(w, ts, vs) && v.dataVolume == w.dataVolume
    requires IsRun(BootOf(InitFor(v, ts, vs, image), found), Exact, disk, tr) && Succeeded(tr)
    requires IsRun(BootOf(InitFor(w, ts, vs, image), found'), Exact, Last(tr).vol, tr') && Succeeded(tr')
    ensures InitFor(w, ts, vs, image).mounts[0].name == InitFor(v, ts, vs, image).mounts[0].name
    ensures Last(tr').vol == Last(tr).vol
  {
    SuccessIsProvisioned(BootOf(InitFor(v, ts, vs, image), found), disk, tr);
    SuccessIsProvisioned(BootOf(InitFor(w, ts, vs, image), found'), Last(tr).vol, tr');
  }

  // -------- the volume key --------

  lemma {:induction false} LastIndexBehind(s: string, t: string, c: char)
    requires c !in t
    ensures LastIndex(s + [c] + t, c) == |s|
  {
    var all := s + [c] + t;
    if t == "" {
      assert Last(all) == c;
    } else {
      assert Last(all) == Last(t) && all[..|all| - 1] == s + [c] + t[..|t| - 1];
      LastIndexBehind(s, t[..|t| - 1], c);
    }
  }

  lemma PrivateSuffix(s: string)
    ensures s + "-private-empty" == s + ['-'] + "private" + "-empty"
  {
    assert "-private-empty" == ['-'] + "private" + "-empty";
  }

  lemma PrivateKeyOf(s: string)
    ensures VolumeKey(s + "-private-empty") == "private"
  {
    PrivateSuffix(s);
    var name, trimmed := s + "-private-empty", s + ['-'] + "private";
    assert name[|name| - 6..] == "-empty" && name[..|name| - 6] == trimmed;
    LastIndexBehind(s, "private", '-');
    assert trimmed[|s| + 1..] == "private";
  }

  lemma PrivateKeySplits(name: string) returns (s: string)
    requires VolumeKey(name) == "private" && name != "private"
    ensures name == s + "-private-empty"
  {
    var trimmed := name[..|name| - 6];
    var idx := LastIndex(trimmed, '-');
    s := trimmed[..idx];
    assert trimmed == s + ['-'] + trimmed[idx + 1..];
    assert name == trimmed + name[|name| - 6..];
    PrivateSuffix(s);
  }

  // The volumes that get directories: "private" itself, and every name ending in "-private-empty".
  lemma PrivateKeyIff(name: string)
    ensures VolumeKey(name) == "private" <==> name == "private" || exists s :: name == s + "-private-empty"
  {
    if exists s :: name == s + "-private-empty" {
      var s :| name == s + "-private-empty";
      PrivateKeyOf(s);
    } else if VolumeKey(name) == "private" && name != "private" {
      var s := PrivateKeySplits(name);
    }
  }
}
