// The provisioning init containers of the adapted pod, spelled out: size, directories, mounts and image.
module PodProvisioning {
  import opened Common
  import opened Mounts
  import opened PodModel
  import opened PodStages
  import opened PodShape
  import opened PodWellFormed
  import opened PodGuarantees
  import opened PodDataVolumes
  import opened Persistence
  import opened DiskScript
  import opened DiskSafety

  // Volume j is the first on that claim.
  ghost predicate FirstOnClaim(vs: seq<Volume>, claim: string, j: nat) {
    j < |vs| && vs[j].source == Claim(claim) && forall k :: 0 <= k < j ==> vs[k].source != Claim(claim)
  }

  // Lower-case letters, and a dash for each underscore.
  predicate IsSlug(slug: string, name: string) {
    |slug| == |name| && forall i :: 0 <= i < |name| ==>
      slug[i] == if name[i] == '_' then '-' else if 'A' <= name[i] <= 'Z' then name[i] - 'A' + 'a' else name[i]
  }

  predicate WithoutPrefix(s: string, prefix: string, rest: string) {
    if prefix <= s then s == prefix + rest else rest == s
  }

  // The image reference is the URL without docker:// and then without oci://.
  ghost predicate IsReference(url: string, reference: string) {
    exists s :: WithoutPrefix(url, "docker://", s) && WithoutPrefix(s, "oci://", reference)
  }

  // An init container that makes a blank disk of that size for the named VMI volume, in the given pod volume.
  ghost predicate CreatesDisk(c: Container, name: string, podVolume: string, size: int, image: string) {
    exists slug :: IsSlug(slug, name) && CreatesAs(c, name, podVolume, size, image, slug)
  }

  predicate CreatesAs(c: Container, name: string, podVolume: string, size: int, image: string, slug: string) {
    var dir := ["var", "run", "kubevirt-private", "vmi-disks", name];
    && c.name == "init-disk-" + slug && c.image == image && c.restartPolicy.None?
    && c.program == InitDisk(dir, size)
    && c.mounts == [Mount(podVolume, dir, [], false)]
  }

  // One that imports the disk from the image behind the URL; vs are the volumes of the pod.
  ghost predicate ImportsDisk(
    c: Container, name: string, podVolume: string, size: int, image: string, url: string, vs: seq<Volume>)
  {
    exists slug, reference :: IsSlug(slug, name) && IsReference(url, reference)
      && ImportsFrom(c, name, podVolume, size, image, slug, reference, vs)
  }

  predicate ImportsFrom(
    c: Container, name: string, podVolume: string, size: int, image: string, slug: string, reference: string,
    vs: seq<Volume>)
  {
    var dir, source := ["var", "run", "kubevirt-private", "vmi-disks", name], ["var", "run", "import-source", name];
    && c.name == "import-disk-" + slug && c.image == image && c.restartPolicy.None?
    && c.program == ImportDisk(dir, source, size)
    && c.mounts == [Mount(podVolume, dir, [], false), Mount("import-src-" + slug, source, [], true)]
    && Volume("import-src-" + slug, Image(reference)) in vs
  }

  // -------- lookups by position --------

  lemma {:induction false} ClaimVolumeIsFirst(vs: seq<Volume>, claim: string, j: nat)
    requires FirstOnClaim(vs, claim, j)
    ensures ClaimVolume(vs, claim) == vs[j].name
  {
    if j == 0 {
    } else {
      assert vs[0].source != Claim(claim);
      assert forall k :: 0 <= k < j - 1 ==> vs[1..][k] == vs[k + 1];
      ClaimVolumeIsFirst(vs[1..], claim, j - 1);
    }
  }

  lemma {:induction false} ClaimVolumeHasPosition(vs: seq<Volume>, claim: string) returns (j: nat)
    requires ClaimVolume(vs, claim) != ""
    ensures FirstOnClaim(vs, claim, j)
  {
    if vs[0].source == Claim(claim) {
      j := 0;
    } else {
      j := ClaimVolumeHasPosition(vs[1..], claim);
      assert forall k :: 0 <= k < j ==> vs[k + 1] == vs[1..][k];
      j := j + 1;
      assert forall k :: 0 <= k < j ==> vs[k].source != Claim(claim);
    }
  }

  // The template i and the pod volume j that provide for a VMI volume.
  ghost predicate ProvidedBy(v: VmiVolume, ts: seq<Template>, vs: seq<Volume>, i: nat, j: nat) {
    && v.dataVolume.Some?
    && LastTemplate(ts, v.dataVolume.value, i) && FirstOnClaim(vs, v.dataVolume.value, j)
    && ts[i].request.Some? && ts[i].request.value > 0 && vs[j].name != ""
  }

  lemma ProvidedNeedsDisk(v: VmiVolume, ts: seq<Template>, vs: seq<Volume>, i: nat, j: nat)
    requires v.dataVolume.Some?
    requires LastTemplate(ts, v.dataVolume.value, i) && FirstOnClaim(vs, v.dataVolume.value, j)
    ensures NeedsDisk(v, ts, vs) <==> ProvidedBy(v, ts, vs, i, j)
    ensures LookupMeta(ts, v.dataVolume.value) == Some(MetaOf(ts[i]))
    ensures ClaimVolume(vs, v.dataVolume.value) == vs[j].name
  {
    LastTemplateWins(ts, v.dataVolume.value, MetaOf(ts[i]));
    ClaimVolumeIsFirst(vs, v.dataVolume.value, j);
  }

  // A VMI volume gets a disk exactly when the last template of its DataVolume's name that has storage asks
  // for a positive size, and the first pod volume on that claim has a name.
  lemma NeedsDiskIff(v: VmiVolume, ts: seq<Template>, vs: seq<Volume>)
    ensures NeedsDisk(v, ts, vs) <==> exists i: nat, j: nat :: ProvidedBy(v, ts, vs, i, j)
  {
    if NeedsDisk(v, ts, vs) {
      var d := v.dataVolume.value;
      LastTemplateWins(ts, d, LookupMeta(ts, d).value);
      var i: nat :| LastTemplate(ts, d, i) && LookupMeta(ts, d).value == MetaOf(ts[i]);
      var j := ClaimVolumeHasPosition(vs, d);
      ProvidedNeedsDisk(v, ts, vs, i, j);
    }
    if i: nat, j: nat :| ProvidedBy(v, ts, vs, i, j) {
      ProvidedNeedsDisk(v, ts, vs, i, j);
    }
  }

  // -------- the init container of one volume --------

  lemma SlugIsSlug(name: string)
    ensures IsSlug(Slug(name), name)
  {
  }

  lemma TrimmedPrefix(s: string, prefix: string)
    ensures WithoutPrefix(s, prefix, TrimPrefix(s, prefix))
  {
  }

  lemma ReferenceOf(url: string)
    ensures IsReference(url, TrimPrefix(TrimPrefix(url, "docker://"), "oci://"))
  {
    TrimmedPrefix(url, "docker://");
    TrimmedPrefix(TrimPrefix(url, "docker://"), "oci://");
  }

  // The init container provides the disk that template and pod volume call for.
  ghost predicate Provides(c: Container, name: string, t: Template, podVolume: string, image: string, vs: seq<Volume>) {
    && t.request.Some?
    && if t.registryUrl.None? || t.registryUrl.value == "" then CreatesDisk(c, name, podVolume, t.request.value, image)
       else ImportsDisk(c, name, podVolume, t.request.value, image, t.registryUrl.value, vs)
  }

  lemma InitCreates(v: VmiVolume, m: DvMeta, podVolume: string, image: string)
    requires m.url == ""
    ensures CreatesAs(ProvisionInit(v, m, podVolume, image), v.name, podVolume, m.size, image, Slug(v.name))
  {
  }

  lemma InitImports(v: VmiVolume, m: DvMeta, podVolume: string, image: string, all: seq<Volume>)
    requires m.url != "" && ImportVolume(v, m) in all
    ensures ImportsFrom(ProvisionInit(v, m, podVolume, image), v.name, podVolume, m.size, image, Slug(v.name),
                        TrimPrefix(TrimPrefix(m.url, "docker://"), "oci://"), all)
  {
  }

  lemma InitProvides(v: VmiVolume, ts: seq<Template>, vs: seq<Volume>, image: string, i: nat, j: nat, all: seq<Volume>)
    requires ProvidedBy(v, ts, vs, i, j) && NeedsDisk(v, ts, vs)
    requires Imported(v, ts, vs) ==> ImportVolume(v, LookupMeta(ts, v.dataVolume.value).value) in all
    ensures Provides(InitFor(v, ts, vs, image), v.name, ts[i], vs[j].name, image, all)
  {
    var m := MetaOf(ts[i]);
    ProvidedNeedsDisk(v, ts, vs, i, j);
    SlugIsSlug(v.name);
    if m.url == "" {
      InitCreates(v, m, vs[j].name, image);
    } else {
      ReferenceOf(m.url);
      InitImports(v, m, vs[j].name, image, all);
    }
  }

  // -------- the adapted pod --------

  lemma {:induction false} ImportVolumeIsAdded(vols: seq<VmiVolume>, ts: seq<Template>, vs: seq<Volume>, v: VmiVolume)
    requires v in vols && Imported(v, ts, vs)
    ensures ImportVolume(v, LookupMeta(ts, v.dataVolume.value).value) in ImportVolumes(vols, ts, vs)
  {
    if v == Last(vols) {
    } else {
      assert vols == vols[..|vols| - 1] + [Last(vols)];
      ImportVolumeIsAdded(vols[..|vols| - 1], ts, vs, v);
    }
  }

  lemma InitStays(cs: seq<Container>, n: nat)
    requires n < |cs| && cs[n].name != DIR_INIT
    ensures WithStateInit(cs)[n] == cs[n]
  {
  }

  lemma SecondPartInPlace(order: seq<Container>, a: seq<Container>, b: seq<Container>, c: seq<Container>, k: nat)
    requires order == a + b + c && k < |b| && b[k].name != DIR_INIT
    ensures |a| + k < |order| && WithStateInit(order)[|a| + k] == b[k]
  {
    assert order[|a| + k] == b[k];
    InitStays(order, |a| + k);
  }

  lemma OrderIs(r: PodSpec, vmi: Vmi, ts: seq<Template>, o: Options)
    ensures InitOrder(r, vmi, ts, o) ==
      FirstInits(r, o.launcherImage) + DataVolumeInits(vmi.volumes, ts, r.volumes, o.launcherImage)
      + (Kept(r.inits) + LastInits(o))
  {
  }

  lemma AdaptedInits(r: PodSpec, vmi: Vmi, ts: seq<Template>, o: Options)
    requires HasCompute(r)
    ensures Adapted(r, vmi, ts, o).inits == WithStateInit(InitOrder(r, vmi, ts, o))
  {
    BeforeStateInits(r, vmi, ts, o);
  }

  lemma ProvisionerIs(vols: seq<VmiVolume>, ts: seq<Template>, vs: seq<Volume>, image: string, k: nat)
    requires k < |Selected(vols, ts, vs)|
    ensures var v, inits := Selected(vols, ts, vs)[k], DataVolumeInits(vols, ts, vs, image);
      && v in vols && NeedsDisk(v, ts, vs)
      && k < |inits| && inits[k] == InitFor(v, ts, vs, image) && inits[k].name != DIR_INIT
  {
    InitsFollowSelection(vols, ts, vs, image);
    DataVolumeInitsAreKept(vols, ts, vs, image);
    var inits := DataVolumeInits(vols, ts, vs, image);
    assert inits[k] in inits;
  }

  // Behind the directory container stand the inits of the selected volumes, in order.
  lemma ProvisionersInPlace(r: PodSpec, vmi: Vmi, ts: seq<Template>, o: Options, k: nat)
    requires HasCompute(r) && k < |Selected(vmi.volumes, ts, r.volumes)|
    ensures var n, v := |FirstInits(r, o.launcherImage)| + k, Selected(vmi.volumes, ts, r.volumes)[k];
      && v in vmi.volumes && NeedsDisk(v, ts, r.volumes)
      && n < |Adapted(r, vmi, ts, o).inits|
      && Adapted(r, vmi, ts, o).inits[n] == InitFor(v, ts, r.volumes, o.launcherImage)
  {
    var dv := DataVolumeInits(vmi.volumes, ts, r.volumes, o.launcherImage);
    AdaptedInits(r, vmi, ts, o);
    ProvisionerIs(vmi.volumes, ts, r.volumes, o.launcherImage, k);
    OrderIs(r, vmi, ts, o);
    SecondPartInPlace(InitOrder(r, vmi, ts, o), FirstInits(r, o.launcherImage), dv, Kept(r.inits) + LastInits(o), k);
  }

  // For every selected volume k, its last template i with storage, and the first pod volume j on its claim:
  // the init container asks for the template's size, on the disk in that volume, and reads the image
  // behind the template's URL if it has one.
  lemma AdaptedProvides(r: PodSpec, vmi: Vmi, ts: seq<Template>, o: Options, k: nat, i: nat, j: nat)
    requires HasCompute(r) && k < |Selected(vmi.volumes, ts, r.volumes)|
    requires ProvidedBy(Selected(vmi.volumes, ts, r.volumes)[k], ts, r.volumes, i, j)
    ensures var p, n := Adapted(r, vmi, ts, o), |FirstInits(r, o.launcherImage)| + k;
      var name := Selected(vmi.volumes, ts, r.volumes)[k].name;
      && n < |p.inits|
      && Provides(p.inits[n], name, ts[i], r.volumes[j].name, o.launcherImage, p.volumes)
  {
    var v := Selected(vmi.volumes, ts, r.volumes)[k];
    ProvisionersInPlace(r, vmi, ts, o, k);
    AdaptedShape(r, vmi, ts, o);
    if Imported(v, ts, r.volumes) {
      ImportVolumeIsAdded(vmi.volumes, ts, r.volumes, v);
    }
    InitProvides(v, ts, r.volumes, o.launcherImage, i, j, Adapted(r, vmi, ts, o).volumes);
  }

  // In a well-formed pod that volume's name leads to the claim, so the disk is disk.img at its root.
  lemma DiskIsInClaim(r: PodSpec, vmi: Vmi, ts: seq<Template>, o: Options, claim: string, j: nat)
    requires HasCompute(r) && DistinctNames(Adapted(r, vmi, ts, o).volumes) && FirstOnClaim(r.volumes, claim, j)
    ensures var v := VolumeNamed(Adapted(r, vmi, ts, o).volumes, r.volumes[j].name);
      v.Some? && RootOf(v.value) == Location(Persistent(claim), [])
  {
    AdaptedShape(r, vmi, ts, o);
    assert r.volumes[j] in Adapted(r, vmi, ts, o).volumes;
    VolumeNamedIs(Adapted(r, vmi, ts, o).volumes, r.volumes[j]);
  }

  lemma SucceededDiskHasSize(c: Container, found: Option<Bytes>, v: Files, tr: seq<Proc>)
    requires (c.program.ImportDisk? || c.program.InitDisk?) && c.program.size >= 0
    requires IsRun(BootOf(c, found), Exact, v, tr) && Succeeded(tr)
    ensures Last(tr).vol.disk.Some? && c.program.size <= |Last(tr).vol.disk.value|
  {
    SuccessIsProvisioned(BootOf(c, found), v, tr);
  }

  lemma ProvidedSize(c: Container, name: string, t: Template, podVolume: string, image: string, vs: seq<Volume>)
    requires Provides(c, name, t, podVolume, image, vs)
    ensures (c.program.ImportDisk? || c.program.InitDisk?) && c.program.size == t.request.value
  {
  }

  // And when its script has succeeded, that disk has at least the size the template asks for.
  lemma ProvidedDiskHasSize(
    r: PodSpec, vmi: Vmi, ts: seq<Template>, o: Options, k: nat, i: nat, j: nat, c: Container,
    found: Option<Bytes>, v: Files, tr: seq<Proc>)
    requires HasCompute(r) && k < |Selected(vmi.volumes, ts, r.volumes)|
    requires ProvidedBy(Selected(vmi.volumes, ts, r.volumes)[k], ts, r.volumes, i, j)
    requires var inits, n := Adapted(r, vmi, ts, o).inits, |FirstInits(r, o.launcherImage)| + k;
      n < |inits| && c == inits[n]
    requires (c.program.ImportDisk? || c.program.InitDisk?) && c.program.size >= 0
    requires IsRun(BootOf(c, found), Exact, v, tr) && Succeeded(tr)
    ensures Last(tr).vol.disk.Some? && ts[i].request.value <= |Last(tr).vol.disk.value|
  {
    var name := Selected(vmi.volumes, ts, r.volumes)[k].name;
    AdaptedProvides(r, vmi, ts, o, k, i, j);
    ProvidedSize(c, name, ts[i], r.volumes[j].name, o.launcherImage, Adapted(r, vmi, ts, o).volumes);
    SucceededDiskHasSize(c, found, v, tr);
  }
}
