// Reading printed units back, and what inserted text does to a printed unit.
module UnitRoundTrip {
  import opened Common
  import opened IniText
  import opened Insertion
  import opened UnitPrinter

  // -------- the reader --------

  // What a section assigns to each directive.
  type Lookup = Key -> seq<string>

  function All(es: seq<Entry>): Lookup {
    k => Values(es, KeyName(k))
  }

  // A single-value directive: the last assignment counts.
  function One(vs: seq<string>): string {
    if vs == [] then "" else Last(vs)
  }

  function ReadVolumesFrom(args: seq<string>): seq<string> {
    if args == [] then []
    else (if VOLUMES_FROM <= args[0] then [args[0][|VOLUMES_FROM|..]] else []) + ReadVolumesFrom(args[1..])
  }

  function ReadTimeout(value: string): nat {
    if IsDigits(value) then ParseDecimal(value) else 0
  }

  function ReadUnit(v: Lookup): UnitSection {
    UnitSection(One(v(Description)), v(After), v(Requires))
  }

  function ReadContainer(v: Lookup): ContainerSection {
    ContainerSection(
      One(v(Image)), One(v(Entrypoint)), One(v(Exec)), v(Environment), v(EnvironmentFile),
      v(Volume), v(Mount), v(AddDevice), v(AddCapability), v(DropCapability),
      One(v(NoNewPrivileges)) == "true", One(v(User)), v(PublishPort), One(v(MemoryLimit)),
      One(v(Network)), ReadVolumesFrom(v(PodmanArgs)), v(Sysctl), ReadTimeout(One(v(StopTimeout))))
  }

  function ReadService(v: Lookup): ServiceSection {
    ServiceSection(One(v(Type)), One(v(RemainAfterExit)) == "yes", One(v(Restart)))
  }

  function ReadInstall(v: Lookup): InstallSection {
    InstallSection(v(WantedBy))
  }

  function ReadVolume(v: Lookup): VolumeSection {
    VolumeSection(One(v(Driver)), One(v(Image)), One(v(VolumeName)))
  }

  function Of(secs: seq<Section>, name: string): Lookup {
    All(EntriesOf(secs, name))
  }

  function ReadContainerUnit(secs: seq<Section>): ContainerUnit {
    ContainerUnit(ReadUnit(Of(secs, "Unit")), ReadContainer(Of(secs, "Container")),
                  ReadService(Of(secs, "Service")), ReadInstall(Of(secs, "Install")))
  }

  function ReadVolumeUnit(secs: seq<Section>): VolumeUnit {
    VolumeUnit(ReadUnit(Of(secs, "Unit")), ReadVolume(Of(secs, "Volume")))
  }

  function ParseContainerUnit(text: string): ContainerUnit {
    ReadContainerUnit(Parse(text))
  }

  function ParseVolumeUnit(text: string): VolumeUnit {
    ReadVolumeUnit(Parse(text))
  }

  // -------- fields and their entries --------

  ghost predicate DistinctKeys(fs: seq<Field>) {
    forall i, j :: 0 <= i < j < |fs| ==> fs[i].key != fs[j].key
  }

  function NamedEntries(name: string, values: seq<string>): seq<Entry> {
    seq(|values|, i requires 0 <= i < |values| => Entry(name, values[i]))
  }

  lemma {:induction false} ValuesOfNamedEntries(name: string, values: seq<string>, key: string)
    ensures Values(NamedEntries(name, values), key) == if name == key then values else []
  {
    if values == [] {
    } else {
      assert NamedEntries(name, values)[1..] == NamedEntries(name, values[1..]);
      ValuesOfNamedEntries(name, values[1..], key);
    }
  }

  lemma ValuesOfField(f: Field, k: Key)
    ensures All(FieldEntries(f))(k) == if f.key == k then f.values else []
  {
    assert FieldEntries(f) == NamedEntries(KeyName(f.key), f.values);
    ValuesOfNamedEntries(KeyName(f.key), f.values, KeyName(k));
    if KeyName(f.key) == KeyName(k) {
      KeyNameInjective(f.key, k);
    }
  }

  lemma ValuesOfLastField(fs: seq<Field>, k: Key)
    requires fs != []
    ensures All(Entries(fs))(k) == All(Entries(fs[..|fs| - 1]))(k) + if Last(fs).key == k then Last(fs).values else []
  {
    ValuesOfField(Last(fs), k);
    ValuesConcat(Entries(fs[..|fs| - 1]), FieldEntries(Last(fs)), KeyName(k));
  }

  lemma {:induction false} ValuesOfAbsentKey(fs: seq<Field>, k: Key)
    requires forall i :: 0 <= i < |fs| ==> fs[i].key != k
    ensures All(Entries(fs))(k) == []
  {
    if fs == [] {
    } else {
      ValuesOfAbsentKey(fs[..|fs| - 1], k);
      ValuesOfLastField(fs, k);
    }
  }

  // Each directive is read back from the section's entries.
  lemma {:induction false} ValuesOfEntries(fs: seq<Field>, i: nat)
    requires DistinctKeys(fs) && i < |fs|
    ensures All(Entries(fs))(fs[i].key) == fs[i].values
  {
    ValuesOfLastField(fs, fs[i].key);
    if i == |fs| - 1 {
      ValuesOfAbsentKey(fs[..|fs| - 1], fs[i].key);
    } else {
      ValuesOfEntries(fs[..|fs| - 1], i);
    }
  }

  // -------- what can be printed faithfully --------

  predicate CleanFields(fs: seq<Field>) {
    forall i :: 0 <= i < |fs| ==> OneLineEach(fs[i].values)
  }

  predicate CleanUnit(u: UnitSection) {
    OneLine(u.description) && OneLineEach(u.after) && OneLineEach(u.requires')
  }

  predicate CleanContainer(c: ContainerSection) {
    && OneLine(c.image) && OneLine(c.entrypoint) && OneLine(c.exec)
    && OneLineEach(c.environments) && OneLineEach(c.environmentFiles)
    && OneLineEach(c.volumes) && OneLineEach(c.mounts) && OneLineEach(c.addDevices)
    && OneLineEach(c.addCapabilities) && OneLineEach(c.dropCapabilities)
    && OneLine(c.user) && OneLineEach(c.publishPorts)
    && OneLine(c.memoryLimit) && OneLine(c.network)
    && OneLineEach(c.volumesFrom) && OneLineEach(c.sysctls)
  }

  predicate CleanService(s: ServiceSection) {
    OneLine(s.kind) && OneLine(s.restart)
  }

  predicate CleanInstall(i: InstallSection) {
    OneLineEach(i.wantedBy)
  }

  predicate CleanVolume(v: VolumeSection) {
    OneLine(v.driver) && OneLine(v.image) && OneLine(v.volumeName)
  }

  predicate Clean(u: ContainerUnit) {
    CleanUnit(u.unit) && CleanContainer(u.container) && CleanService(u.service) && CleanInstall(u.install)
  }

  // No character of the name comes before the letters in ASCII.
  predicate IsWord(s: string) {
    forall i :: 0 <= i < |s| ==> 'A' <= s[i]
  }

  lemma ShortKeyNamesAreWords(k: Key)
    requires KeySignature(k).0 <= 6
    ensures IsWord(KeyName(k))
  {
  }

  lemma MiddleKeyNamesAreWords(k: Key)
    requires 6 < KeySignature(k).0 <= 10
    ensures IsWord(KeyName(k))
  {
  }

  lemma LongKeyNamesAreWords(k: Key)
    requires 10 < KeySignature(k).0 <= 11
    ensures IsWord(KeyName(k))
  {
  }

  lemma VeryLongKeyNamesAreWords(k: Key)
    requires 11 < KeySignature(k).0 <= 14
    ensures IsWord(KeyName(k))
  {
  }

  lemma LongestKeyNamesAreWords(k: Key)
    requires 14 < KeySignature(k).0
    ensures IsWord(KeyName(k))
  {
  }

  lemma WordsAreKeys(s: string)
    requires s != "" && IsWord(s) && s[0] != '['
    ensures IsKey(s)
  {
  }

  lemma KeyNamesAreWords(k: Key)
    ensures IsWord(KeyName(k))
  {
    if KeySignature(k).0 <= 6 {
      ShortKeyNamesAreWords(k);
    } else if KeySignature(k).0 <= 10 {
      MiddleKeyNamesAreWords(k);
    } else if KeySignature(k).0 <= 11 {
      LongKeyNamesAreWords(k);
    } else if KeySignature(k).0 <= 14 {
      VeryLongKeyNamesAreWords(k);
    } else {
      LongestKeyNamesAreWords(k);
    }
  }

  lemma KeyNamesAreKeys(k: Key)
    ensures IsKey(KeyName(k))
  {
    KeyNamesAreWords(k);
    KeyNameHasSignature(k);
    WordsAreKeys(KeyName(k));
  }

  lemma {:induction false} CleanEntries(fs: seq<Field>)
    requires CleanFields(fs)
    ensures AreEntries(Entries(fs))
  {
    if fs == [] {
    } else {
      CleanEntries(fs[..|fs| - 1]);
      KeyNamesAreKeys(Last(fs).key);
      assert OneLineEach(Last(fs).values);
    }
  }

  lemma CleanSmallSections(u: UnitSection, s: ServiceSection, i: InstallSection, v: VolumeSection)
    ensures CleanUnit(u) ==> CleanFields(UnitFields(u))
    ensures CleanService(s) ==> CleanFields(ServiceFields(s))
    ensures CleanInstall(i) ==> CleanFields(InstallFields(i))
    ensures CleanVolume(v) ==> CleanFields(VolumeFields(v))
  {
    assert OneLine("yes");
  }

  lemma CleanContainerFields(c: ContainerSection)
    requires CleanContainer(c)
    ensures CleanFields(ContainerFields(c))
  {
    assert OneLine("true") && OneLine(VOLUMES_FROM);
    forall i | 0 <= i < CONTAINER_FIELDS
      ensures OneLineEach(ContainerField(c, i).values)
    {
    }
  }

  lemma ContainerKeysAreDistinct(c: ContainerSection)
    ensures DistinctKeys(ContainerFields(c))
  {
  }

  lemma ServiceKeysAreDistinct(s: ServiceSection)
    ensures DistinctKeys(ServiceFields(s))
  {
  }

  // -------- reading sections back --------

  lemma ParseHeader(name: string)
    requires OneLine(name)
    ensures OneLine(Bracketed(name)) && ParseLine(Bracketed(name)) == Header(name)
  {
    assert Bracketed(name)[1..|Bracketed(name)| - 1] == name;
  }

  lemma ParseFreshSection(secs: seq<Section>, name: string, es: seq<Entry>)
    requires AreEntries(es)
    ensures ParseLines(secs + [Section(name, [])], EntryLines(es)) == secs + [Section(name, es)]
  {
    var next := secs + [Section(name, [])];
    ParseEntryLines(next, es);
    InsertAtEnd(next, es);
    assert [] + es == es;
    assert next[|secs| := Section(name, es)] == secs + [Section(name, es)];
  }

  lemma ParseAround(secs: seq<Section>, header: string, middle: seq<string>, tail: seq<string>)
    requires |secs| > 0 && tail in {[], [""]}
    ensures ParseLines(secs, [header] + middle + tail) == ParseLines(AddItem(secs, ParseLine(header)), middle)
  {
    ParseConcat(secs, [header] + middle, tail);
    ParseConcat(secs, [header], middle);
  }

  lemma ParseSectionLines(secs: seq<Section>, name: string, fs: seq<Field>, tail: seq<string>)
    requires |secs| > 0 && OneLine(name) && CleanFields(fs) && tail in {[], [""]}
    ensures ParseLines(secs, SectionLines(name, fs, tail)) == secs + [Section(name, Entries(fs))]
  {
    ParseHeader(name);
    CleanEntries(fs);
    ParseAround(secs, Bracketed(name), EntryLines(Entries(fs)), tail);
    ParseFreshSection(secs, name, Entries(fs));
  }

  lemma SectionLinesAreOneLine(name: string, fs: seq<Field>, tail: seq<string>)
    requires OneLine(name) && CleanFields(fs) && tail in {[], [""]}
    ensures OneLineEach(SectionLines(name, fs, tail))
  {
    ParseHeader(name);
    CleanEntries(fs);
    EntryLinesAreOneLine(Entries(fs));
  }

  // A section that is printed only if there is something in it.
  datatype Part = Part(on: bool, name: string, entries: seq<Entry>)

  function PartSections(p: Part): seq<Section> {
    if p.on then [Section(p.name, p.entries)] else []
  }

  function Emitted(on: bool, name: string, fs: seq<Field>): seq<Section> {
    PartSections(Part(on, name, Entries(fs)))
  }

  // The sections a printed unit parses to.
  function ContainerUnitSections(u: ContainerUnit): seq<Section> {
    START
    + Emitted(UnitEmitted(u.unit), "Unit", UnitFields(u.unit))
    + Emitted(true, "Container", ContainerFields(u.container))
    + Emitted(ServiceEmitted(u.service), "Service", ServiceFields(u.service))
    + Emitted(InstallEmitted(u.install), "Install", InstallFields(u.install))
  }

  function VolumeUnitSections(u: VolumeUnit): seq<Section> {
    START
    + Emitted(UnitEmitted(u.unit), "Unit", UnitFields(u.unit))
    + Emitted(true, "Volume", VolumeFields(u.volume))
  }

  // Reading one more part of a unit.
  lemma ParseMore(secs: seq<Section>, before: seq<string>, on: bool, name: string, fs: seq<Field>, tail: seq<string>)
    requires OneLineEach(before) && secs == ParseLines(START, before)
    requires OneLine(name) && CleanFields(fs) && tail in {[], [""]}
    ensures var ls := if on then SectionLines(name, fs, tail) else [];
      && OneLineEach(before + ls)
      && ParseLines(START, before + ls) == secs + Emitted(on, name, fs)
  {
    if on {
      SectionLinesAreOneLine(name, fs, tail);
      ParseSectionLines(secs, name, fs, tail);
      ParseConcat(START, before, SectionLines(name, fs, tail));
    } else {
      assert before + [] == before;
    }
  }

  lemma ParseText(ls: seq<string>)
    requires OneLineEach(ls)
    ensures Parse(Text(ls)) == ParseLines(START, ls)
  {
    SplitText(ls);
    ParseConcat(START, ls, [""]);
  }

  lemma ParsePrintedContainerUnit(u: ContainerUnit)
    requires Clean(u)
    ensures OneLineEach(ContainerUnitLines(u))
    ensures Parse(Text(ContainerUnitLines(u))) == ContainerUnitSections(u)
  {
    CleanSmallSections(u.unit, u.service, u.install, VolumeSection("", "", ""));
    CleanContainerFields(u.container);
    assert OneLine("Unit") && OneLine("Container") && OneLine("Service") && OneLine("Install");
    var l0, l1 := UnitLines(u.unit), UnitLines(u.unit) + ContainerLines(u.container);
    var l2 := l1 + ServiceLines(u.service);
    assert [] + l0 == l0;
    ParseMore(START, [], UnitEmitted(u.unit), "Unit", UnitFields(u.unit), [""]);
    ParseMore(ParseLines(START, l0), l0, true, "Container", ContainerFields(u.container), [""]);
    ParseMore(ParseLines(START, l1), l1, ServiceEmitted(u.service), "Service", ServiceFields(u.service), [""]);
    ParseMore(ParseLines(START, l2), l2, InstallEmitted(u.install), "Install", InstallFields(u.install), []);
    ParseText(ContainerUnitLines(u));
  }

  lemma ParsePrintedVolumeUnit(u: VolumeUnit)
    requires CleanUnit(u.unit) && CleanVolume(u.volume)
    ensures Parse(Text(VolumeUnitLines(u))) == VolumeUnitSections(u)
  {
    CleanSmallSections(u.unit, ServiceSection("", false, ""), InstallSection([]), u.volume);
    assert OneLine("Unit") && OneLine("Volume");
    var l0 := UnitLines(u.unit);
    assert [] + l0 == l0;
    ParseMore(START, [], UnitEmitted(u.unit), "Unit", UnitFields(u.unit), [""]);
    ParseMore(ParseLines(START, l0), l0, true, "Volume", VolumeFields(u.volume), [""]);
    ParseText(VolumeUnitLines(u));
  }

  lemma {:induction false} NoEntries(fs: seq<Field>)
    requires forall i :: 0 <= i < |fs| ==> fs[i].values == []
    ensures Entries(fs) == []
  {
    if fs == [] {
    } else {
      NoEntries(fs[..|fs| - 1]);
    }
  }

  // A part left out of the printed unit has nothing to say.
  lemma UnemittedIsEmpty(u: ContainerUnit)
    ensures !UnitEmitted(u.unit) ==> Entries(UnitFields(u.unit)) == []
    ensures !ServiceEmitted(u.service) ==> Entries(ServiceFields(u.service)) == []
    ensures !InstallEmitted(u.install) ==> Entries(InstallFields(u.install)) == []
  {
    if !UnitEmitted(u.unit) {
      NoEntries(UnitFields(u.unit));
    }
    if !ServiceEmitted(u.service) {
      NoEntries(ServiceFields(u.service));
    }
    if !InstallEmitted(u.install) {
      NoEntries(InstallFields(u.install));
    }
  }

  lemma EntriesOfFive(
    a: seq<Section>, b: seq<Section>, c: seq<Section>, d: seq<Section>, e: seq<Section>, which: string)
    ensures EntriesOf(a + b + c + d + e, which)
      == EntriesOf(a, which) + EntriesOf(b, which) + EntriesOf(c, which) + EntriesOf(d, which) + EntriesOf(e, which)
  {
    EntriesOfConcat(a, b, which);
    EntriesOfConcat(a + b, c, which);
    EntriesOfConcat(a + b + c, d, which);
    EntriesOfConcat(a + b + c + d, e, which);
  }

  function PartEntries(p: Part, which: string): seq<Entry> {
    if p.on && p.name == which then p.entries else []
  }

  lemma EntriesOfPart(p: Part, which: string)
    ensures EntriesOf(PartSections(p), which) == PartEntries(p, which)
  {
    assert p.on ==> PartSections(p)[1..] == [];
  }

  lemma EntriesOfParts(init: seq<Section>, p0: Part, p1: Part, p2: Part, p3: Part, which: string)
    requires EntriesOf(init, which) == []
    ensures EntriesOf(init + PartSections(p0) + PartSections(p1) + PartSections(p2) + PartSections(p3), which)
      == PartEntries(p0, which) + PartEntries(p1, which) + PartEntries(p2, which) + PartEntries(p3, which)
  {
    EntriesOfFive(init, PartSections(p0), PartSections(p1), PartSections(p2), PartSections(p3), which);
    EntriesOfPart(p0, which);
    EntriesOfPart(p1, which);
    EntriesOfPart(p2, which);
    EntriesOfPart(p3, which);
    assert [] + PartEntries(p0, which) == PartEntries(p0, which);
  }

  lemma NothingBeforeHeaders(which: string)
    ensures which != "" ==> EntriesOf(START, which) == []
  {
    assert START[1..] == [];
  }

  // What the printed unit says under each section name.
  lemma EntriesOfPrinted(u: ContainerUnit)
    ensures var secs := ContainerUnitSections(u);
      && EntriesOf(secs, "Unit") == Entries(UnitFields(u.unit))
      && EntriesOf(secs, "Container") == Entries(ContainerFields(u.container))
      && EntriesOf(secs, "Service") == Entries(ServiceFields(u.service))
      && EntriesOf(secs, "Install") == Entries(InstallFields(u.install))
  {
    var p0 := Part(UnitEmitted(u.unit), "Unit", Entries(UnitFields(u.unit)));
    var p1 := Part(true, "Container", Entries(ContainerFields(u.container)));
    var p2 := Part(ServiceEmitted(u.service), "Service", Entries(ServiceFields(u.service)));
    var p3 := Part(InstallEmitted(u.install), "Install", Entries(InstallFields(u.install)));
    UnemittedIsEmpty(u);
    NothingBeforeHeaders("Unit");
    EntriesOfParts(START, p0, p1, p2, p3, "Unit");
    NothingBeforeHeaders("Container");
    EntriesOfParts(START, p0, p1, p2, p3, "Container");
    NothingBeforeHeaders("Service");
    EntriesOfParts(START, p0, p1, p2, p3, "Service");
    NothingBeforeHeaders("Install");
    EntriesOfParts(START, p0, p1, p2, p3, "Install");
    assert "Service" != "Install";
  }

  // -------- reading directives back --------

  // The lookup gives exactly the values of these fields.
  ghost predicate Says(v: Lookup, fs: seq<Field>) {
    forall i :: 0 <= i < |fs| ==> v(fs[i].key) == fs[i].values
  }

  lemma EntriesSay(fs: seq<Field>)
    requires DistinctKeys(fs)
    ensures Says(All(Entries(fs)), fs)
  {
    forall i | 0 <= i < |fs|
      ensures All(Entries(fs))(fs[i].key) == fs[i].values
    {
      ValuesOfEntries(fs, i);
    }
  }

  lemma {:induction false} ReadVolumesFromArgs(names: seq<string>)
    ensures ReadVolumesFrom(VolumesFromArgs(names)) == names
  {
    if names == [] {
    } else {
      var args := VolumesFromArgs(names);
      assert args[0] == VOLUMES_FROM + names[0];
      assert args[0][|VOLUMES_FROM|..] == names[0];
      assert args[1..] == VolumesFromArgs(names[1..]);
      ReadVolumesFromArgs(names[1..]);
    }
  }

  lemma ReadTimeoutBack(seconds: int)
    requires seconds >= 0
    ensures ReadTimeout(if Timeout(seconds) == [] then "" else Last(Timeout(seconds))) == seconds
  {
    if seconds > 0 {
      DecimalRoundTrip(seconds);
    }
  }

  lemma FieldBack(v: Lookup, c: ContainerSection, i: nat)
    requires Says(v, ContainerFields(c)) && i < CONTAINER_FIELDS
    ensures v(ContainerField(c, i).key) == ContainerField(c, i).values
  {
    assert ContainerFields(c)[i] == ContainerField(c, i);
  }

  lemma FirstFieldsBack(v: Lookup, c: ContainerSection)
    requires Says(v, ContainerFields(c))
    ensures v(Image) == Opt(c.image) && v(Entrypoint) == Opt(c.entrypoint) && v(Exec) == Opt(c.exec)
    ensures v(EnvironmentFile) == c.environmentFiles && v(Environment) == c.environments
    ensures v(Volume) == c.volumes && v(Mount) == c.mounts && v(AddDevice) == c.addDevices
    ensures v(AddCapability) == c.addCapabilities
  {
    FieldBack(v, c, 0);
    FieldBack(v, c, 1);
    FieldBack(v, c, 2);
    FieldBack(v, c, 3);
    FieldBack(v, c, 4);
    FieldBack(v, c, 5);
    FieldBack(v, c, 6);
    FieldBack(v, c, 7);
    FieldBack(v, c, 8);
  }

  lemma LastFieldsBack(v: Lookup, c: ContainerSection)
    requires Says(v, ContainerFields(c))
    ensures v(DropCapability) == c.dropCapabilities
    ensures v(NoNewPrivileges) == Flag(c.noNewPrivileges, "true")
    ensures v(User) == Opt(c.user) && v(PublishPort) == c.publishPorts
    ensures v(MemoryLimit) == Opt(c.memoryLimit) && v(Network) == Opt(c.network)
    ensures v(PodmanArgs) == VolumesFromArgs(c.volumesFrom)
    ensures v(StopTimeout) == Timeout(c.stopTimeout) && v(Sysctl) == c.sysctls
  {
    FieldBack(v, c, 9);
    FieldBack(v, c, 10);
    FieldBack(v, c, 11);
    FieldBack(v, c, 12);
    FieldBack(v, c, 13);
    FieldBack(v, c, 14);
    FieldBack(v, c, 15);
    FieldBack(v, c, 16);
    FieldBack(v, c, 17);
  }

  lemma ReadContainerBack(v: Lookup, c: ContainerSection)
    requires c.stopTimeout >= 0 && Says(v, ContainerFields(c))
    ensures ReadContainer(v) == c
  {
    FirstFieldsBack(v, c);
    LastFieldsBack(v, c);
    ReadVolumesFromArgs(c.volumesFrom);
    ReadTimeoutBack(c.stopTimeout);
  }

  lemma ReadUnitBack(v: Lookup, u: UnitSection)
    requires Says(v, UnitFields(u))
    ensures ReadUnit(v) == u
  {
    var fs := UnitFields(u);
    assert fs[0].key == Description && fs[1].key == After && fs[2].key == Requires;
  }

  lemma ReadServiceBack(v: Lookup, s: ServiceSection)
    requires Says(v, ServiceFields(s))
    ensures ReadService(v) == s
  {
    var fs := ServiceFields(s);
    assert fs[0].key == Type && fs[1].key == RemainAfterExit && fs[2].key == Restart;
  }

  lemma ReadInstallBack(v: Lookup, i: InstallSection)
    requires Says(v, InstallFields(i))
    ensures ReadInstall(v) == i
  {
    assert InstallFields(i)[0].key == WantedBy;
  }

  lemma ReadVolumeBack(v: Lookup, w: VolumeSection)
    requires Says(v, VolumeFields(w))
    ensures ReadVolume(v) == w
  {
    var fs := VolumeFields(w);
    assert fs[0].key == Driver && fs[1].key == Image && fs[2].key == VolumeName;
  }

  // -------- parsed text never contains a line break --------

  predicate CleanValues(es: seq<Entry>) {
    forall i :: 0 <= i < |es| ==> OneLine(es[i].value)
  }

  predicate CleanSections(secs: seq<Section>) {
    forall i :: 0 <= i < |secs| ==> CleanValues(secs[i].entries)
  }

  lemma {:induction false} ParsedLinesAreClean(secs: seq<Section>, ls: seq<string>)
    requires |secs| > 0 && CleanSections(secs) && OneLineEach(ls)
    ensures CleanSections(ParseLines(secs, ls))
    decreases |ls|
  {
    if ls == [] {
    } else {
      assert OneLine(ls[0]);
      assert forall item :: item == ParseLine(ls[0]) && item.Assign? ==> OneLine(item.entry.value);
      ParsedLinesAreClean(AddItem(secs, ParseLine(ls[0])), ls[1..]);
    }
  }

  lemma ParsedSectionsAreClean(text: string)
    ensures CleanSections(Parse(text))
  {
    SplitIsOneLineEach(text);
    ParsedLinesAreClean(START, Split(text));
  }

  lemma {:induction false} EntriesOfAreClean(secs: seq<Section>, name: string)
    requires CleanSections(secs)
    ensures CleanValues(EntriesOf(secs, name))
  {
    if secs == [] {
    } else {
      EntriesOfAreClean(secs[1..], name);
    }
  }

  lemma {:induction false} ValuesAreClean(es: seq<Entry>, key: string)
    requires CleanValues(es)
    ensures OneLineEach(Values(es, key))
  {
    if es == [] {
    } else {
      ValuesAreClean(es[1..], key);
    }
  }

  lemma LookupIsClean(secs: seq<Section>, name: string)
    requires CleanSections(secs)
    ensures forall k :: OneLineEach(Of(secs, name)(k))
  {
    EntriesOfAreClean(secs, name);
    forall k: Key
      ensures OneLineEach(Of(secs, name)(k))
    {
      ValuesAreClean(EntriesOf(secs, name), KeyName(k));
    }
  }

  lemma {:induction false} VolumesFromAreClean(args: seq<string>)
    requires OneLineEach(args)
    ensures OneLineEach(ReadVolumesFrom(args))
  {
    if args == [] {
    } else {
      assert OneLine(args[0]);
      VolumesFromAreClean(args[1..]);
    }
  }

  lemma ReadContainerIsClean(v: Lookup)
    requires forall k :: OneLineEach(v(k))
    ensures CleanContainer(ReadContainer(v)) && ReadContainer(v).stopTimeout >= 0
  {
    VolumesFromAreClean(v(PodmanArgs));
    assert OneLineEach(v(Image)) && OneLineEach(v(Entrypoint)) && OneLineEach(v(Exec));
    assert OneLineEach(v(User)) && OneLineEach(v(MemoryLimit)) && OneLineEach(v(Network));
  }

  lemma ParsedUnitIsClean(text: string)
    ensures Clean(ParseContainerUnit(text)) && ParseContainerUnit(text).container.stopTimeout >= 0
  {
    var secs := Parse(text);
    ParsedSectionsAreClean(text);
    LookupIsClean(secs, "Unit");
    LookupIsClean(secs, "Container");
    LookupIsClean(secs, "Service");
    LookupIsClean(secs, "Install");
    ReadContainerIsClean(Of(secs, "Container"));
  }

  lemma ParsedVolumeIsClean(text: string)
    ensures CleanUnit(ParseVolumeUnit(text).unit) && CleanVolume(ParseVolumeUnit(text).volume)
  {
    ParsedSectionsAreClean(text);
    LookupIsClean(Parse(text), "Unit");
    LookupIsClean(Parse(text), "Volume");
  }

  // -------- round trips --------

  lemma ReadPrintedContainer(c: ContainerSection)
    requires c.stopTimeout >= 0
    ensures ReadContainer(All(Entries(ContainerFields(c)))) == c
  {
    ContainerKeysAreDistinct(c);
    EntriesSay(ContainerFields(c));
    ReadContainerBack(All(Entries(ContainerFields(c))), c);
  }

  lemma ReadPrintedUnit(u: UnitSection)
    ensures ReadUnit(All(Entries(UnitFields(u)))) == u
  {
    EntriesSay(UnitFields(u));
    ReadUnitBack(All(Entries(UnitFields(u))), u);
  }

  lemma ReadPrintedService(s: ServiceSection)
    ensures ReadService(All(Entries(ServiceFields(s)))) == s
  {
    ServiceKeysAreDistinct(s);
    EntriesSay(ServiceFields(s));
    ReadServiceBack(All(Entries(ServiceFields(s))), s);
  }

  lemma ReadPrintedInstall(i: InstallSection)
    ensures ReadInstall(All(Entries(InstallFields(i)))) == i
  {
    EntriesSay(InstallFields(i));
    ReadInstallBack(All(Entries(InstallFields(i))), i);
  }

  lemma ReadPrintedVolume(w: VolumeSection)
    ensures ReadVolume(All(Entries(VolumeFields(w)))) == w
  {
    EntriesSay(VolumeFields(w));
    ReadVolumeBack(All(Entries(VolumeFields(w))), w);
  }

  lemma PrintedContainerUnitReadsBack(u: ContainerUnit)
    requires Clean(u) && u.container.stopTimeout >= 0
    ensures ParseContainerUnit(Text(ContainerUnitLines(u))) == u
  {
    ParsePrintedContainerUnit(u);
    EntriesOfPrinted(u);
    ReadPrintedUnit(u.unit);
    ReadPrintedContainer(u.container);
    ReadPrintedService(u.service);
    ReadPrintedInstall(u.install);
  }

  // Printing and parsing are inverse exactly on units whose strings have no line break and whose
  // stop timeout is not negative.
  lemma ContainerUnitRoundTripIff(u: ContainerUnit)
    ensures ParseContainerUnit(Text(ContainerUnitLines(u))) == u <==> Clean(u) && u.container.stopTimeout >= 0
  {
    if Clean(u) && u.container.stopTimeout >= 0 {
      PrintedContainerUnitReadsBack(u);
    } else {
      ParsedUnitIsClean(Text(ContainerUnitLines(u)));
    }
  }

  lemma ContainerUnitPrintingIsInjective(u: ContainerUnit, w: ContainerUnit)
    requires Clean(u) && u.container.stopTimeout >= 0
    requires Clean(w) && w.container.stopTimeout >= 0
    requires Text(ContainerUnitLines(u)) == Text(ContainerUnitLines(w))
    ensures u == w
  {
    PrintedContainerUnitReadsBack(u);
    PrintedContainerUnitReadsBack(w);
  }

  lemma EntriesOfPrintedVolume(u: VolumeUnit)
    ensures var secs := VolumeUnitSections(u);
      && EntriesOf(secs, "Unit") == Entries(UnitFields(u.unit))
      && EntriesOf(secs, "Volume") == Entries(VolumeFields(u.volume))
  {
    var p0 := Part(UnitEmitted(u.unit), "Unit", Entries(UnitFields(u.unit)));
    var p1 := Part(true, "Volume", Entries(VolumeFields(u.volume)));
    var off := Part(false, "", []);
    assert VolumeUnitSections(u) == START + PartSections(p0) + PartSections(p1) + PartSections(off) + PartSections(off);
    NothingBeforeHeaders("Unit");
    EntriesOfParts(START, p0, p1, off, off, "Unit");
    NothingBeforeHeaders("Volume");
    EntriesOfParts(START, p0, p1, off, off, "Volume");
    if !UnitEmitted(u.unit) {
      NoEntries(UnitFields(u.unit));
    }
  }

  lemma PrintedVolumeUnitReadsBack(u: VolumeUnit)
    requires CleanUnit(u.unit) && CleanVolume(u.volume)
    ensures ParseVolumeUnit(Text(VolumeUnitLines(u))) == u
  {
    ParsePrintedVolumeUnit(u);
    EntriesOfPrintedVolume(u);
    ReadPrintedUnit(u.unit);
    ReadPrintedVolume(u.volume);
  }

  lemma VolumeUnitRoundTripIff(u: VolumeUnit)
    ensures ParseVolumeUnit(Text(VolumeUnitLines(u))) == u <==> CleanUnit(u.unit) && CleanVolume(u.volume)
  {
    if CleanUnit(u.unit) && CleanVolume(u.volume) {
      PrintedVolumeUnitReadsBack(u);
    } else {
      ParsedVolumeIsClean(Text(VolumeUnitLines(u)));
    }
  }
}
