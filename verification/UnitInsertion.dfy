// What inserting an Environment= line before [Service] does to a printed container unit.
module UnitInsertion {
  import opened Common
  import opened IniText
  import opened Insertion
  import opened UnitPrinter
  import opened UnitRoundTrip
  import PostConvert

  function EnvironmentEntry(x: string): Entry {
    Entry(KeyName(Environment), x)
  }

  function WithEnvironment(text: string, x: string): string {
    InsertBeforeSection(text, PostConvert.SERVICE, Text(EntryLines([EnvironmentEntry(x)])))
  }

  // -------- finding the header line of a printed unit --------

  ghost predicate NoServiceHeader(ls: seq<string>) {
    forall i :: 0 <= i < |ls| ==> !(Bracketed(PostConvert.SERVICE) <= ls[i])
  }

  lemma EntryIsNoHeader(e: Entry)
    requires IsEntry(e)
    ensures !(Bracketed(PostConvert.SERVICE) <= EntryLine(e))
  {
    assert EntryLine(e)[0] == e.key[0];
  }

  lemma SectionHasNoServiceHeader(name: string, fs: seq<Field>, tail: seq<string>)
    requires CleanFields(fs) && tail in {[], [""]}
    requires name != "" && name[0] != 'S'
    ensures NoServiceHeader(SectionLines(name, fs, tail))
  {
    CleanEntries(fs);
    var ls := SectionLines(name, fs, tail);
    assert Bracketed(PostConvert.SERVICE)[1] == 'S' && Bracketed(name)[1] == name[0];
    forall i | 0 <= i < |ls|
      ensures !(Bracketed(PostConvert.SERVICE) <= ls[i])
    {
      if 1 <= i <= |Entries(fs)| {
        EntryIsNoHeader(Entries(fs)[i - 1]);
      }
    }
  }

  lemma NoHeaderConcat(a: seq<string>, b: seq<string>)
    requires NoServiceHeader(a) && NoServiceHeader(b)
    ensures NoServiceHeader(a + b)
  {
  }

  lemma PartsHaveNoServiceHeader(u: ContainerUnit)
    requires Clean(u)
    ensures NoServiceHeader(UnitLines(u.unit) + ContainerLines(u.container))
    ensures NoServiceHeader(InstallLines(u.install))
  {
    CleanSmallSections(u.unit, u.service, u.install, VolumeSection("", "", ""));
    CleanContainerFields(u.container);
    SectionHasNoServiceHeader("Unit", UnitFields(u.unit), [""]);
    SectionHasNoServiceHeader("Container", ContainerFields(u.container), [""]);
    SectionHasNoServiceHeader("Install", InstallFields(u.install), []);
    NoHeaderConcat(UnitLines(u.unit), ContainerLines(u.container));
  }

  // In front of the first [Service] line stand the unit and container sections; without a service
  // section there is no such line.
  lemma PrintedHeaderLine(u: ContainerUnit)
    requires Clean(u)
    ensures var ls, front := ContainerUnitLines(u) + [""], UnitLines(u.unit) + ContainerLines(u.container);
      && HeaderLine(ls, PostConvert.SERVICE) == (if ServiceEmitted(u.service) then |front| else |ls|)
      && ls[..|front|] == front
      && (ServiceEmitted(u.service) ==> ls[|front|] == Bracketed(PostConvert.SERVICE))
  {
    PartsHaveNoServiceHeader(u);
    var front := UnitLines(u.unit) + ContainerLines(u.container);
    var ls := ContainerUnitLines(u) + [""];
    if ServiceEmitted(u.service) {
      assert ServiceLines(u.service)[0] == Bracketed(PostConvert.SERVICE);
      assert ls == front + ServiceLines(u.service) + InstallLines(u.install) + [""];
      HeaderLineIs(ls, PostConvert.SERVICE, |front|);
    } else {
      assert ls == front + InstallLines(u.install) + [""];
      NoHeaderConcat(front, InstallLines(u.install));
      NoHeaderConcat(front + InstallLines(u.install), [""]);
      HeaderLineIs(ls, PostConvert.SERVICE, |ls|);
    }
  }

  // -------- the sections after the insertion --------

  function UnitPart(u: ContainerUnit): Part {
    Part(UnitEmitted(u.unit), "Unit", Entries(UnitFields(u.unit)))
  }

  function ContainerPart(u: ContainerUnit, extra: seq<Entry>): Part {
    Part(true, "Container", Entries(ContainerFields(u.container)) + extra)
  }

  function ServicePart(u: ContainerUnit): Part {
    Part(ServiceEmitted(u.service), "Service", Entries(ServiceFields(u.service)))
  }

  function InstallPart(u: ContainerUnit, extra: seq<Entry>): Part {
    Part(InstallEmitted(u.install), "Install", Entries(InstallFields(u.install)) + extra)
  }

  function SectionsWith(u: ContainerUnit, inContainer: seq<Entry>, inInstall: seq<Entry>): seq<Section> {
    START + PartSections(UnitPart(u)) + PartSections(ContainerPart(u, inContainer))
    + PartSections(ServicePart(u)) + PartSections(InstallPart(u, inInstall))
  }

  lemma SectionsWithNothing(u: ContainerUnit)
    ensures SectionsWith(u, [], []) == ContainerUnitSections(u)
  {
    assert Entries(ContainerFields(u.container)) + [] == Entries(ContainerFields(u.container));
    assert Entries(InstallFields(u.install)) + [] == Entries(InstallFields(u.install));
  }

  // Inserting behind the sections `init` and a section of that name.
  lemma InsertBehind(text: string, x: string, init: seq<Section>, name: string, es: seq<Entry>, rest: seq<Section>)
    requires OneLine(x)
    requires Before(text, PostConvert.SERVICE) == init + [Section(name, es)]
    requires Parse(text) == init + [Section(name, es)] + rest
    ensures Parse(WithEnvironment(text, x)) == init + [Section(name, es + [EnvironmentEntry(x)])] + rest
  {
    KeyNamesAreKeys(Environment);
    assert OneLine(PostConvert.SERVICE);
    InsertedEntries(text, PostConvert.SERVICE, [EnvironmentEntry(x)]);
    InsertAtMiddle(init, Section(name, es), rest, [EnvironmentEntry(x)]);
  }

  predicate GoesToContainer(u: ContainerUnit) {
    ServiceEmitted(u.service) || !InstallEmitted(u.install)
  }

  // The sections in front of the insertion point.
  lemma ParsedFront(u: ContainerUnit)
    requires Clean(u)
    ensures var text := Text(ContainerUnitLines(u));
      && Parse(text) == ContainerUnitSections(u)
      && Before(text, PostConvert.SERVICE) ==
           if ServiceEmitted(u.service) then
             START + Emitted(UnitEmitted(u.unit), "Unit", UnitFields(u.unit))
             + Emitted(true, "Container", ContainerFields(u.container))
           else Parse(text)
  {
    ParsePrintedContainerUnit(u);
    SplitText(ContainerUnitLines(u));
    PrintedHeaderLine(u);
    var ls := ContainerUnitLines(u) + [""];
    assert ls[..|ls|] == ls;
    ParsedPrefix(u);
  }

  lemma ParsedPrefix(u: ContainerUnit)
    requires Clean(u)
    ensures ParseLines(START, UnitLines(u.unit) + ContainerLines(u.container)) ==
      START + Emitted(UnitEmitted(u.unit), "Unit", UnitFields(u.unit))
      + Emitted(true, "Container", ContainerFields(u.container))
  {
    CleanSmallSections(u.unit, u.service, u.install, VolumeSection("", "", ""));
    CleanContainerFields(u.container);
    assert OneLine("Unit") && OneLine("Container");
    var l0 := UnitLines(u.unit);
    assert [] + l0 == l0;
    ParseMore(START, [], UnitEmitted(u.unit), "Unit", UnitFields(u.unit), [""]);
    ParseMore(ParseLines(START, l0), l0, true, "Container", ContainerFields(u.container), [""]);
  }

  lemma FrontOfContainer(u: ContainerUnit)
    requires Clean(u) && GoesToContainer(u)
    ensures var text, init := Text(ContainerUnitLines(u)), START + PartSections(UnitPart(u));
      var rest := PartSections(ServicePart(u)) + PartSections(InstallPart(u, []));
      var section := Section("Container", Entries(ContainerFields(u.container)));
      && Before(text, PostConvert.SERVICE) == init + [section]
      && Parse(text) == init + [section] + rest
  {
    ParsedFront(u);
    SectionsAround(u, []);
    SectionsWithNothing(u);
    var es := Entries(ContainerFields(u.container));
    var rest := PartSections(ServicePart(u)) + PartSections(InstallPart(u, []));
    assert es + [] == es;
    assert !ServiceEmitted(u.service) ==> rest == [];
  }

  lemma InsertedIntoContainer(u: ContainerUnit, x: string)
    requires Clean(u) && OneLine(x) && GoesToContainer(u)
    ensures Parse(WithEnvironment(Text(ContainerUnitLines(u)), x)) == SectionsWith(u, [EnvironmentEntry(x)], [])
  {
    FrontOfContainer(u);
    InsertBehind(Text(ContainerUnitLines(u)), x, START + PartSections(UnitPart(u)), "Container",
                 Entries(ContainerFields(u.container)),
                 PartSections(ServicePart(u)) + PartSections(InstallPart(u, [])));
    SectionsAround(u, [EnvironmentEntry(x)]);
  }

  lemma SectionsAround(u: ContainerUnit, extra: seq<Entry>)
    ensures SectionsWith(u, extra, []) ==
      START + PartSections(UnitPart(u))
      + [Section("Container", Entries(ContainerFields(u.container)) + extra)]
      + (PartSections(ServicePart(u)) + PartSections(InstallPart(u, [])))
  {
  }

  lemma InsertedIntoInstall(u: ContainerUnit, x: string)
    requires Clean(u) && OneLine(x) && !GoesToContainer(u)
    ensures Parse(WithEnvironment(Text(ContainerUnitLines(u)), x)) == SectionsWith(u, [], [EnvironmentEntry(x)])
  {
    var init := START + PartSections(UnitPart(u)) + PartSections(ContainerPart(u, [])) + PartSections(ServicePart(u));
    var es := Entries(InstallFields(u.install));
    ParsedFront(u);
    SectionsWithNothing(u);
    assert es + [] == es;
    assert init + [Section("Install", es)] + [] == init + [Section("Install", es)];
    InsertBehind(Text(ContainerUnitLines(u)), x, init, "Install", es, []);
  }

  // -------- reading the result --------

  lemma EntriesWith(u: ContainerUnit, inContainer: seq<Entry>, inInstall: seq<Entry>)
    requires !InstallEmitted(u.install) ==> inInstall == []
    ensures var secs := SectionsWith(u, inContainer, inInstall);
      && EntriesOf(secs, "Unit") == Entries(UnitFields(u.unit))
      && EntriesOf(secs, "Container") == Entries(ContainerFields(u.container)) + inContainer
      && EntriesOf(secs, "Service") == Entries(ServiceFields(u.service))
      && EntriesOf(secs, "Install") == Entries(InstallFields(u.install)) + inInstall
  {
    var p0, p1, p2, p3 := UnitPart(u), ContainerPart(u, inContainer), ServicePart(u), InstallPart(u, inInstall);
    UnemittedIsEmpty(u);
    NothingBeforeHeaders("Unit");
    EntriesOfParts(START, p0, p1, p2, p3, "Unit");
    NothingBeforeHeaders("Container");
    EntriesOfParts(START, p0, p1, p2, p3, "Container");
    NothingBeforeHeaders("Service");
    EntriesOfParts(START, p0, p1, p2, p3, "Service");
    NothingBeforeHeaders("Install");
    EntriesOfParts(START, p0, p1, p2, p3, "Install");
    assert "Service" != "Install";
  }

  lemma LookupWithEnvironment(es: seq<Entry>, x: string, k: Key)
    ensures All(es + [EnvironmentEntry(x)])(k) == All(es)(k) + if k == Environment then [x] else []
  {
    ValuesConcat(es, [EnvironmentEntry(x)], KeyName(k));
    assert [EnvironmentEntry(x)] == FieldEntries(Field(Environment, [x]));
    ValuesOfField(Field(Environment, [x]), k);
  }

  lemma ReadContainerWithEnvironment(c: ContainerSection, x: string)
    requires c.stopTimeout >= 0
    ensures ReadContainer(All(Entries(ContainerFields(c)) + [EnvironmentEntry(x)]))
      == c.(environments := c.environments + [x])
  {
    var c' := c.(environments := c.environments + [x]);
    var v, v' := All(Entries(ContainerFields(c))), All(Entries(ContainerFields(c)) + [EnvironmentEntry(x)]);
    ContainerKeysAreDistinct(c);
    EntriesSay(ContainerFields(c));
    forall i | 0 <= i < CONTAINER_FIELDS
      ensures v'(ContainerFields(c')[i].key) == ContainerFields(c')[i].values
    {
      FieldBack(v, c, i);
      LookupWithEnvironment(Entries(ContainerFields(c)), x, ContainerField(c, i).key);
      SameFieldBut(c, x, i);
    }
    ReadContainerBack(v', c');
  }

  lemma SameFieldBut(c: ContainerSection, x: string, i: nat)
    requires i < CONTAINER_FIELDS
    ensures var f, f' := ContainerField(c, i), ContainerField(c.(environments := c.environments + [x]), i);
      f'.key == f.key && f'.values == f.values + if f.key == Environment then [x] else []
  {
  }

  lemma ReadInstallWithEnvironment(i: InstallSection, x: string)
    ensures ReadInstall(All(Entries(InstallFields(i)) + [EnvironmentEntry(x)])) == i
  {
    ReadPrintedInstall(i);
    LookupWithEnvironment(Entries(InstallFields(i)), x, WantedBy);
  }

  // Read back, the inserted line is one more Environment -- or nothing at all, when there is no
  // [Service] section to stand before and [Install] comes last.
  lemma InsertionMeetsPrinter(u: ContainerUnit, x: string)
    requires Clean(u) && u.container.stopTimeout >= 0 && OneLine(x)
    ensures var u' := u.(container := u.container.(environments := u.container.environments + [x]));
      ParseContainerUnit(WithEnvironment(Text(ContainerUnitLines(u)), x)) ==
        if ServiceEmitted(u.service) || u.install.wantedBy == [] then u' else u
  {
    if GoesToContainer(u) {
      InsertedIntoContainer(u, x);
      EntriesWith(u, [EnvironmentEntry(x)], []);
      ReadContainerWithEnvironment(u.container, x);
      assert Entries(InstallFields(u.install)) + [] == Entries(InstallFields(u.install));
      ReadPrintedInstall(u.install);
    } else {
      InsertedIntoInstall(u, x);
      EntriesWith(u, [], [EnvironmentEntry(x)]);
      assert Entries(ContainerFields(u.container)) + [] == Entries(ContainerFields(u.container));
      ReadPrintedContainer(u.container);
      ReadInstallWithEnvironment(u.install, x);
    }
    ReadPrintedUnit(u.unit);
    ReadPrintedService(u.service);
  }

  // The environment is extended exactly when the service section is printed or there is no [Install].
  lemma EnvironmentReachesContainerIff(u: ContainerUnit, x: string)
    requires Clean(u) && u.container.stopTimeout >= 0 && OneLine(x)
    ensures ParseContainerUnit(WithEnvironment(Text(ContainerUnitLines(u)), x)).container.environments
              == u.container.environments + [x]
      <==> ServiceEmitted(u.service) || u.install.wantedBy == []
  {
    InsertionMeetsPrinter(u, x);
    assert |u.container.environments + [x]| != |u.container.environments|;
  }

  // -------- a unit that loses the line --------

  const LOST_UNIT := ContainerUnit(
    UnitSection("", [], []),
    ContainerSection("image", "", "", [], [], [], [], [], [], [], false, "", [], "", "", [], [], 0),
    ServiceSection("", false, ""),
    InstallSection(["default.target"]))

  lemma LostUnitIsClean()
    ensures Clean(LOST_UNIT) && LOST_UNIT.container.stopTimeout >= 0 && !ServiceEmitted(LOST_UNIT.service)
  {
  }

  // Without a service section and with [Install] last, no environment is gained.
  lemma LostEnvironment(x: string)
    requires OneLine(x)
    ensures Clean(LOST_UNIT)
    ensures ParseContainerUnit(WithEnvironment(Text(ContainerUnitLines(LOST_UNIT)), x)) == LOST_UNIT
  {
    LostUnitIsClean();
    InsertionMeetsPrinter(LOST_UNIT, x);
  }

  // -------- the fixups on a printed compute unit --------

  lemma OneLineConcat(a: string, b: string)
    requires OneLine(a) && OneLine(b)
    ensures OneLine(a + b)
  {
  }

  lemma PathIsOneLine()
    ensures OneLine(PostConvert.PASST_PATH)
  {
    OneLineConcat("PATH=/passt-bin:", "/usr/local/sbin:/usr/local/bin:");
    OneLineConcat("PATH=/passt-bin:" + "/usr/local/sbin:/usr/local/bin:", "/usr/sbin:/usr/bin:/sbin:/bin");
  }

  lemma PathIsEnvironment()
    ensures PostConvert.PATH_ENTRIES == [EnvironmentEntry(PostConvert.PASST_PATH)]
  {
  }

  lemma FixedComputeContent(files: seq<PostConvert.UnitFile>, vmName: string, o: PostConvert.Options, i: nat)
    requires o.passtWorkarounds && i < |files| && files[i].name == vmName + "-compute.container"
    requires forall j :: 0 <= j < i ==> files[j].name != vmName + "-compute.container"
    ensures var fixed := PostConvert.Fixed(files, vmName, o);
      && |fixed| == |files|
      && fixed[i] == files[i].(content := WithEnvironment(files[i].content, PostConvert.PASST_PATH))
  {
    PostConvert.FileIndexIs(files, PostConvert.ComputeName(vmName), i);
    PostConvert.FixupsPerFile(files, vmName, o, i);
    PostConvert.PodIsNotCompute(vmName);
    PathIsEnvironment();
  }

  // After the fixups with passt workarounds, the first file called <vm>-compute.container, if printed, reads
  // back with /passt-bin in front of the system's PATH behind its other environments, in all cases but the
  // fallback after [Install].
  lemma FixedComputeReadsBack(
    files: seq<PostConvert.UnitFile>, vmName: string, o: PostConvert.Options, u: ContainerUnit, i: nat, path: string)
    requires Clean(u) && u.container.stopTimeout >= 0 && o.passtWorkarounds
    requires i < |files| && files[i].name == vmName + "-compute.container"
    requires forall j :: 0 <= j < i ==> files[j].name != vmName + "-compute.container"
    requires files[i].content == Text(ContainerUnitLines(u))
    requires path == "PATH=/passt-bin:" + "/usr/local/sbin:/usr/local/bin:" + "/usr/sbin:/usr/bin:/sbin:/bin"
    ensures var fixed := PostConvert.Fixed(files, vmName, o);
      var u' := u.(container := u.container.(environments := u.container.environments + [path]));
      && |fixed| == |files| && fixed[i].name == files[i].name
      && ParseContainerUnit(fixed[i].content) == if ServiceEmitted(u.service) || u.install.wantedBy == [] then u' else u
  {
    assert path == PostConvert.PASST_PATH;
    PathIsOneLine();
    FixedComputeContent(files, vmName, o, i);
    InsertionMeetsPrinter(u, path);
  }
}
