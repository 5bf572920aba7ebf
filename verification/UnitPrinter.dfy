// RenderContainerUnit and RenderVolumeUnit: Quadlet units written as INI text.
module UnitPrinter {
  import opened Common
  import opened IniText
  import opened Insertion

  datatype UnitSection = UnitSection(description: string, after: seq<string>, requires': seq<string>)

  datatype ContainerSection = ContainerSection(
    image: string,
    entrypoint: string,
    exec: string,
    environments: seq<string>,
    environmentFiles: seq<string>,
    volumes: seq<string>,
    mounts: seq<string>,
    addDevices: seq<string>,
    addCapabilities: seq<string>,
    dropCapabilities: seq<string>,
    noNewPrivileges: bool,
    user: string,
    publishPorts: seq<string>,
    memoryLimit: string,
    network: string,
    volumesFrom: seq<string>,
    sysctls: seq<string>,
    stopTimeout: int)

  datatype ServiceSection = ServiceSection(kind: string, remainAfterExit: bool, restart: string)

  datatype InstallSection = InstallSection(wantedBy: seq<string>)

  datatype ContainerUnit = ContainerUnit(
    unit: UnitSection, container: ContainerSection, service: ServiceSection, install: InstallSection)

  datatype VolumeSection = VolumeSection(driver: string, image: string, volumeName: string)

  datatype VolumeUnit = VolumeUnit(unit: UnitSection, volume: VolumeSection)

  // -------- the directives of a section, in printing order --------

  // The directives used, named as they are printed.
  datatype Key =
    | Description | After | Requires | Image | Entrypoint | Exec | EnvironmentFile | Environment | Volume
    | Mount | AddDevice | AddCapability | DropCapability | NoNewPrivileges | User | PublishPort
    | MemoryLimit | Network | PodmanArgs | StopTimeout | Sysctl | Type | RemainAfterExit | Restart
    | WantedBy | Driver | VolumeName

  function KeyName(k: Key): string {
    match k
    case Description => "Description"
    case After => "After"
    case Requires => "Requires"
    case Image => "Image"
    case Entrypoint => "Entrypoint"
    case Exec => "Exec"
    case EnvironmentFile => "EnvironmentFile"
    case Environment => "Environment"
    case Volume => "Volume"
    case Mount => "Mount"
    case AddDevice => "AddDevice"
    case AddCapability => "AddCapability"
    case DropCapability => "DropCapability"
    case NoNewPrivileges => "NoNewPrivileges"
    case User => "User"
    case PublishPort => "PublishPort"
    case MemoryLimit => "MemoryLimit"
    case Network => "Network"
    case PodmanArgs => "PodmanArgs"
    case StopTimeout => "StopTimeout"
    case Sysctl => "Sysctl"
    case Type => "Type"
    case RemainAfterExit => "RemainAfterExit"
    case Restart => "Restart"
    case WantedBy => "WantedBy"
    case Driver => "Driver"
    case VolumeName => "VolumeName"
  }

  // Length and first letter tell all the directives apart.
  function KeySignature(k: Key): (nat, char) {
    match k
    case Description => (11, 'D')
    case After => (5, 'A')
    case Requires => (8, 'R')
    case Image => (5, 'I')
    case Entrypoint => (10, 'E')
    case Exec => (4, 'E')
    case EnvironmentFile => (15, 'E')
    case Environment => (11, 'E')
    case Volume => (6, 'V')
    case Mount => (5, 'M')
    case AddDevice => (9, 'A')
    case AddCapability => (13, 'A')
    case DropCapability => (14, 'D')
    case NoNewPrivileges => (15, 'N')
    case User => (4, 'U')
    case PublishPort => (11, 'P')
    case MemoryLimit => (11, 'M')
    case Network => (7, 'N')
    case PodmanArgs => (10, 'P')
    case StopTimeout => (11, 'S')
    case Sysctl => (6, 'S')
    case Type => (4, 'T')
    case RemainAfterExit => (15, 'R')
    case Restart => (7, 'R')
    case WantedBy => (8, 'W')
    case Driver => (6, 'D')
    case VolumeName => (10, 'V')
  }

  lemma KeyNameHasSignature(k: Key)
    ensures |KeyName(k)| == KeySignature(k).0 && KeyName(k)[0] == KeySignature(k).1
  {
  }

  // The directive with that signature.
  function KeyWith(length: nat, first: char): Key {
    match length
    case 4 => if first == 'E' then Exec else if first == 'U' then User else Type
    case 5 => if first == 'A' then After else if first == 'I' then Image else Mount
    case 6 => if first == 'V' then Volume else if first == 'S' then Sysctl else Driver
    case 7 => if first == 'N' then Network else Restart
    case 8 => if first == 'R' then Requires else WantedBy
    case 9 => AddDevice
    case 10 => if first == 'E' then Entrypoint else if first == 'P' then PodmanArgs else VolumeName
    case 11 =>
      if first == 'D' then Description
      else if first == 'E' then Environment
      else if first == 'P' then PublishPort
      else if first == 'M' then MemoryLimit
      else StopTimeout
    case 13 => AddCapability
    case 14 => DropCapability
    case _ => if first == 'E' then EnvironmentFile else if first == 'N' then NoNewPrivileges else RemainAfterExit
  }

  lemma KeyOfSignature(k: Key)
    ensures KeyWith(KeySignature(k).0, KeySignature(k).1) == k
  {
  }

  lemma KeyNameInjective(a: Key, b: Key)
    requires KeyName(a) == KeyName(b)
    ensures a == b
  {
    KeyNameHasSignature(a);
    KeyNameHasSignature(b);
    KeyOfSignature(a);
    KeyOfSignature(b);
  }

  datatype Field = Field(key: Key, values: seq<string>)

  function Opt(value: string): seq<string> {
    if value == "" then [] else [value]
  }

  function Flag(on: bool, value: string): seq<string> {
    if on then [value] else []
  }

  const VOLUMES_FROM := "--volumes-from "

  function VolumesFromArgs(names: seq<string>): (r: seq<string>)
    ensures |r| == |names|
  {
    seq(|names|, i requires 0 <= i < |names| => VOLUMES_FROM + names[i])
  }

  function Timeout(seconds: int): seq<string> {
    if seconds > 0 then [Decimal(seconds)] else []
  }

  function UnitFields(u: UnitSection): seq<Field> {
    [Field(Description, Opt(u.description)), Field(After, u.after), Field(Requires, u.requires')]
  }

  const CONTAINER_FIELDS: nat := 18

  function ContainerField(c: ContainerSection, i: nat): Field
    requires i < CONTAINER_FIELDS
  {
    match i
    case 0 => Field(Image, Opt(c.image))
    case 1 => Field(Entrypoint, Opt(c.entrypoint))
    case 2 => Field(Exec, Opt(c.exec))
    case 3 => Field(EnvironmentFile, c.environmentFiles)
    case 4 => Field(Environment, c.environments)
    case 5 => Field(Volume, c.volumes)
    case 6 => Field(Mount, c.mounts)
    case 7 => Field(AddDevice, c.addDevices)
    case 8 => Field(AddCapability, c.addCapabilities)
    case 9 => Field(DropCapability, c.dropCapabilities)
    case 10 => Field(NoNewPrivileges, Flag(c.noNewPrivileges, "true"))
    case 11 => Field(User, Opt(c.user))
    case 12 => Field(PublishPort, c.publishPorts)
    case 13 => Field(MemoryLimit, Opt(c.memoryLimit))
    case 14 => Field(Network, Opt(c.network))
    case 15 => Field(PodmanArgs, VolumesFromArgs(c.volumesFrom))
    case 16 => Field(StopTimeout, Timeout(c.stopTimeout))
    case _ => Field(Sysctl, c.sysctls)
  }

  function ContainerFields(c: ContainerSection): (fs: seq<Field>)
    ensures |fs| == CONTAINER_FIELDS
  {
    seq(CONTAINER_FIELDS, i requires 0 <= i < CONTAINER_FIELDS => ContainerField(c, i))
  }

  function ServiceFields(s: ServiceSection): seq<Field> {
    [ Field(Type, Opt(s.kind)),
      Field(RemainAfterExit, Flag(s.remainAfterExit, "yes")),
      Field(Restart, Opt(s.restart)) ]
  }

  function InstallFields(i: InstallSection): seq<Field> {
    [Field(WantedBy, i.wantedBy)]
  }

  function VolumeFields(v: VolumeSection): seq<Field> {
    [ Field(Driver, Opt(v.driver)),
      Field(Image, Opt(v.image)),
      Field(VolumeName, Opt(v.volumeName)) ]
  }

  function FieldEntries(f: Field): (r: seq<Entry>)
    ensures |r| == |f.values|
  {
    seq(|f.values|, i requires 0 <= i < |f.values| => Entry(KeyName(f.key), f.values[i]))
  }

  function Entries(fs: seq<Field>): seq<Entry> {
    if fs == [] then [] else Entries(fs[..|fs| - 1]) + FieldEntries(Last(fs))
  }

  // -------- the lines of a unit --------

  predicate UnitEmitted(u: UnitSection) {
    u.description != "" || |u.after| != 0 || |u.requires'| != 0
  }

  predicate ServiceEmitted(s: ServiceSection) {
    s.kind != "" || s.remainAfterExit || s.restart != ""
  }

  predicate InstallEmitted(i: InstallSection) {
    |i.wantedBy| != 0
  }

  function SectionLines(name: string, fs: seq<Field>, tail: seq<string>): seq<string> {
    [Bracketed(name)] + EntryLines(Entries(fs)) + tail
  }

  function UnitLines(u: UnitSection): seq<string> {
    if UnitEmitted(u) then SectionLines("Unit", UnitFields(u), [""]) else []
  }

  function ContainerLines(c: ContainerSection): seq<string> {
    SectionLines("Container", ContainerFields(c), [""])
  }

  function ServiceLines(s: ServiceSection): seq<string> {
    if ServiceEmitted(s) then SectionLines("Service", ServiceFields(s), [""]) else []
  }

  function InstallLines(i: InstallSection): seq<string> {
    if InstallEmitted(i) then SectionLines("Install", InstallFields(i), []) else []
  }

  function VolumeLines(v: VolumeSection): seq<string> {
    SectionLines("Volume", VolumeFields(v), [""])
  }

  function ContainerUnitLines(u: ContainerUnit): seq<string> {
    UnitLines(u.unit) + ContainerLines(u.container) + ServiceLines(u.service) + InstallLines(u.install)
  }

  function VolumeUnitLines(u: VolumeUnit): seq<string> {
    UnitLines(u.unit) + VolumeLines(u.volume)
  }

  // -------- the writers --------

  lemma AppendLine(ls: seq<string>, line: string)
    ensures Text(ls + [line]) == Text(ls) + (line + "\n")
  {
    TextConcat(ls, [line]);
    assert Text([line]) == line + "\n" + Text([]);
  }

  class Buffer {
    var text: string

    constructor ()
      ensures text == ""
    {
      text := "";
    }

    method Println(line: string)
      modifies this
      ensures text == old(text) + (line + "\n")
    {
      text := text + (line + "\n");
    }

    // start, the header line, and the first n fields have been written.
    ghost predicate Wrote(start: string, name: string, fs: seq<Field>, n: nat)
      reads this
    {
      n <= |fs| && text == start + Text([Bracketed(name)] + EntryLines(Entries(fs[..n])))
    }

    method Header(name: string, ghost fs: seq<Field>)
      modifies this
      ensures Wrote(old(text), name, fs, 0)
    {
      Println(Bracketed(name));
      AppendLine([], Bracketed(name));
      assert [] + [Bracketed(name)] == [Bracketed(name)] + EntryLines(Entries(fs[..0]));
    }

    // One line per value: the loops over multi-value directives.
    method Each(
      key: Key, values: seq<string>, ghost start: string, ghost name: string, ghost fs: seq<Field>, ghost n: nat)
      requires Wrote(start, name, fs, n) && n < |fs| && fs[n] == Field(key, values)
      modifies this
      ensures Wrote(start, name, fs, n + 1)
    {
      ghost var before := Entries(fs[..n]);
      ghost var es := FieldEntries(fs[n]);
      assert before + es[..0] == before;
      for i := 0 to |values|
        invariant text == start + Text([Bracketed(name)] + EntryLines(before + es[..i]))
      {
        assert before + es[..i + 1] == before + es[..i] + [es[i]];
        ghost var ls := [Bracketed(name)] + EntryLines(before + es[..i]);
        assert ls + [EntryLine(es[i])] == [Bracketed(name)] + EntryLines(before + es[..i + 1]);
        AppendLine(ls, EntryLine(es[i]));
        Println(KeyName(key) + "=" + values[i]);
      }
      assert fs[..n + 1][..n] == fs[..n] && es[..|values|] == es;
    }

    // A single-value directive, left out when empty.
    method Optional(
      key: Key, value: string, ghost start: string, ghost name: string, ghost fs: seq<Field>, ghost n: nat)
      requires Wrote(start, name, fs, n) && n < |fs| && fs[n] == Field(key, Opt(value))
      modifies this
      ensures Wrote(start, name, fs, n + 1)
    {
      Each(key, Opt(value), start, name, fs, n);
    }

    method Blank(ghost start: string, ghost name: string, ghost fs: seq<Field>)
      requires Wrote(start, name, fs, |fs|)
      modifies this
      ensures text == start + Text(SectionLines(name, fs, [""]))
    {
      assert fs[..|fs|] == fs;
      AppendLine([Bracketed(name)] + EntryLines(Entries(fs)), "");
      Println("");
    }

    method WriteUnitSection(u: UnitSection)
      modifies this
      ensures text == old(text) + Text(UnitLines(u))
    {
      if u.description == "" && |u.after| == 0 && |u.requires'| == 0 {
        return;
      }
      ghost var start, name, fs := text, "Unit", UnitFields(u);
      Header("Unit", fs);
      Optional(Description, u.description, start, name, fs, 0);
      Each(After, u.after, start, name, fs, 1);
      Each(Requires, u.requires', start, name, fs, 2);
      Blank(start, name, fs);
    }

    method WriteContainerSection(c: ContainerSection)
      modifies this
      ensures text == old(text) + Text(ContainerLines(c))
    {
      ghost var start := text;
      Header("Container", ContainerFields(c));
      WriteImage(c, start);
      WriteEnvironmentAndStorage(c, start);
      WriteDevices(c, start);
      WriteLimits(c, start);
      WriteRuntime(c, start);
      Blank(start, "Container", ContainerFields(c));
    }

    method WriteImage(c: ContainerSection, ghost start: string)
      requires Wrote(start, "Container", ContainerFields(c), 0)
      modifies this
      ensures Wrote(start, "Container", ContainerFields(c), 3)
    {
      ghost var name, fs := "Container", ContainerFields(c);
      Optional(Image, c.image, start, name, fs, 0);
      Optional(Entrypoint, c.entrypoint, start, name, fs, 1);
      Optional(Exec, c.exec, start, name, fs, 2);
    }

    method WriteEnvironmentAndStorage(c: ContainerSection, ghost start: string)
      requires Wrote(start, "Container", ContainerFields(c), 3)
      modifies this
      ensures Wrote(start, "Container", ContainerFields(c), 7)
    {
      ghost var name, fs := "Container", ContainerFields(c);
      Each(EnvironmentFile, c.environmentFiles, start, name, fs, 3);
      Each(Environment, c.environments, start, name, fs, 4);
      Each(Volume, c.volumes, start, name, fs, 5);
      Each(Mount, c.mounts, start, name, fs, 6);
    }

    method WriteDevices(c: ContainerSection, ghost start: string)
      requires Wrote(start, "Container", ContainerFields(c), 7)
      modifies this
      ensures Wrote(start, "Container", ContainerFields(c), 12)
    {
      ghost var name, fs := "Container", ContainerFields(c);
      Each(AddDevice, c.addDevices, start, name, fs, 7);
      Each(AddCapability, c.addCapabilities, start, name, fs, 8);
      Each(DropCapability, c.dropCapabilities, start, name, fs, 9);
      Each(NoNewPrivileges, Flag(c.noNewPrivileges, "true"), start, name, fs, 10);
      Optional(User, c.user, start, name, fs, 11);
    }

    method WriteLimits(c: ContainerSection, ghost start: string)
      requires Wrote(start, "Container", ContainerFields(c), 12)
      modifies this
      ensures Wrote(start, "Container", ContainerFields(c), 15)
    {
      ghost var name, fs := "Container", ContainerFields(c);
      Each(PublishPort, c.publishPorts, start, name, fs, 12);
      Optional(MemoryLimit, c.memoryLimit, start, name, fs, 13);
      Optional(Network, c.network, start, name, fs, 14);
    }

    method WriteRuntime(c: ContainerSection, ghost start: string)
      requires Wrote(start, "Container", ContainerFields(c), 15)
      modifies this
      ensures Wrote(start, "Container", ContainerFields(c), 18)
    {
      ghost var name, fs := "Container", ContainerFields(c);
      Each(PodmanArgs, VolumesFromArgs(c.volumesFrom), start, name, fs, 15);
      Each(StopTimeout, Timeout(c.stopTimeout), start, name, fs, 16);
      Each(Sysctl, c.sysctls, start, name, fs, 17);
    }

    method WriteServiceSection(s: ServiceSection)
      modifies this
      ensures text == old(text) + Text(ServiceLines(s))
    {
      if s.kind == "" && !s.remainAfterExit && s.restart == "" {
        return;
      }
      ghost var start, name, fs := text, "Service", ServiceFields(s);
      Header("Service", fs);
      Optional(Type, s.kind, start, name, fs, 0);
      Each(RemainAfterExit, Flag(s.remainAfterExit, "yes"), start, name, fs, 1);
      Optional(Restart, s.restart, start, name, fs, 2);
      Blank(start, name, fs);
    }

    method WriteVolumeSection(v: VolumeSection)
      modifies this
      ensures text == old(text) + Text(VolumeLines(v))
    {
      ghost var start, name, fs := text, "Volume", VolumeFields(v);
      Header("Volume", fs);
      Optional(Driver, v.driver, start, name, fs, 0);
      Optional(Image, v.image, start, name, fs, 1);
      Optional(VolumeName, v.volumeName, start, name, fs, 2);
      Blank(start, name, fs);
    }

    // [Install] comes last and is not followed by a blank line.
    method WriteInstallSection(i: InstallSection)
      modifies this
      ensures text == old(text) + Text(InstallLines(i))
    {
      if |i.wantedBy| == 0 {
        return;
      }
      ghost var start, name, fs := text, "Install", InstallFields(i);
      Header("Install", fs);
      Each(WantedBy, i.wantedBy, start, name, fs, 0);
      assert SectionLines(name, fs, []) == [Bracketed(name)] + EntryLines(Entries(fs[..1]));
    }
  }

  lemma TextConcat4(a: seq<string>, b: seq<string>, c: seq<string>, d: seq<string>)
    ensures Text(a + b + c + d) == Text(a) + Text(b) + Text(c) + Text(d)
  {
    TextConcat(a, b);
    TextConcat(a + b, c);
    TextConcat(a + b + c, d);
  }

  lemma TextOfContainerUnit(u: ContainerUnit)
    ensures Text(ContainerUnitLines(u)) ==
      Text(UnitLines(u.unit)) + Text(ContainerLines(u.container))
      + Text(ServiceLines(u.service)) + Text(InstallLines(u.install))
  {
    TextConcat4(UnitLines(u.unit), ContainerLines(u.container), ServiceLines(u.service), InstallLines(u.install));
  }

  method WriteFront(u: UnitSection, c: ContainerSection) returns (b: Buffer)
    ensures fresh(b) && b.text == Text(UnitLines(u)) + Text(ContainerLines(c))
  {
    b := new Buffer();
    b.WriteUnitSection(u);
    b.WriteContainerSection(c);
  }

  method RenderContainerUnit(u: ContainerUnit) returns (text: string)
    ensures text == Text(ContainerUnitLines(u))
  {
    var b := WriteFront(u.unit, u.container);
    b.WriteServiceSection(u.service);
    b.WriteInstallSection(u.install);
    text := b.text;
    TextOfContainerUnit(u);
  }

  method RenderVolumeUnit(u: VolumeUnit) returns (text: string)
    ensures text == Text(VolumeUnitLines(u))
  {
    var b := new Buffer();
    b.WriteUnitSection(u.unit);
    b.WriteVolumeSection(u.volume);
    text := b.text;
    TextConcat(UnitLines(u.unit), VolumeLines(u.volume));
  }
}
