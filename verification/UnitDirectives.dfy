// What the printed units say, directive by directive, under the names that Quadlet documents.
module UnitDirectives {
  import opened Common
  import opened IniText
  import opened UnitPrinter
  import opened UnitRoundTrip

  // The values that a text assigns to a key of a section, in order.
  function Said(text: string, section: string, key: string): seq<string> {
    Values(EntriesOf(Parse(text), section), key)
  }

  function IfAny(value: string): seq<string> {
    if value == "" then [] else [value]
  }

  function If(on: bool, value: string): seq<string> {
    if on then [value] else []
  }

  lemma FieldIsSaid(es: seq<Entry>, fs: seq<Field>, i: nat)
    requires es == Entries(fs) && DistinctKeys(fs) && i < |fs|
    ensures Values(es, KeyName(fs[i].key)) == fs[i].values
  {
    ValuesOfEntries(fs, i);
    assert All(Entries(fs))(fs[i].key) == Values(Entries(fs), KeyName(fs[i].key));
  }

  lemma {:induction false} OthersAreNotSaid(fs: seq<Field>, key: string)
    requires forall i :: 0 <= i < |fs| ==> KeyName(fs[i].key) != key
    ensures Values(Entries(fs), key) == []
  {
    if fs == [] {
    } else {
      var last := Last(fs);
      OthersAreNotSaid(fs[..|fs| - 1], key);
      ValuesConcat(Entries(fs[..|fs| - 1]), FieldEntries(last), key);
      assert FieldEntries(last) == NamedEntries(KeyName(last.key), last.values);
      ValuesOfNamedEntries(KeyName(last.key), last.values, key);
    }
  }

  // -------- container units --------

  lemma PrintedSections(u: ContainerUnit)
    requires Clean(u)
    ensures var secs := Parse(Text(ContainerUnitLines(u)));
      && EntriesOf(secs, "Unit") == Entries(UnitFields(u.unit))
      && EntriesOf(secs, "Container") == Entries(ContainerFields(u.container))
      && EntriesOf(secs, "Service") == Entries(ServiceFields(u.service))
      && EntriesOf(secs, "Install") == Entries(InstallFields(u.install))
  {
    ParsePrintedContainerUnit(u);
    EntriesOfPrinted(u);
  }

  lemma ContainerFieldIsSaid(es: seq<Entry>, c: ContainerSection, i: nat)
    requires es == Entries(ContainerFields(c)) && i < CONTAINER_FIELDS
    ensures Values(es, KeyName(ContainerField(c, i).key)) == ContainerField(c, i).values
  {
    ContainerKeysAreDistinct(c);
    FieldIsSaid(es, ContainerFields(c), i);
  }

  lemma ImageAndEntrypointAreSaid(es: seq<Entry>, c: ContainerSection)
    requires es == Entries(ContainerFields(c))
    ensures Values(es, "Image") == IfAny(c.image)
    ensures Values(es, "Entrypoint") == IfAny(c.entrypoint)
  {
    ContainerFieldIsSaid(es, c, 0);
    ContainerFieldIsSaid(es, c, 1);
  }

  lemma ExecAndUserAreSaid(es: seq<Entry>, c: ContainerSection)
    requires es == Entries(ContainerFields(c))
    ensures Values(es, "Exec") == IfAny(c.exec)
    ensures Values(es, "User") == IfAny(c.user)
  {
    ContainerFieldIsSaid(es, c, 2);
    ContainerFieldIsSaid(es, c, 11);
  }

  lemma EnvironmentFileAndEnvironmentAreSaid(es: seq<Entry>, c: ContainerSection)
    requires es == Entries(ContainerFields(c))
    ensures Values(es, "EnvironmentFile") == c.environmentFiles
    ensures Values(es, "Environment") == c.environments
  {
    ContainerFieldIsSaid(es, c, 3);
    ContainerFieldIsSaid(es, c, 4);
  }

  lemma VolumeAndMountAreSaid(es: seq<Entry>, c: ContainerSection)
    requires es == Entries(ContainerFields(c))
    ensures Values(es, "Volume") == c.volumes
    ensures Values(es, "Mount") == c.mounts
  {
    ContainerFieldIsSaid(es, c, 5);
    ContainerFieldIsSaid(es, c, 6);
  }

  lemma AddDeviceAndAddCapabilityAreSaid(es: seq<Entry>, c: ContainerSection)
    requires es == Entries(ContainerFields(c))
    ensures Values(es, "AddDevice") == c.addDevices
    ensures Values(es, "AddCapability") == c.addCapabilities
  {
    ContainerFieldIsSaid(es, c, 7);
    ContainerFieldIsSaid(es, c, 8);
  }

  lemma DropCapabilityIsSaid(es: seq<Entry>, c: ContainerSection)
    requires es == Entries(ContainerFields(c))
    ensures Values(es, "DropCapability") == c.dropCapabilities
  {
    ContainerFieldIsSaid(es, c, 9);
  }

  lemma NoNewPrivilegesIsSaid(es: seq<Entry>, c: ContainerSection)
    requires es == Entries(ContainerFields(c))
    ensures Values(es, "NoNewPrivileges") == If(c.noNewPrivileges, "true")
  {
    ContainerFieldIsSaid(es, c, 10);
  }

  lemma PublishPortIsSaid(es: seq<Entry>, c: ContainerSection)
    requires es == Entries(ContainerFields(c))
    ensures Values(es, "PublishPort") == c.publishPorts
  {
    ContainerFieldIsSaid(es, c, 12);
  }

  lemma MemoryLimitIsSaid(es: seq<Entry>, c: ContainerSection)
    requires es == Entries(ContainerFields(c))
    ensures Values(es, "MemoryLimit") == IfAny(c.memoryLimit)
  {
    ContainerFieldIsSaid(es, c, 13);
  }

  lemma NetworkIsSaid(es: seq<Entry>, c: ContainerSection)
    requires es == Entries(ContainerFields(c))
    ensures Values(es, "Network") == IfAny(c.network)
  {
    ContainerFieldIsSaid(es, c, 14);
  }

  lemma PodmanArgsIsSaid(es: seq<Entry>, c: ContainerSection)
    requires es == Entries(ContainerFields(c))
    ensures |Values(es, "PodmanArgs")| == |c.volumesFrom|
    ensures forall i :: 0 <= i < |c.volumesFrom| ==> Values(es, "PodmanArgs")[i] == "--volumes-from " + c.volumesFrom[i]
  {
    ContainerFieldIsSaid(es, c, 15);
  }

  lemma StopTimeoutIsSaid(es: seq<Entry>, c: ContainerSection)
    requires es == Entries(ContainerFields(c))
    ensures Values(es, "StopTimeout") == (if c.stopTimeout > 0 then [Decimal(c.stopTimeout)] else [])
  {
    ContainerFieldIsSaid(es, c, 16);
  }

  lemma SysctlIsSaid(es: seq<Entry>, c: ContainerSection)
    requires es == Entries(ContainerFields(c))
    ensures Values(es, "Sysctl") == c.sysctls
  {
    ContainerFieldIsSaid(es, c, 17);
  }

  // Each directive of the container section, under its own name and with its own values.
  lemma ContainerDirectives(u: ContainerUnit)
    requires Clean(u)
    ensures var text, c := Text(ContainerUnitLines(u)), u.container;
      && Said(text, "Container", "Image") == IfAny(c.image)
      && Said(text, "Container", "Entrypoint") == IfAny(c.entrypoint)
      && Said(text, "Container", "Exec") == IfAny(c.exec)
      && Said(text, "Container", "EnvironmentFile") == c.environmentFiles
      && Said(text, "Container", "Environment") == c.environments
      && Said(text, "Container", "Volume") == c.volumes
      && Said(text, "Container", "Mount") == c.mounts
      && Said(text, "Container", "AddDevice") == c.addDevices
      && Said(text, "Container", "AddCapability") == c.addCapabilities
      && Said(text, "Container", "DropCapability") == c.dropCapabilities
      && Said(text, "Container", "NoNewPrivileges") == If(c.noNewPrivileges, "true")
      && Said(text, "Container", "User") == IfAny(c.user)
      && Said(text, "Container", "PublishPort") == c.publishPorts
      && Said(text, "Container", "MemoryLimit") == IfAny(c.memoryLimit)
      && Said(text, "Container", "Network") == IfAny(c.network)
      && |Said(text, "Container", "PodmanArgs")| == |c.volumesFrom|
      && Said(text, "Container", "StopTimeout") == (if c.stopTimeout > 0 then [Decimal(c.stopTimeout)] else [])
      && Said(text, "Container", "Sysctl") == c.sysctls
      && forall i :: 0 <= i < |c.volumesFrom| ==>
           Said(text, "Container", "PodmanArgs")[i] == "--volumes-from " + c.volumesFrom[i]
  {
    var es, c := EntriesOf(Parse(Text(ContainerUnitLines(u))), "Container"), u.container;
    PrintedSections(u);
    ImageAndEntrypointAreSaid(es, c);
    ExecAndUserAreSaid(es, c);
    EnvironmentFileAndEnvironmentAreSaid(es, c);
    VolumeAndMountAreSaid(es, c);
    AddDeviceAndAddCapabilityAreSaid(es, c);
    DropCapabilityIsSaid(es, c);
    NoNewPrivilegesIsSaid(es, c);
    PublishPortIsSaid(es, c);
    MemoryLimitIsSaid(es, c);
    NetworkIsSaid(es, c);
    PodmanArgsIsSaid(es, c);
    StopTimeoutIsSaid(es, c);
    SysctlIsSaid(es, c);
  }

  // The container section has no other directive.
  lemma NoOtherDirectives(u: ContainerUnit, key: string)
    requires Clean(u)
    requires key !in {"Image", "Entrypoint", "Exec", "EnvironmentFile", "Environment", "Volume", "Mount",
                      "AddDevice", "AddCapability", "DropCapability", "NoNewPrivileges", "User", "PublishPort",
                      "MemoryLimit", "Network", "PodmanArgs", "StopTimeout", "Sysctl"}
    ensures Said(Text(ContainerUnitLines(u)), "Container", key) == []
  {
    PrintedSections(u);
    var fs := ContainerFields(u.container);
    forall i | 0 <= i < |fs|
      ensures KeyName(fs[i].key) != key
    {
      assert fs[i] == ContainerField(u.container, i);
    }
    OthersAreNotSaid(fs, key);
  }

  lemma UnitFieldsAreSaid(es: seq<Entry>, u: UnitSection)
    requires es == Entries(UnitFields(u))
    ensures Values(es, "Description") == IfAny(u.description)
    ensures Values(es, "After") == u.after && Values(es, "Requires") == u.requires'
  {
    FieldIsSaid(es, UnitFields(u), 0);
    FieldIsSaid(es, UnitFields(u), 1);
    FieldIsSaid(es, UnitFields(u), 2);
  }

  lemma ServiceFieldsAreSaid(es: seq<Entry>, s: ServiceSection)
    requires es == Entries(ServiceFields(s))
    ensures Values(es, "Type") == IfAny(s.kind)
    ensures Values(es, "RemainAfterExit") == If(s.remainAfterExit, "yes")
    ensures Values(es, "Restart") == IfAny(s.restart)
  {
    ServiceKeysAreDistinct(s);
    FieldIsSaid(es, ServiceFields(s), 0);
    FieldIsSaid(es, ServiceFields(s), 1);
    FieldIsSaid(es, ServiceFields(s), 2);
  }

  lemma InstallFieldsAreSaid(es: seq<Entry>, i: InstallSection)
    requires es == Entries(InstallFields(i))
    ensures Values(es, "WantedBy") == i.wantedBy
  {
    FieldIsSaid(es, InstallFields(i), 0);
  }

  // The sections around it.
  lemma OtherSectionDirectives(u: ContainerUnit)
    requires Clean(u)
    ensures var text := Text(ContainerUnitLines(u));
      && Said(text, "Unit", "Description") == IfAny(u.unit.description)
      && Said(text, "Unit", "After") == u.unit.after
      && Said(text, "Unit", "Requires") == u.unit.requires'
      && Said(text, "Service", "Type") == IfAny(u.service.kind)
      && Said(text, "Service", "RemainAfterExit") == If(u.service.remainAfterExit, "yes")
      && Said(text, "Service", "Restart") == IfAny(u.service.restart)
      && Said(text, "Install", "WantedBy") == u.install.wantedBy
  {
    var secs := Parse(Text(ContainerUnitLines(u)));
    PrintedSections(u);
    UnitFieldsAreSaid(EntriesOf(secs, "Unit"), u.unit);
    ServiceFieldsAreSaid(EntriesOf(secs, "Service"), u.service);
    InstallFieldsAreSaid(EntriesOf(secs, "Install"), u.install);
  }

  // -------- volume units --------

  lemma VolumeKeysAreDistinct(v: VolumeSection)
    ensures DistinctKeys(VolumeFields(v))
  {
  }

  lemma VolumeFieldsAreSaid(es: seq<Entry>, v: VolumeSection)
    requires es == Entries(VolumeFields(v))
    ensures Values(es, "Driver") == IfAny(v.driver)
    ensures Values(es, "Image") == IfAny(v.image)
    ensures Values(es, "VolumeName") == IfAny(v.volumeName)
  {
    VolumeKeysAreDistinct(v);
    FieldIsSaid(es, VolumeFields(v), 0);
    FieldIsSaid(es, VolumeFields(v), 1);
    FieldIsSaid(es, VolumeFields(v), 2);
  }

  lemma VolumeUnitDirectives(u: VolumeUnit)
    requires CleanUnit(u.unit) && CleanVolume(u.volume)
    ensures var text := Text(VolumeUnitLines(u));
      && Said(text, "Volume", "Driver") == IfAny(u.volume.driver)
      && Said(text, "Volume", "Image") == IfAny(u.volume.image)
      && Said(text, "Volume", "VolumeName") == IfAny(u.volume.volumeName)
      && Said(text, "Unit", "Description") == IfAny(u.unit.description)
      && Said(text, "Unit", "After") == u.unit.after
      && Said(text, "Unit", "Requires") == u.unit.requires'
  {
    var secs := Parse(Text(VolumeUnitLines(u)));
    ParsePrintedVolumeUnit(u);
    EntriesOfPrintedVolume(u);
    UnitFieldsAreSaid(EntriesOf(secs, "Unit"), u.unit);
    VolumeFieldsAreSaid(EntriesOf(secs, "Volume"), u.volume);
  }
}
