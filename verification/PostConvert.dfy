// ApplyPostConvertFixups: published ports for the pod unit, the passt PATH for the compute unit.
module PostConvert {
  import opened Common
  import opened IniText
  import opened Insertion

  datatype UnitFile = UnitFile(name: string, content: string)

  datatype Options = Options(addVnc: bool, vncPort: nat, addSerial: bool, serialPort: nat, passtWorkarounds: bool)

  const PUBLISH_PORT := "PublishPort"
  const INSTALL := "Install"
  const SERVICE := "Service"
  const ENVIRONMENT := "Environment"
  const PASST_PATH := "PATH=/passt-bin:" + "/usr/local/sbin:/usr/local/bin:" + "/usr/sbin:/usr/bin:/sbin:/bin"

  function PortEntry(port: nat): Entry {
    Entry(PUBLISH_PORT, Decimal(port) + ":" + Decimal(port))
  }

  function PortEntries(o: Options): seq<Entry> {
    (if o.addVnc then [PortEntry(o.vncPort)] else []) + (if o.addSerial then [PortEntry(o.serialPort)] else [])
  }

  const PATH_ENTRIES := [Entry(ENVIRONMENT, PASST_PATH)]

  // -------- which files change --------

  // The first file of that name, or |files|.
  function FileIndex(files: seq<UnitFile>, name: string): (i: nat)
    ensures i <= |files| && (i < |files| ==> files[i].name == name)
    ensures forall j :: 0 <= j < i ==> files[j].name != name
  {
    if files == [] || files[0].name == name then 0 else 1 + FileIndex(files[1..], name)
  }

  lemma FileIndexIs(files: seq<UnitFile>, name: string, i: nat)
    requires i <= |files| && (i < |files| ==> files[i].name == name)
    requires forall j :: 0 <= j < i ==> files[j].name != name
    ensures FileIndex(files, name) == i
  {
  }

  function Edited(files: seq<UnitFile>, name: string, section: string, es: seq<Entry>): (r: seq<UnitFile>)
    ensures |r| == |files|
  {
    var i := FileIndex(files, name);
    if i == |files| then files
    else files[i := files[i].(content := InsertBeforeSection(files[i].content, section, Text(EntryLines(es))))]
  }

  function PodName(vmName: string): string {
    vmName + ".pod"
  }

  function ComputeName(vmName: string): string {
    vmName + "-compute.container"
  }

  function WithPorts(files: seq<UnitFile>, vmName: string, o: Options): seq<UnitFile> {
    if PortEntries(o) == [] then files else Edited(files, PodName(vmName), INSTALL, PortEntries(o))
  }

  function WithPath(files: seq<UnitFile>, vmName: string): seq<UnitFile> {
    Edited(files, ComputeName(vmName), SERVICE, PATH_ENTRIES)
  }

  // Ports first, then the PATH if it is asked for.
  function Fixed(files: seq<UnitFile>, vmName: string, o: Options): seq<UnitFile> {
    if o.passtWorkarounds then WithPath(WithPorts(files, vmName, o), vmName) else WithPorts(files, vmName, o)
  }

  // -------- the fixups, in place --------

  method EditFirst(files: array<UnitFile>, name: string, section: string, extra: string, ghost es: seq<Entry>)
    requires extra == Text(EntryLines(es))
    modifies files
    ensures files[..] == Edited(old(files[..]), name, section, es)
  {
    for i := 0 to files.Length
      invariant files[..] == old(files[..])
      invariant forall j :: 0 <= j < i ==> files[j].name != name
    {
      if files[i].name == name {
        FileIndexIs(files[..], name, i);
        files[i] := files[i].(content := InsertBeforeSection(files[i].content, section, extra));
        return;
      }
    }
    FileIndexIs(files[..], name, files.Length);
  }

  // The PublishPort= lines, one per port.
  method PortLines(ports: seq<string>, ghost es: seq<Entry>) returns (extra: string)
    requires |es| == |ports| && forall i :: 0 <= i < |es| ==> es[i] == Entry(PUBLISH_PORT, ports[i])
    ensures extra == Text(EntryLines(es))
  {
    extra := "";
    assert EntryLines(es)[..0] == [];
    for i := 0 to |ports|
      invariant extra == Text(EntryLines(es)[..i])
    {
      var line := PUBLISH_PORT + "=" + ports[i];
      assert EntryLines(es)[..i + 1] == EntryLines(es)[..i] + [line];
      TextConcat(EntryLines(es)[..i], [line]);
      assert Text([line]) == line + "\n";
      extra := extra + (line + "\n");
    }
    assert EntryLines(es)[..|ports|] == EntryLines(es);
  }

  method InjectPodPublishPorts(files: array<UnitFile>, vmName: string, o: Options)
    modifies files
    ensures files[..] == WithPorts(old(files[..]), vmName, o)
  {
    ghost var es := PortEntries(o);
    var ports: seq<string> := [];
    if o.addVnc {
      ports := ports + [Decimal(o.vncPort) + ":" + Decimal(o.vncPort)];
    }
    if o.addSerial {
      ports := ports + [Decimal(o.serialPort) + ":" + Decimal(o.serialPort)];
    }
    assert |es| == |ports| && forall i :: 0 <= i < |es| ==> es[i] == Entry(PUBLISH_PORT, ports[i]);
    if |ports| == 0 {
      return;
    }
    var extra := PortLines(ports, es);
    EditFirst(files, PodName(vmName), INSTALL, extra, es);
  }

  method InjectPasstBinaryPath(files: array<UnitFile>, vmName: string)
    modifies files
    ensures files[..] == WithPath(old(files[..]), vmName)
  {
    var line := ENVIRONMENT + "=" + PASST_PATH;
    assert EntryLines(PATH_ENTRIES) == [line];
    assert Text([line]) == line + "\n";
    EditFirst(files, ComputeName(vmName), SERVICE, line + "\n", PATH_ENTRIES);
  }

  method ApplyPostConvertFixups(files: array<UnitFile>, vmName: string, o: Options)
    modifies files
    ensures files[..] == Fixed(old(files[..]), vmName, o)
  {
    InjectPodPublishPorts(files, vmName, o);
    if o.passtWorkarounds {
      InjectPasstBinaryPath(files, vmName);
    }
  }

  // -------- what the fixups mean --------

  lemma PodIsNotCompute(vmName: string)
    ensures PodName(vmName) != ComputeName(vmName)
  {
    assert Last(PodName(vmName)) == 'd' && Last(ComputeName(vmName)) == 'r';
  }

  // The two fixups do not interfere: each file keeps its name, the first pod unit gets the ports, the
  // first compute unit gets the PATH, and every other file is untouched.
  lemma FixupsPerFile(files: seq<UnitFile>, vmName: string, o: Options, i: nat)
    requires i < |files|
    ensures var fixed, f := Fixed(files, vmName, o), files[i];
      && |fixed| == |files|
      && fixed[i] == f.(content :=
           if i == FileIndex(files, PodName(vmName)) && PortEntries(o) != [] then
             InsertBeforeSection(f.content, INSTALL, Text(EntryLines(PortEntries(o))))
           else if i == FileIndex(files, ComputeName(vmName)) && o.passtWorkarounds then
             InsertBeforeSection(f.content, SERVICE, Text(EntryLines(PATH_ENTRIES)))
           else f.content)
  {
    PodIsNotCompute(vmName);
    var ported := WithPorts(files, vmName, o);
    FileIndexIs(ported, ComputeName(vmName), FileIndex(files, ComputeName(vmName)));
  }

  lemma DecimalIsOneLine(n: nat)
    ensures OneLine(Decimal(n))
  {
  }

  lemma PortIsEntry(port: nat)
    ensures IsEntry(PortEntry(port))
  {
    DecimalIsOneLine(port);
  }

  lemma PortsAreEntries(o: Options)
    ensures AreEntries(PortEntries(o))
  {
    PortIsEntry(o.vncPort);
    PortIsEntry(o.serialPort);
  }

  // Whatever the pod unit looks like, the ports are published by the section named [Pod], behind what it
  // had read so far, exactly when that is the section in front of the first [Install] line (or the last
  // section, if there is none).
  lemma PortsLandInPodIff(content: string, o: Options)
    requires PortEntries(o) != []
    ensures var out := InsertBeforeSection(content, INSTALL, Text(EntryLines(PortEntries(o))));
      var pod, pod' := EntriesOf(Parse(content), "Pod"), EntriesOf(Parse(out), "Pod");
      var at := |EntriesOf(Before(content, INSTALL), "Pod")|;
      && (Last(Before(content, INSTALL)).name == "Pod" <==> at <= |pod| && pod' == Spliced(pod, at, PortEntries(o)))
      && (Last(Before(content, INSTALL)).name != "Pod" <==> pod' == pod)
  {
    PortsAreEntries(o);
    EntriesOfInserted(content, INSTALL, PortEntries(o), "Pod");
  }

  // -------- the ports, spelled out --------

  lemma ValuesOfSpliced(es: seq<Entry>, at: nat, more: seq<Entry>, key: string)
    requires at <= |es|
    ensures Values(Spliced(es, at, more), key) == Values(es[..at], key) + Values(more, key) + Values(es[at..], key)
    ensures Values(es, key) == Values(es[..at], key) + Values(es[at..], key)
  {
    ValuesConcat(es[..at] + more, es[at..], key);
    ValuesConcat(es[..at], more, key);
    ValuesConcat(es[..at], es[at..], key);
    assert es[..at] + es[at..] == es;
  }

  // Host and container port are the requested one, VNC before serial.
  lemma PortValues(o: Options)
    ensures Values(PortEntries(o), "PublishPort") ==
      (if o.addVnc then [Decimal(o.vncPort) + ":" + Decimal(o.vncPort)] else [])
      + (if o.addSerial then [Decimal(o.serialPort) + ":" + Decimal(o.serialPort)] else [])
  {
    var vnc := if o.addVnc then [PortEntry(o.vncPort)] else [];
    var serial := if o.addSerial then [PortEntry(o.serialPort)] else [];
    ValuesConcat(vnc, serial, "PublishPort");
    ValuesOfOne(PortEntry(o.vncPort));
    ValuesOfOne(PortEntry(o.serialPort));
  }

  lemma ValuesOfOne(e: Entry)
    ensures Values([e], e.key) == [e.value]
  {
  }

  // pod' publishes the requested ports, each under its own number, in one block after the first `at` entries.
  ghost predicate PublishesAt(pod: seq<Entry>, at: nat, pod': seq<Entry>, o: Options) {
    && at <= |pod|
    && Values(pod, "PublishPort") == Values(pod[..at], "PublishPort") + Values(pod[at..], "PublishPort")
    && Values(pod', "PublishPort") == Values(pod[..at], "PublishPort")
         + ((if o.addVnc then [Decimal(o.vncPort) + ":" + Decimal(o.vncPort)] else [])
            + (if o.addSerial then [Decimal(o.serialPort) + ":" + Decimal(o.serialPort)] else []))
         + Values(pod[at..], "PublishPort")
  }

  lemma SplicedPublishes(pod: seq<Entry>, at: nat, o: Options)
    requires at <= |pod|
    ensures PublishesAt(pod, at, Spliced(pod, at, PortEntries(o)), o)
    ensures PortEntries(o) == [] ==> PublishesAt(pod, at, pod, o)
  {
    PortValues(o);
    ValuesOfSpliced(pod, at, PortEntries(o), "PublishPort");
    assert Spliced(pod, at, []) == pod;
  }

  lemma FixedPodContent(files: seq<UnitFile>, vmName: string, o: Options, i: nat)
    requires i < |files| && files[i].name == vmName + ".pod"
    requires forall j :: 0 <= j < i ==> files[j].name != vmName + ".pod"
    ensures i < |Fixed(files, vmName, o)|
    ensures Fixed(files, vmName, o)[i].content == if PortEntries(o) == [] then files[i].content
      else InsertBeforeSection(files[i].content, INSTALL, Text(EntryLines(PortEntries(o))))
  {
    FileIndexIs(files, PodName(vmName), i);
    FixupsPerFile(files, vmName, o, i);
    PodIsNotCompute(vmName);
  }

  // After the fixups the first file called <vm>.pod, if its [Pod] section stands in front of the first
  // [Install] line, publishes the requested ports.
  lemma FixedPodPublishes(files: seq<UnitFile>, vmName: string, o: Options, i: nat)
    requires i < |files| && files[i].name == vmName + ".pod"
    requires forall j :: 0 <= j < i ==> files[j].name != vmName + ".pod"
    requires Last(Before(files[i].content, "Install")).name == "Pod"
    ensures i < |Fixed(files, vmName, o)|
    ensures PublishesAt(
      EntriesOf(Parse(files[i].content), "Pod"), |EntriesOf(Before(files[i].content, "Install"), "Pod")|,
      EntriesOf(Parse(Fixed(files, vmName, o)[i].content), "Pod"), o)
  {
    var content := files[i].content;
    FixedPodContent(files, vmName, o, i);
    PortsAreEntries(o);
    EntriesOfInserted(content, INSTALL, PortEntries(o), "Pod");
    SplicedPublishes(EntriesOf(Parse(content), "Pod"), |EntriesOf(Before(content, INSTALL), "Pod")|, o);
  }
}
