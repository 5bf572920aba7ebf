// Unit files as systemd.syntax(7) has them read: with line continuations and surrounding white space.
// Where no line invites either, this reader and IniText.Parse agree.
module SystemdReader {
  import opened Common
  import opened IniText
  import opened Insertion
  import opened UnitPrinter
  import opened UnitRoundTrip
  import opened UnitInsertion
  import PostConvert

  // -------- the reader --------

  predicate IsBlank(c: char) {
    c == ' ' || c == '\t' || c == '\r'
  }

  function TrimLeft(s: string): string {
    if s != "" && IsBlank(s[0]) then TrimLeft(s[1..]) else s
  }

  function TrimRight(s: string): string {
    if s != "" && IsBlank(Last(s)) then TrimRight(s[..|s| - 1]) else s
  }

  function Trim(s: string): string {
    TrimRight(TrimLeft(s))
  }

  predicate IsComment(line: string) {
    var l := TrimLeft(line);
    l != "" && (l[0] == '#' || l[0] == ';')
  }

  predicate Continues(line: string) {
    line != "" && Last(line) == '\\'
  }

  // Continued lines joined, the backslash replaced by a blank; comments in between are skipped.
  function Logical(ls: seq<string>): seq<string>
    decreases |ls|
  {
    if ls == [] then []
    else if Continues(ls[0]) && !IsComment(ls[0]) then Joined(ls[0][..|ls[0]| - 1] + " ", ls[1..])
    else [ls[0]] + Logical(ls[1..])
  }

  function Joined(start: string, ls: seq<string>): seq<string>
    decreases |ls|
  {
    if ls == [] then [start]
    else if IsComment(ls[0]) then Joined(start, ls[1..])
    else if Continues(ls[0]) then Joined(start + ls[0][..|ls[0]| - 1] + " ", ls[1..])
    else [start + ls[0]] + Logical(ls[1..])
  }

  function ReadLine(line: string): Item {
    match ParseLine(Trim(line))
    case Assign(e) => Assign(Entry(Trim(e.key), Trim(e.value)))
    case other => other
  }

  function ReadLines(secs: seq<Section>, ls: seq<string>): (r: seq<Section>)
    requires |secs| > 0
    ensures |r| > 0
    decreases |ls|
  {
    if ls == [] then secs else ReadLines(AddItem(secs, ReadLine(ls[0])), ls[1..])
  }

  function ReadText(text: string): (r: seq<Section>)
    ensures |r| > 0
  {
    ReadLines(START, Logical(Split(text)))
  }

  // -------- where both readers agree --------

  predicate Trimmed(s: string) {
    s == "" || (!IsBlank(s[0]) && !IsBlank(Last(s)))
  }

  // A value that needs neither trimming nor continuing.
  predicate Tidy(s: string) {
    Trimmed(s) && !Continues(s)
  }

  predicate TidyLine(line: string) {
    Tidy(line) && match ParseLine(line) case Assign(e) => Trimmed(e.key) && Trimmed(e.value) case _ => true
  }

  ghost predicate TidyLines(ls: seq<string>) {
    forall line :: line in ls ==> TidyLine(line)
  }

  lemma TrimTrimmed(s: string)
    requires Trimmed(s)
    ensures Trim(s) == s
  {
  }

  lemma ReadTidyLine(line: string)
    requires TidyLine(line)
    ensures ReadLine(line) == ParseLine(line)
  {
    TrimTrimmed(line);
    if ParseLine(line).Assign? {
      TrimTrimmed(ParseLine(line).entry.key);
      TrimTrimmed(ParseLine(line).entry.value);
    }
  }

  lemma {:induction false} ReadTidyLines(secs: seq<Section>, ls: seq<string>)
    requires |secs| > 0 && TidyLines(ls)
    ensures Logical(ls) == ls && ReadLines(secs, ls) == ParseLines(secs, ls)
    decreases |ls|
  {
    if ls == [] {
    } else {
      assert ls[0] in ls;
      ReadTidyLine(ls[0]);
      ReadTidyLines(AddItem(secs, ParseLine(ls[0])), ls[1..]);
    }
  }

  // On a text of tidy lines the two readers see the same sections.
  lemma ReadersAgree(text: string)
    requires TidyLines(Split(text))
    ensures ReadText(text) == Parse(text)
  {
    ReadTidyLines(START, Split(text));
  }

  lemma JoinTwo(line: string, next: string, rest: seq<string>)
    requires !IsComment(line + "\\") && !IsComment(next) && !Continues(next)
    ensures Logical([line + "\\", next] + rest) == [line + " " + next] + Logical(rest)
  {
    var ls := [line + "\\", next] + rest;
    assert ls[1..] == [next] + rest && ls[1..][1..] == rest;
    assert (line + "\\")[..|line|] == line;
  }

  // On others they need not: a value ending in a backslash takes the next directive with it.
  lemma ContinuedValue(secs: seq<Section>, key: string, v: string, next: string, rest: seq<string>)
    requires |secs| > 0 && IsKey(key) && Trimmed(key) && OneLine(v) && OneLine(next)
    requires Tidy(next) && next != "" && !IsComment(next)
    ensures ReadLines(secs, Logical([EntryLine(Entry(key, v + "\\")), next] + rest)) ==
      ReadLines(AddItem(secs, Assign(Entry(key, Trim(v + " " + next)))), Logical(rest))
  {
    var value := v + " " + next;
    var line := key + "=" + v;
    assert EntryLine(Entry(key, v + "\\")) == line + "\\";
    assert (line + "\\")[0] == key[0];
    JoinTwo(line, next, rest);
    assert line + " " + next == EntryLine(Entry(key, value));
    JoinedEntry(key, value);
    assert ([EntryLine(Entry(key, value))] + Logical(rest))[1..] == Logical(rest);
  }

  lemma JoinedEntry(key: string, value: string)
    requires IsKey(key) && Trimmed(key) && OneLine(value) && value != "" && !IsBlank(Last(value))
    ensures ReadLine(EntryLine(Entry(key, value))) == Assign(Entry(key, Trim(value)))
  {
    var line := EntryLine(Entry(key, value));
    assert line[0] == key[0] && Last(line) == Last(value);
    TrimTrimmed(line);
    TrimTrimmed(key);
    ParseEntryLine(Entry(key, value));
  }

  // -------- printed units --------

  ghost predicate TidyFields(fs: seq<Field>) {
    forall i, j :: 0 <= i < |fs| && 0 <= j < |fs[i].values| ==> Tidy(fs[i].values[j])
  }

  ghost predicate TidyUnit(u: ContainerUnit) {
    && TidyFields(UnitFields(u.unit)) && TidyFields(ContainerFields(u.container))
    && TidyFields(ServiceFields(u.service)) && TidyFields(InstallFields(u.install))
  }

  lemma WordsAreTrimmed(s: string)
    requires IsWord(s)
    ensures Trimmed(s)
  {
  }

  lemma TidyAssignment(e: Entry)
    requires IsEntry(e) && Trimmed(e.key) && Tidy(e.value)
    ensures TidyLine(EntryLine(e))
  {
    var line := EntryLine(e);
    ParseEntryLine(e);
    assert line[0] == e.key[0] && Last(line) == if e.value == "" then '=' else Last(e.value);
  }

  lemma TidyEntryLine(k: Key, value: string)
    requires OneLine(value) && Tidy(value)
    ensures TidyLine(EntryLine(Entry(KeyName(k), value)))
  {
    KeyNamesAreKeys(k);
    KeyNamesAreWords(k);
    WordsAreTrimmed(KeyName(k));
    TidyAssignment(Entry(KeyName(k), value));
  }

  lemma {:induction false} TidyEntryLines(fs: seq<Field>)
    requires CleanFields(fs) && TidyFields(fs)
    ensures TidyLines(EntryLines(Entries(fs)))
  {
    if fs == [] {
    } else {
      var front, last := fs[..|fs| - 1], Last(fs);
      TidyEntryLines(front);
      forall i | 0 <= i < |last.values|
        ensures TidyLine(EntryLine(FieldEntries(last)[i]))
      {
        TidyEntryLine(last.key, last.values[i]);
      }
      assert EntryLines(Entries(fs)) == EntryLines(Entries(front)) + EntryLines(FieldEntries(last));
    }
  }

  lemma TidySectionLines(name: string, fs: seq<Field>, tail: seq<string>)
    requires CleanFields(fs) && TidyFields(fs) && tail in {[], [""]}
    ensures TidyLines(SectionLines(name, fs, tail))
  {
    TidyEntryLines(fs);
    assert Last(Bracketed(name)) == ']' && Bracketed(name)[0] == '[';
  }

  lemma TidyContainerUnitLines(u: ContainerUnit)
    requires Clean(u) && TidyUnit(u)
    ensures TidyLines(ContainerUnitLines(u))
  {
    CleanSmallSections(u.unit, u.service, u.install, VolumeSection("", "", ""));
    CleanContainerFields(u.container);
    TidySectionLines("Unit", UnitFields(u.unit), [""]);
    TidySectionLines("Container", ContainerFields(u.container), [""]);
    TidySectionLines("Service", ServiceFields(u.service), [""]);
    TidySectionLines("Install", InstallFields(u.install), []);
  }

  // A printed unit of tidy values is read back under continuations and trimming too.
  lemma TidyUnitReadsBack(u: ContainerUnit)
    requires Clean(u) && u.container.stopTimeout >= 0 && TidyUnit(u)
    ensures ReadContainerUnit(ReadText(Text(ContainerUnitLines(u)))) == u
  {
    TidyContainerUnitLines(u);
    ParsePrintedContainerUnit(u);
    SplitText(ContainerUnitLines(u));
    ReadersAgree(Text(ContainerUnitLines(u)));
    PrintedContainerUnitReadsBack(u);
  }

  lemma TidyInsertion(text: string, section: string, extra: seq<string>)
    requires OneLine(section) && OneLineEach(extra)
    requires TidyLines(Split(text)) && TidyLines(extra)
    ensures TidyLines(Split(InsertBeforeSection(text, section, Text(extra))))
  {
    InsertedLines(text, section, extra);
  }

  lemma TidyEnvironment(x: string)
    requires OneLine(x) && Tidy(x)
    ensures OneLineEach(EntryLines([EnvironmentEntry(x)])) && TidyLines(EntryLines([EnvironmentEntry(x)]))
  {
    TidyEntryLine(Environment, x);
    KeyNamesAreKeys(Environment);
    EntryLinesAreOneLine([EnvironmentEntry(x)]);
  }

  // And so is the line inserted into it.
  lemma TidyInsertionMeetsPrinter(u: ContainerUnit, x: string)
    requires Clean(u) && u.container.stopTimeout >= 0 && TidyUnit(u) && OneLine(x) && Tidy(x)
    ensures var u' := u.(container := u.container.(environments := u.container.environments + [x]));
      ReadContainerUnit(ReadText(WithEnvironment(Text(ContainerUnitLines(u)), x))) ==
        if ServiceEmitted(u.service) || u.install.wantedBy == [] then u' else u
  {
    TidyContainerUnitLines(u);
    ParsePrintedContainerUnit(u);
    SplitText(ContainerUnitLines(u));
    TidyEnvironment(x);
    TidyInsertion(Text(ContainerUnitLines(u)), PostConvert.SERVICE, EntryLines([EnvironmentEntry(x)]));
    ReadersAgree(WithEnvironment(Text(ContainerUnitLines(u)), x));
    InsertionMeetsPrinter(u, x);
  }
}
