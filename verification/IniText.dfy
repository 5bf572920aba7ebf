// Unit files as text: lines, and a specification parser for the INI form of systemd.syntax(7)
// (section headers, assignments split at the first '=', comments and blank lines).
module IniText {
  import opened Common

  predicate OneLine(s: string) {
    '\n' !in s
  }

  predicate OneLineEach(ss: seq<string>) {
    forall i :: 0 <= i < |ss| ==> OneLine(ss[i])
  }

  // -------- lines --------

  function Split(s: string): (ls: seq<string>)
    ensures |ls| > 0
  {
    if s == "" then [""] else PushChar(s[0], Split(s[1..]))
  }

  // One more character in front: a newline opens a line, anything else joins the first one.
  function PushChar(c: char, ls: seq<string>): (r: seq<string>)
    requires |ls| > 0
    ensures |r| > 0
  {
    if c == '\n' then [""] + ls else [[c] + ls[0]] + ls[1..]
  }

  lemma PushCharConcat(c: char, a: seq<string>, b: seq<string>)
    requires |a| > 0
    ensures PushChar(c, a + b) == PushChar(c, a) + b
  {
  }

  // Lines written one after the other, each with its newline.
  function Text(ls: seq<string>): string {
    if ls == [] then "" else ls[0] + "\n" + Text(ls[1..])
  }

  lemma {:induction false} SplitConcat(a: string, b: string)
    ensures Split(a + "\n" + b) == Split(a) + Split(b)
  {
    var s := a + "\n" + b;
    if a == "" {
      assert s[1..] == b;
    } else {
      assert s[0] == a[0] && s[1..] == a[1..] + "\n" + b;
      SplitConcat(a[1..], b);
      PushCharConcat(a[0], Split(a[1..]), Split(b));
    }
  }

  lemma {:induction false} SplitIsOneLineEach(s: string)
    ensures OneLineEach(Split(s))
  {
    if s == "" {
    } else {
      SplitIsOneLineEach(s[1..]);
      assert OneLine(Split(s[1..])[0]);
    }
  }

  lemma {:induction false} SplitOneLine(s: string)
    requires OneLine(s)
    ensures Split(s) == [s]
  {
    if s == "" {
    } else {
      SplitOneLine(s[1..]);
      assert s == [s[0]] + s[1..];
    }
  }

  // Split undoes Text.
  lemma {:induction false} SplitText(ls: seq<string>)
    requires OneLineEach(ls)
    ensures Split(Text(ls)) == ls + [""]
  {
    if ls == [] {
    } else {
      SplitConcat(ls[0], Text(ls[1..]));
      SplitOneLine(ls[0]);
      SplitText(ls[1..]);
    }
  }

  lemma {:induction false} TextConcat(a: seq<string>, b: seq<string>)
    ensures Text(a + b) == Text(a) + Text(b)
  {
    if a == [] {
      assert a + b == b;
    } else {
      assert (a + b)[1..] == a[1..] + b;
      TextConcat(a[1..], b);
    }
  }

  // -------- the parser --------

  datatype Entry = Entry(key: string, value: string)

  // The first section holds whatever precedes the first header and has no name.
  datatype Section = Section(name: string, entries: seq<Entry>)

  datatype Item = Header(name: string) | Assign(entry: Entry) | Ignored

  // The first occurrence of c, or |s|.
  function Find(s: string, c: char): (i: nat)
    ensures i <= |s| && (i < |s| ==> s[i] == c)
    ensures forall j :: 0 <= j < i ==> s[j] != c
  {
    if s == "" || s[0] == c then 0 else 1 + Find(s[1..], c)
  }

  function ParseLine(line: string): Item {
    if line == "" || line[0] == '#' || line[0] == ';' then Ignored
    else if line[0] == '[' then
      if |line| > 1 && Last(line) == ']' then Header(line[1..|line| - 1]) else Ignored
    else
      var eq := Find(line, '=');
      if eq < |line| then Assign(Entry(line[..eq], line[eq + 1..])) else Ignored
  }

  function AddItem(secs: seq<Section>, item: Item): (r: seq<Section>)
    requires |secs| > 0
    ensures |r| >= |secs|
  {
    match item
    case Header(name) => secs + [Section(name, [])]
    case Assign(entry) => secs[|secs| - 1 := Section(Last(secs).name, Last(secs).entries + [entry])]
    case Ignored => secs
  }

  function ParseLines(secs: seq<Section>, ls: seq<string>): (r: seq<Section>)
    requires |secs| > 0
    ensures |r| >= |secs|
    decreases |ls|
  {
    if ls == [] then secs else ParseLines(AddItem(secs, ParseLine(ls[0])), ls[1..])
  }

  const START := [Section("", [])]

  function Parse(s: string): (r: seq<Section>)
    ensures |r| > 0
  {
    ParseLines(START, Split(s))
  }

  lemma {:induction false} ParseConcat(secs: seq<Section>, a: seq<string>, b: seq<string>)
    requires |secs| > 0
    ensures ParseLines(secs, a + b) == ParseLines(ParseLines(secs, a), b)
    decreases |a|
  {
    if a == [] {
      assert a + b == b;
    } else {
      assert (a + b)[1..] == a[1..] + b;
      ParseConcat(AddItem(secs, ParseLine(a[0])), a[1..], b);
    }
  }

  // Sections before the last are never touched again.
  lemma {:induction false} EarlierSectionsStay(secs: seq<Section>, ls: seq<string>, n: nat)
    requires n + 1 < |secs|
    ensures ParseLines(secs, ls)[n] == secs[n]
    decreases |ls|
  {
    if ls == [] {
    } else {
      EarlierSectionsStay(AddItem(secs, ParseLine(ls[0])), ls[1..], n);
    }
  }

  lemma {:induction false} NamesStay(secs: seq<Section>, ls: seq<string>, n: nat)
    requires n < |secs|
    ensures ParseLines(secs, ls)[n].name == secs[n].name
    ensures secs[n].entries <= ParseLines(secs, ls)[n].entries
    decreases |ls|
  {
    if ls == [] {
    } else {
      NamesStay(AddItem(secs, ParseLine(ls[0])), ls[1..], n);
    }
  }

  // All entries under sections of one name, in order.
  function EntriesOf(secs: seq<Section>, name: string): seq<Entry> {
    if secs == [] then []
    else (if secs[0].name == name then secs[0].entries else []) + EntriesOf(secs[1..], name)
  }

  lemma {:induction false} EntriesOfConcat(a: seq<Section>, b: seq<Section>, name: string)
    ensures EntriesOf(a + b, name) == EntriesOf(a, name) + EntriesOf(b, name)
  {
    if a == [] {
      assert a + b == b;
    } else {
      assert (a + b)[1..] == a[1..] + b;
      EntriesOfConcat(a[1..], b, name);
    }
  }

  // The values assigned to one key, in order.
  function Values(es: seq<Entry>, key: string): seq<string> {
    if es == [] then []
    else (if es[0].key == key then [es[0].value] else []) + Values(es[1..], key)
  }

  lemma {:induction false} ValuesConcat(a: seq<Entry>, b: seq<Entry>, key: string)
    ensures Values(a + b, key) == Values(a, key) + Values(b, key)
  {
    if a == [] {
      assert a + b == b;
    } else {
      assert (a + b)[1..] == a[1..] + b;
      ValuesConcat(a[1..], b, key);
    }
  }
}
