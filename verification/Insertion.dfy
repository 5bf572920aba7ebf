// insertBeforeSection: raw text insertion, and what it means to a reader of the unit file.
module Insertion {
  import opened Common
  import opened IniText

  // -------- strings.Index --------

  predicate OccursAt(s: string, pat: string, i: nat) {
    i + |pat| <= |s| && s[i..i + |pat|] == pat
  }

  function IndexFrom(s: string, pat: string, from: nat): (i: int)
    requires from <= |s|
    ensures i == -1 || from <= i <= |s|
    ensures i >= 0 ==> OccursAt(s, pat, i)
    ensures forall j :: from <= j <= |s| && OccursAt(s, pat, j) ==> 0 <= i <= j
    decreases |s| - from
  {
    if OccursAt(s, pat, from) then from
    else if from == |s| then -1
    else IndexFrom(s, pat, from + 1)
  }

  function Index(s: string, pat: string): (i: int)
    ensures i == -1 || 0 <= i <= |s|
    ensures i >= 0 ==> OccursAt(s, pat, i)
    ensures forall j :: 0 <= j <= |s| && OccursAt(s, pat, j) ==> 0 <= i <= j
  {
    IndexFrom(s, pat, 0)
  }

  function Bracketed(section: string): string {
    "[" + section + "]"
  }

  function Marker(section: string): string {
    "\n" + Bracketed(section)
  }

  function InsertBeforeSection(content: string, section: string, extra: string): string {
    var idx := Index(content, Marker(section));
    if idx == -1 then content + "\n" + extra
    else content[..idx] + "\n" + extra + content[idx..]
  }

  // -------- the insertion, line by line --------

  // The first line after line 0 that begins with the bracketed name, or |ls|.
  function HeaderLine(ls: seq<string>, section: string, from: nat := 1): (k: nat)
    requires 1 <= from <= |ls|
    ensures from <= k <= |ls|
    ensures k < |ls| ==> Bracketed(section) <= ls[k]
    ensures forall j :: from <= j < k ==> !(Bracketed(section) <= ls[j])
    decreases |ls| - from
  {
    if from == |ls| || Bracketed(section) <= ls[from] then from else HeaderLine(ls, section, from + 1)
  }

  lemma HeaderLineIs(ls: seq<string>, section: string, k: nat)
    requires 1 <= k <= |ls|
    requires k < |ls| ==> Bracketed(section) <= ls[k]
    requires forall j :: 1 <= j < k ==> !(Bracketed(section) <= ls[j])
    ensures HeaderLine(ls, section) == k
  {
  }

  lemma {:induction false} FirstLinePrefix(s: string, p: string)
    requires OneLine(p)
    ensures p <= Split(s)[0] <==> p <= s
  {
    if p != "" && s != "" && s[0] == p[0] {
      FirstLinePrefix(s[1..], p[1..]);
      assert s == [s[0]] + s[1..] && p == [p[0]] + p[1..];
    }
  }

  lemma SplitAtNewline(s: string, at: nat)
    requires at < |s| && s[at] == '\n'
    ensures Split(s) == Split(s[..at]) + Split(s[at + 1..])
  {
    assert s == s[..at] + "\n" + s[at + 1..];
    SplitConcat(s[..at], s[at + 1..]);
  }

  // s splits into k lines before the newline at that position, and the other lines behind it.
  ghost predicate SplitsAt(s: string, k: nat, at: nat) {
    && at < |s| && s[at] == '\n' && k <= |Split(s)|
    && Split(s[..at]) == Split(s)[..k] && Split(s[at + 1..]) == Split(s)[k..]
  }

  lemma SplitsAtNext(s: string, k: nat, at: nat)
    requires s != "" && k > 0 && SplitsAt(s[1..], k, at)
    ensures SplitsAt(s, if s[0] == '\n' then k + 1 else k, at + 1)
  {
    assert s[..at + 1][1..] == s[1..][..at] && s[at + 2..] == s[1..][at + 1..];
  }

  // The position of the newline before line k.
  lemma {:induction false} LineStart(s: string, k: nat) returns (at: nat)
    requires 1 <= k < |Split(s)|
    ensures SplitsAt(s, k, at)
  {
    if s[0] == '\n' && k == 1 {
      at := 0;
    } else {
      var k' := if s[0] == '\n' then k - 1 else k;
      var at' := LineStart(s[1..], k');
      SplitsAtNext(s, k', at');
      at := at' + 1;
    }
  }

  lemma {:induction false} SplitIsMonotone(s: string, i: nat, j: nat)
    requires i <= j <= |s|
    ensures |Split(s[..i])| <= |Split(s[..j])|
  {
    if i > 0 {
      assert s[..i][1..] == s[1..][..i - 1] && s[..j][1..] == s[1..][..j - 1];
      SplitIsMonotone(s[1..], i - 1, j - 1);
    }
  }

  lemma MarkerOccursIff(s: string, section: string, at: nat)
    requires at < |s| && s[at] == '\n' && OneLine(section)
    ensures OccursAt(s, Marker(section), at) <==> Bracketed(section) <= Split(s[at + 1..])[0]
  {
    var m, rest := Marker(section), s[at + 1..];
    assert m[1..] == Bracketed(section);
    FirstLinePrefix(rest, Bracketed(section));
    if at + |m| <= |s| {
      assert s[at..at + |m|] == ['\n'] + rest[..|m| - 1];
      assert s[at..at + |m|][1..] == rest[..|m| - 1];
    }
  }

  // The first marker is the newline before the header line.
  lemma IndexIsHeaderLine(s: string, section: string)
    requires OneLine(section)
    ensures var idx, ls := Index(s, Marker(section)), Split(s);
      var k := HeaderLine(ls, section);
      if idx == -1 then k == |ls|
      else idx < |s| && s[idx] == '\n' && k < |ls| && Split(s[..idx]) == ls[..k] && Split(s[idx + 1..]) == ls[k..]
  {
    var idx, ls := Index(s, Marker(section)), Split(s);
    var k := HeaderLine(ls, section);
    if k < |ls| {
      var at := LineStart(s, k);
      MarkerOccursIff(s, section, at);
      SplitIsMonotone(s, idx, at);
    }
    if idx >= 0 {
      assert s[idx] == s[idx..idx + |Marker(section)|][0];
      SplitAtNewline(s, idx);
      MarkerOccursIff(s, section, idx);
      var n := |Split(s[..idx])|;
      assert Bracketed(section) <= ls[n];
      assert n == k;
    }
  }

  lemma Regroup(a: string, b: string, c: string)
    ensures a + "\n" + b + ("\n" + c) == a + "\n" + (b + "\n" + c)
  {
  }

  lemma SplitThree(a: string, extra: seq<string>, c: string)
    requires OneLineEach(extra)
    ensures Split(a + "\n" + Text(extra) + ("\n" + c)) == Split(a) + (extra + [""]) + Split(c)
  {
    Regroup(a, Text(extra), c);
    SplitConcat(a, Text(extra) + "\n" + c);
    SplitConcat(Text(extra), c);
    SplitText(extra);
  }

  // Every original line is kept, in order and whole; the extra lines go in together.
  lemma InsertedLines(content: string, section: string, extra: seq<string>)
    requires OneLine(section) && OneLineEach(extra)
    ensures var ls := Split(content);
      var k := HeaderLine(ls, section);
      Split(InsertBeforeSection(content, section, Text(extra))) == ls[..k] + (extra + [""]) + ls[k..]
  {
    var idx, ls := Index(content, Marker(section)), Split(content);
    IndexIsHeaderLine(content, section);
    if idx == -1 {
      SplitConcat(content, Text(extra));
      SplitText(extra);
      assert ls[..|ls|] == ls && ls[|ls|..] == [];
    } else {
      assert content[idx..] == "\n" + content[idx + 1..];
      SplitThree(content[..idx], extra, content[idx + 1..]);
    }
  }

  // -------- what the insertion means --------

  // A key that reads back as itself.
  predicate IsKey(key: string) {
    && key != "" && OneLine(key) && '=' !in key
    && key[0] != '#' && key[0] != ';' && key[0] != '['
  }

  predicate IsEntry(e: Entry) {
    IsKey(e.key) && OneLine(e.value)
  }

  predicate AreEntries(es: seq<Entry>) {
    forall i :: 0 <= i < |es| ==> IsEntry(es[i])
  }

  function EntryLine(e: Entry): string {
    e.key + "=" + e.value
  }

  function EntryLines(es: seq<Entry>): (ls: seq<string>)
    ensures |ls| == |es|
  {
    seq(|es|, i requires 0 <= i < |es| => EntryLine(es[i]))
  }

  lemma ParseEntryLine(e: Entry)
    requires IsEntry(e)
    ensures OneLine(EntryLine(e)) && ParseLine(EntryLine(e)) == Assign(e)
  {
    var line := EntryLine(e);
    assert line[0] == e.key[0] && line[|e.key|] == '=';
    assert forall j :: 0 <= j < |e.key| ==> line[j] == e.key[j];
    assert Find(line, '=') == |e.key|;
    assert line[..|e.key|] == e.key && line[|e.key| + 1..] == e.value;
  }

  lemma EntryLinesAreOneLine(es: seq<Entry>)
    requires AreEntries(es)
    ensures OneLineEach(EntryLines(es))
  {
    forall i | 0 <= i < |es|
      ensures OneLine(EntryLines(es)[i])
    {
      ParseEntryLine(es[i]);
    }
  }

  // es put in at that position.
  function Spliced<T>(s: seq<T>, at: nat, es: seq<T>): (r: seq<T>)
    requires at <= |s|
    ensures |r| == |s| + |es|
  {
    s[..at] + es + s[at..]
  }

  function InsertAt(secs: seq<Section>, n: nat, e: nat, es: seq<Entry>): (r: seq<Section>)
    requires n < |secs| && e <= |secs[n].entries|
    ensures |r| == |secs|
  {
    secs[n := Section(secs[n].name, Spliced(secs[n].entries, e, es))]
  }

  lemma {:induction false} ParseEntryLines(secs: seq<Section>, es: seq<Entry>)
    requires |secs| > 0 && AreEntries(es)
    ensures ParseLines(secs, EntryLines(es)) == InsertAt(secs, |secs| - 1, |Last(secs).entries|, es)
    decreases |es|
  {
    if es == [] {
      InsertAtEnd(secs, es);
      assert Last(secs).entries + es == Last(secs).entries;
    } else {
      var next := AddItem(secs, Assign(es[0]));
      ParseEntryLine(es[0]);
      assert EntryLines(es)[0] == EntryLine(es[0]) && EntryLines(es)[1..] == EntryLines(es[1..]);
      ParseEntryLines(next, es[1..]);
      InsertOneMore(secs, es);
    }
  }

  lemma InsertOneMore(secs: seq<Section>, es: seq<Entry>)
    requires |secs| > 0 && es != []
    ensures var next := AddItem(secs, Assign(es[0]));
      InsertAt(next, |next| - 1, |Last(next).entries|, es[1..]) == InsertAt(secs, |secs| - 1, |Last(secs).entries|, es)
  {
    InsertAtEnd(secs, es);
    InsertAtEnd(AddItem(secs, Assign(es[0])), es[1..]);
    assert Last(secs).entries + [es[0]] + es[1..] == Last(secs).entries + es;
  }

  lemma InsertAtEnd(secs: seq<Section>, es: seq<Entry>)
    requires |secs| > 0
    ensures var last := Last(secs);
      InsertAt(secs, |secs| - 1, |last.entries|, es) == secs[|secs| - 1 := Section(last.name, last.entries + es)]
  {
    var es0 := Last(secs).entries;
    assert es0[..|es0|] + es + es0[|es0|..] == es0 + es;
  }

  lemma InsertAtMiddle(init: seq<Section>, s: Section, rest: seq<Section>, es: seq<Entry>)
    ensures InsertAt(init + [s] + rest, |init|, |s.entries|, es) ==
      init + [Section(s.name, s.entries + es)] + rest
  {
    assert Spliced(s.entries, |s.entries|, es) == s.entries + es;
  }

  lemma AddItemCommutes(secs: seq<Section>, item: Item, n: nat, e: nat, es: seq<Entry>)
    requires n < |secs| && e <= |secs[n].entries|
    ensures e <= |AddItem(secs, item)[n].entries|
    ensures AddItem(InsertAt(secs, n, e, es), item) == InsertAt(AddItem(secs, item), n, e, es)
  {
    var old' := secs[n].entries;
    if item.Header? {
      assert AddItem(InsertAt(secs, n, e, es), item) == InsertAt(AddItem(secs, item), n, e, es);
    } else if item.Assign? && n == |secs| - 1 {
      var new' := old' + [item.entry];
      assert new'[..e] == old'[..e] && new'[e..] == old'[e..] + [item.entry];
      assert old'[..e] + es + old'[e..] + [item.entry] == new'[..e] + es + new'[e..];
      assert AddItem(InsertAt(secs, n, e, es), item) == InsertAt(AddItem(secs, item), n, e, es);
    } else if item.Assign? {
      assert AddItem(InsertAt(secs, n, e, es), item) == InsertAt(AddItem(secs, item), n, e, es);
    }
  }

  // Entries inserted early are still where they were put when the rest has been read.
  lemma {:induction false} InsertCommutes(secs: seq<Section>, ls: seq<string>, n: nat, e: nat, es: seq<Entry>)
    requires n < |secs| && e <= |secs[n].entries|
    ensures e <= |ParseLines(secs, ls)[n].entries|
    ensures ParseLines(InsertAt(secs, n, e, es), ls) == InsertAt(ParseLines(secs, ls), n, e, es)
    decreases |ls|
  {
    if ls == [] {
    } else {
      AddItemCommutes(secs, ParseLine(ls[0]), n, e, es);
      InsertCommutes(AddItem(secs, ParseLine(ls[0])), ls[1..], n, e, es);
    }
  }

  // The sections read before the header line: insertion goes to the end of the last of them.
  function Before(content: string, section: string): (r: seq<Section>)
    ensures |r| > 0
  {
    ParseLines(START, Split(content)[..HeaderLine(Split(content), section)])
  }

  lemma ParseAround(secs: seq<Section>, a: seq<string>, mid: seq<string>, c: seq<string>)
    requires |secs| > 0
    ensures ParseLines(secs, a + (mid + [""]) + c) == ParseLines(ParseLines(ParseLines(secs, a), mid), c)
  {
    ParseConcat(secs, a + (mid + [""]), c);
    ParseConcat(secs, a, mid + [""]);
    ParseConcat(ParseLines(secs, a), mid, [""]);
  }

  lemma EntriesFirst(before: seq<Section>, es: seq<Entry>, c: seq<string>)
    requires |before| > 0 && AreEntries(es)
    ensures var n, e, after := |before| - 1, |Last(before).entries|, ParseLines(before, c);
      && n < |after| && e <= |after[n].entries|
      && ParseLines(ParseLines(before, EntryLines(es)), c) == InsertAt(after, n, e, es)
  {
    ParseEntryLines(before, es);
    InsertCommutes(before, c, |before| - 1, |Last(before).entries|, es);
  }

  // Entries read between two stretches of lines are the insertion at the end of the first.
  lemma EntriesBetween(secs: seq<Section>, a: seq<string>, es: seq<Entry>, c: seq<string>)
    requires |secs| > 0 && AreEntries(es)
    ensures var before := ParseLines(secs, a);
      var n, e, after := |before| - 1, |Last(before).entries|, ParseLines(before, c);
      && n < |after| && e <= |after[n].entries|
      && ParseLines(secs, a + (EntryLines(es) + [""]) + c) == InsertAt(after, n, e, es)
  {
    ParseAround(secs, a, EntryLines(es), c);
    EntriesFirst(ParseLines(secs, a), es, c);
  }

  lemma SectionsInFront(secs: seq<Section>, ls: seq<string>)
    requires |secs| > 0
    ensures var r, n := ParseLines(secs, ls), |secs| - 1;
      r[..n] == secs[..n] && r[n].name == secs[n].name
  {
    var r, n := ParseLines(secs, ls), |secs| - 1;
    forall i | 0 <= i < n
      ensures r[i] == secs[i]
    {
      EarlierSectionsStay(secs, ls, i);
    }
    NamesStay(secs, ls, n);
  }

  lemma ParseOfBefore(content: string, section: string)
    ensures var ls := Split(content);
      Parse(content) == ParseLines(Before(content, section), ls[HeaderLine(ls, section)..])
  {
    var ls := Split(content);
    var k := HeaderLine(ls, section);
    assert ls[..k] + ls[k..] == ls;
    ParseConcat(START, ls[..k], ls[k..]);
  }

  // On any text, inserting assignments before [section] adds exactly those entries to one section of
  // the parsed file, and leaves everything else as it was.
  lemma InsertedEntries(content: string, section: string, es: seq<Entry>)
    requires OneLine(section) && AreEntries(es)
    ensures var secs, before := Parse(content), Before(content, section);
      var n, e := |before| - 1, |Last(before).entries|;
      && n < |secs| && e <= |secs[n].entries| && secs[n].name == Last(before).name && secs[..n] == before[..n]
      && Parse(InsertBeforeSection(content, section, Text(EntryLines(es)))) == InsertAt(secs, n, e, es)
  {
    var ls := Split(content);
    var k := HeaderLine(ls, section);
    EntryLinesAreOneLine(es);
    InsertedLines(content, section, EntryLines(es));
    EntriesBetween(START, ls[..k], es, ls[k..]);
    ParseOfBefore(content, section);
    SectionsInFront(Before(content, section), ls[k..]);
  }

  lemma HeaderFollows(before: seq<Section>, ls: seq<string>)
    requires |before| > 0 && ls != [] && ParseLine(ls[0]).Header?
    ensures var secs, n := ParseLines(before, ls), |before| - 1;
      n + 1 < |secs| && secs[n] == Last(before) && secs[n + 1].name == ParseLine(ls[0]).name
  {
    var next := AddItem(before, ParseLine(ls[0]));
    EarlierSectionsStay(next, ls[1..], |before| - 1);
    NamesStay(next, ls[1..], |before|);
  }

  // The entries are appended: before a proper header, to the section right in front of it; without
  // any header line, to the last section.
  lemma InsertionAppends(content: string, section: string)
    requires OneLine(section)
    ensures var ls, secs, before := Split(content), Parse(content), Before(content, section);
      var k, n := HeaderLine(ls, section), |before| - 1;
      && n < |secs|
      && (k == |ls| ==> before == secs)
      && (k < |ls| && ParseLine(ls[k]).Header? ==>
            secs[n] == Last(before) && n + 1 < |secs| && secs[n + 1].name == ParseLine(ls[k]).name)
  {
    var ls, before := Split(content), Before(content, section);
    var k := HeaderLine(ls, section);
    ParseOfBefore(content, section);
    if k < |ls| && ParseLine(ls[k]).Header? {
      HeaderFollows(before, ls[k..]);
    }
  }

  lemma SplicedBetween<T>(a: seq<T>, b: seq<T>, c: seq<T>, at: nat, es: seq<T>)
    requires at <= |b|
    ensures a + Spliced(b, at, es) + c == Spliced(a + b + c, |a| + at, es)
  {
    assert (a + b + c)[..|a| + at] == a + b[..at];
    assert (a + b + c)[|a| + at..] == b[at..] + c;
  }

  lemma EntriesOfMiddle(a: seq<Section>, s: Section, c: seq<Section>, name: string)
    ensures EntriesOf(a + [s] + c, name)
         == EntriesOf(a, name) + (if s.name == name then s.entries else []) + EntriesOf(c, name)
  {
    EntriesOfConcat(a + [s], c, name);
    EntriesOfConcat(a, [s], name);
    assert [s][1..] == [];
  }

  // Looked up by section name, the insertion puts its entries, together and in order, into the named
  // section, behind what stood before the insertion point, and into no other.
  lemma EntriesOfInsertAt(secs: seq<Section>, n: nat, e: nat, es: seq<Entry>, name: string)
    requires n < |secs| && e <= |secs[n].entries|
    ensures var old', new' := EntriesOf(secs, name), EntriesOf(InsertAt(secs, n, e, es), name);
      var at := |EntriesOf(secs[..n], name)| + e;
      if secs[n].name == name then at <= |old'| && new' == Spliced(old', at, es) else new' == old'
  {
    var a, s, c := secs[..n], secs[n], secs[n + 1..];
    var s' := Section(s.name, Spliced(s.entries, e, es));
    assert secs == a + [s] + c && InsertAt(secs, n, e, es) == a + [s'] + c;
    EntriesOfMiddle(a, s, c, name);
    EntriesOfMiddle(a, s', c, name);
    SplicedBetween(EntriesOf(a, name), s.entries, EntriesOf(c, name), e, es);
  }

  lemma EntriesOfLast(before: seq<Section>, name: string)
    requires |before| > 0
    ensures |EntriesOf(before, name)|
         == |EntriesOf(before[..|before| - 1], name)| + if Last(before).name == name then |Last(before).entries| else 0
  {
    EntriesOfMiddle(before[..|before| - 1], Last(before), [], name);
    assert before == before[..|before| - 1] + [Last(before)] + [];
  }

  // The same seen from the sections in front of the insertion point.
  lemma EntriesOfInsertBehind(secs: seq<Section>, before: seq<Section>, es: seq<Entry>, name: string)
    requires 0 < |before| <= |secs| && secs[..|before| - 1] == before[..|before| - 1]
    requires secs[|before| - 1].name == Last(before).name && |Last(before).entries| <= |secs[|before| - 1].entries|
    ensures var old', at := EntriesOf(secs, name), |EntriesOf(before, name)|;
      EntriesOf(InsertAt(secs, |before| - 1, |Last(before).entries|, es), name) ==
        if Last(before).name == name && at <= |old'| then Spliced(old', at, es) else old'
    ensures Last(before).name == name ==> |EntriesOf(before, name)| <= |EntriesOf(secs, name)|
  {
    EntriesOfInsertAt(secs, |before| - 1, |Last(before).entries|, es, name);
    EntriesOfLast(before, name);
  }

  // On any text: the entries found under a name after the insertion.
  lemma EntriesOfInserted(content: string, section: string, es: seq<Entry>, name: string)
    requires OneLine(section) && AreEntries(es)
    ensures var out := InsertBeforeSection(content, section, Text(EntryLines(es)));
      var old', new' := EntriesOf(Parse(content), name), EntriesOf(Parse(out), name);
      var before := Before(content, section);
      if Last(before).name == name then
        |EntriesOf(before, name)| <= |old'| && new' == Spliced(old', |EntriesOf(before, name)|, es)
      else new' == old'
  {
    var before := Before(content, section);
    InsertedEntries(content, section, es);
    EntriesOfInsertBehind(Parse(content), before, es, name);
  }
}
