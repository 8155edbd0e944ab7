/**
 * Merging Prometheus text expositions
 * (packages/driver/src/metrics-exposition.ts).
 */
module MetricsExposition {
  import opened Prelude

  // ---------------------------------------------------------------------
  // JavaScript string operations
  // ---------------------------------------------------------------------

  /** `indexOf` of a character; the length stands for -1. */
  function IndexOf(s: string, c: char): (i: nat)
    ensures i <= |s|
    ensures i < |s| ==> s[i] == c
    ensures forall k | 0 <= k < i :: s[k] != c
  {
    if s == "" then 0
    else if s[0] == c then 0
    else
      var r := IndexOf(s[1..], c);
      assert forall k | 0 < k < r + 1 :: s[k] == s[1..][k - 1];
      r + 1
  }

  /** `slice`, with negative positions counted from the end. */
  function Slice(s: string, start: int, end: int): string {
    var a, b := Position(s, start), Position(s, end);
    if a < b then s[a..b] else ""
  }

  function Position(s: string, i: int): (p: nat)
    ensures p <= |s|
  {
    if i >= 0 then (if i <= |s| then i else |s|)
    else if |s| + i >= 0 then |s| + i else 0
  }

  function Split(s: string): (lines: seq<string>)
    ensures lines != []
    decreases |s|
  {
    var i := IndexOf(s, '\n');
    if i == |s| then [s] else [s[..i]] + Split(s[i + 1..])
  }

  /** `join("\n") + "\n"`. */
  function JoinLines(lines: seq<string>): string {
    if |lines| == 0 then "\n"
    else if |lines| == 1 then lines[0] + "\n"
    else lines[0] + "\n" + JoinLines(lines[1..])
  }

  predicate OneLine(s: string) {
    '\n' !in s
  }

  lemma {:induction false} SplitLines(s: string)
    ensures forall i | 0 <= i < |Split(s)| :: OneLine(Split(s)[i])
    decreases |s|
  {
    var i := IndexOf(s, '\n');
    if i < |s| {
      SplitLines(s[i + 1..]);
    }
  }

  lemma SplitFirst(line: string, more: string)
    requires OneLine(line)
    ensures Split(line + "\n" + more) == [line] + Split(more)
  {
    var s := line + "\n" + more;
    assert s[|line|] == '\n';
    assert forall k | 0 <= k < |line| :: s[k] == line[k];
    assert IndexOf(s, '\n') == |line|;
    assert s[|line| + 1..] == more && s[..|line|] == line;
  }

  lemma {:induction false} SplitJoined(lines: seq<string>)
    requires forall i | 0 <= i < |lines| :: OneLine(lines[i])
    ensures Split(JoinLines(lines)) == if lines == [] then ["", ""] else lines + [""]
  {
    SplitEmpty();
    hide Split;
    if |lines| == 0 {
      SplitFirst("", "");
      assert "" + "\n" + "" == JoinLines(lines);
    } else if |lines| == 1 {
      SplitFirst(lines[0], "");
      assert lines[0] + "\n" + "" == JoinLines(lines);
      assert lines == [lines[0]];
    } else {
      SplitFirst(lines[0], JoinLines(lines[1..]));
      SplitJoined(lines[1..]);
      assert [lines[0]] + (lines[1..] + [""]) == lines + [""];
    }
  }

  lemma SplitEmpty()
    ensures Split("") == [""]
  {
  }

  // ---------------------------------------------------------------------
  // Parsing
  // ---------------------------------------------------------------------

  datatype Family = Family(help: Option<string>, typ: Option<string>, samples: seq<string>)

  /** A Map from names to families, in insertion order. */
  datatype Entry = Entry(name: string, family: Family)

  const NO_FAMILY := Family(None, None, [])
  const HELP := "# HELP "
  const TYPE := "# TYPE "

  function SampleName(line: string): string {
    var brace, space := IndexOf(line, '{'), IndexOf(line, ' ');
    line[..if brace <= space then brace else space]
  }

  /** The word after the seven characters of a header prefix. */
  function HeaderName(line: string): string
    requires |line| >= 7
  {
    line[7..][..IndexOf(line[7..], ' ')]
  }

  function Find(fs: seq<Entry>, name: string): (i: Option<nat>)
    ensures i.Some? ==> i.value < |fs| && fs[i.value].name == name
    ensures i.Some? ==> forall k | i.value < k < |fs| :: fs[k].name != name
    ensures i.None? ==> forall k | 0 <= k < |fs| :: fs[k].name != name
  {
    if fs == [] then None
    else if fs[|fs| - 1].name == name then Some(|fs| - 1)
    else Find(fs[..|fs| - 1], name)
  }

  function Get(fs: seq<Entry>, name: string): Family {
    var i := Find(fs, name);
    if i.Some? then fs[i.value].family else NO_FAMILY
  }

  function Set(fs: seq<Entry>, name: string, f: Family): seq<Entry> {
    var i := Find(fs, name);
    if i.Some? then fs[i.value := Entry(name, f)] else fs + [Entry(name, f)]
  }

  datatype Parsing = Parsing(families: seq<Entry>, current: Option<string>)

  const BLANK := Parsing([], None)

  /** The family a line adds to, as it will then be. */
  function Revision(p: Parsing, line: string): Option<Entry> {
    if line == "" then None
    else if HELP <= line then
      var name := HeaderName(line);
      Some(Entry(name, Get(p.families, name).(help := Some(line))))
    else if TYPE <= line then
      var name := HeaderName(line);
      Some(Entry(name, Get(p.families, name).(typ := Some(line))))
    else if line[0] == '#' then None
    else
      var sName := SampleName(line);
      var name := if p.current.Some? && p.current.value <= sName then p.current.value else sName;
      var f := Get(p.families, name);
      Some(Entry(name, f.(samples := f.samples + [line])))
  }

  function ParseLine(p: Parsing, line: string): Parsing {
    var e := Revision(p, line);
    if e.None? then p else Parsing(Set(p.families, e.value.name, e.value.family), Some(e.value.name))
  }

  function ParseLines(p: Parsing, lines: seq<string>): Parsing {
    if lines == [] then p else ParseLine(ParseLines(p, lines[..|lines| - 1]), lines[|lines| - 1])
  }

  function Parse(text: string): seq<Entry> {
    ParseLines(BLANK, Split(text)).families
  }

  lemma {:induction false} ParseConcat(p: Parsing, a: seq<string>, b: seq<string>)
    ensures ParseLines(p, a + b) == ParseLines(ParseLines(p, a), b)
  {
    if b == [] {
      assert a + b == a;
    } else {
      var k := |b| - 1;
      assert (a + b)[..|a + b| - 1] == a + b[..k];
      ParseConcat(p, a, b[..k]);
    }
  }

  method ParseExposition(text: string) returns (families: seq<Entry>)
    ensures families == Parse(text)
  {
    hide ParseLines, HeaderName, SampleName, Get, Set;
    families := [];
    var current: Option<string> := None;
    var lines := Split(text);
    NothingParsed(BLANK);
    for i := 0 to |lines|
      invariant Parsing(families, current) == ParseLines(BLANK, lines[..i])
    {
      var line := lines[i];
      OneMoreParsed(BLANK, lines, i);
      if |line| == 0 {
        continue;
      }
      if HELP <= line {
        var name := HeaderName(line);
        current := Some(name);
        families := Set(families, name, Get(families, name).(help := Some(line)));
        continue;
      }
      if TYPE <= line {
        var name := HeaderName(line);
        current := Some(name);
        families := Set(families, name, Get(families, name).(typ := Some(line)));
        continue;
      }
      if line[0] == '#' {
        continue;
      }
      var sName := SampleName(line);
      if current.None? || !(current.value <= sName) {
        current := Some(sName);
      }
      var family := Get(families, current.value);
      families := Set(families, current.value, family.(samples := family.samples + [line]));
    }
    assert lines[..|lines|] == lines;
  }

  lemma NothingParsed(p: Parsing)
    ensures ParseLines(p, []) == p
  {
  }

  lemma OneMoreParsed(p: Parsing, lines: seq<string>, i: nat)
    requires i < |lines|
    ensures ParseLines(p, lines[..i + 1]) == ParseLine(ParseLines(p, lines[..i]), lines[i])
  {
    assert lines[..i + 1][..i] == lines[..i];
  }

  // ---------------------------------------------------------------------
  // What parsing guarantees of a family
  // ---------------------------------------------------------------------

  predicate Headed(f: Family) {
    f.help.Some? || f.typ.Some?
  }

  predicate IsSample(line: string) {
    line != "" && line[0] != '#' && OneLine(line)
  }

  /** Headers name the family, samples extend its name, and one of them introduces it. */
  predicate Sound(e: Entry) {
    && (e.family.help.Some? ==>
          var h := e.family.help.value; HELP <= h && HeaderName(h) == e.name && OneLine(h))
    && (e.family.typ.Some? ==>
          var t := e.family.typ.value; TYPE <= t && HeaderName(t) == e.name && OneLine(t))
    && (forall i | 0 <= i < |e.family.samples| ::
          IsSample(e.family.samples[i]) && e.name <= SampleName(e.family.samples[i]))
    && (!Headed(e.family) ==> e.family.samples != [] && SampleName(e.family.samples[0]) == e.name)
  }

  predicate Distinct(fs: seq<Entry>) {
    forall i, j | 0 <= i < j < |fs| :: fs[i].name != fs[j].name
  }

  predicate AllSound(fs: seq<Entry>) {
    Distinct(fs) && forall i | 0 <= i < |fs| :: Sound(fs[i])
  }

  lemma SetSound(fs: seq<Entry>, name: string, f: Family)
    requires AllSound(fs) && Sound(Entry(name, f))
    ensures AllSound(Set(fs, name, f))
  {
    hide Sound;
  }

  lemma GetSound(fs: seq<Entry>, name: string)
    requires AllSound(fs)
    ensures Find(fs, name).Some? ==> Sound(Entry(name, Get(fs, name)))
    ensures Find(fs, name).None? ==> Get(fs, name) == NO_FAMILY
  {
  }

  lemma RevisionSound(p: Parsing, line: string)
    requires AllSound(p.families) && OneLine(line)
    requires p.current.Some? ==> Find(p.families, p.current.value).Some?
    ensures Revision(p, line).Some? ==> Sound(Revision(p, line).value)
  {
    hide AllSound, SampleName, HeaderName, Find;
    if Revision(p, line).Some? {
      GetSound(p.families, Revision(p, line).value.name);
    }
  }

  lemma FindSet(fs: seq<Entry>, name: string, f: Family)
    ensures Find(Set(fs, name, f), name).Some?
    ensures Get(Set(fs, name, f), name) == f
  {
    assert Set(fs, name, f)[if Find(fs, name).Some? then Find(fs, name).value else |fs|] == Entry(name, f);
  }

  lemma {:induction false} ParseLinesSound(lines: seq<string>)
    requires forall i | 0 <= i < |lines| :: OneLine(lines[i])
    ensures var p := ParseLines(BLANK, lines);
      AllSound(p.families) && (p.current.Some? ==> Find(p.families, p.current.value).Some?)
  {
    hide AllSound, Find, Get, Set, Revision, Sound, OneLine;
    if lines == [] {
      NothingSound();
    } else {
      var k := |lines| - 1;
      ParseLinesSound(lines[..k]);
      var p := ParseLines(BLANK, lines[..k]);
      RevisionSound(p, lines[k]);
      var e := Revision(p, lines[k]);
      if e.Some? {
        SetSound(p.families, e.value.name, e.value.family);
        FindSet(p.families, e.value.name, e.value.family);
      }
    }
  }

  lemma NothingSound()
    ensures AllSound([])
  {
  }

  lemma ParseSound(text: string)
    ensures AllSound(Parse(text))
  {
    SplitLines(text);
    ParseLinesSound(Split(text));
  }

  // ---------------------------------------------------------------------
  // Printing
  // ---------------------------------------------------------------------

  function Optional(o: Option<string>): seq<string> {
    if o.Some? then [o.value] else []
  }

  function Header(f: Family): seq<string> {
    Optional(f.help) + Optional(f.typ)
  }

  function Block(f: Family): seq<string> {
    Header(f) + f.samples
  }

  function Print(fs: seq<Entry>): seq<string> {
    if fs == [] then [] else Print(fs[..|fs| - 1]) + Block(fs[|fs| - 1].family)
  }

  /**
   * Families stay apart when printed: each, after the first, has a header or a
   * name that does not extend the one before it.
   */
  predicate Separable(fs: seq<Entry>) {
    forall i | 0 < i < |fs| :: Headed(fs[i].family) || !(fs[i - 1].name <= fs[i].name)
  }

  lemma {:induction false} PrintedLines(fs: seq<Entry>)
    requires AllSound(fs)
    ensures forall i | 0 <= i < |Print(fs)| :: OneLine(Print(fs)[i])
  {
    hide SampleName, HeaderName, OneLine;
    if fs != [] {
      PrintedLines(fs[..|fs| - 1]);
      assert Sound(fs[|fs| - 1]);
    }
  }

  /** Lines that attach to the current family. */
  predicate AttachTo(name: string, lines: seq<string>) {
    forall i | 0 <= i < |lines| :: IsSample(lines[i]) && name <= SampleName(lines[i])
  }

  lemma SetAgain(fs: seq<Entry>, name: string, f: Family, g: Family)
    requires Find(fs, name).None?
    ensures Get(fs + [Entry(name, f)], name) == f
    ensures Set(fs + [Entry(name, f)], name, g) == fs + [Entry(name, g)]
    ensures Set(fs, name, f) == fs + [Entry(name, f)] && Get(fs, name) == NO_FAMILY
  {
  }

  lemma {:induction false} SamplesAttach(fs: seq<Entry>, name: string, f: Family, lines: seq<string>)
    requires Find(fs, name).None? && AttachTo(name, lines)
    ensures ParseLines(Parsing(fs + [Entry(name, f)], Some(name)), lines)
         == Parsing(fs + [Entry(name, f.(samples := f.samples + lines))], Some(name))
  {
    var start := Parsing(fs + [Entry(name, f)], Some(name));
    if lines == [] {
      assert f.samples + lines == f.samples;
    } else {
      hide SampleName, Find, Get, Set, OneLine, HeaderName;
      var k := |lines| - 1;
      SamplesAttach(fs, name, f, lines[..k]);
      SetAgain(fs, name, f.(samples := f.samples + lines[..k]), f.(samples := f.samples + lines));
      assert f.samples + lines[..k] + [lines[k]] == f.samples + lines;
      assert lines[k] != "" && lines[k][0] != '#';
      SampleIsNoHeader(lines[k]);
    }
  }

  lemma SampleIsNoHeader(line: string)
    requires IsSample(line)
    ensures !(HELP <= line) && !(TYPE <= line)
  {
    assert HELP[0] == TYPE[0] == '#';
  }

  lemma HelpIsNoType(line: string)
    requires TYPE <= line
    ensures !(HELP <= line)
  {
    assert line[2] == TYPE[2] != HELP[2];
  }

  /** One printed family parses to that family, when nothing before it claims its lines. */
  lemma BlockParses(fs: seq<Entry>, current: Option<string>, e: Entry)
    requires Find(fs, e.name).None? && Sound(e)
    requires Headed(e.family) || current.None? || !(current.value <= e.name)
    ensures ParseLines(Parsing(fs, current), Block(e.family)) == Parsing(fs + [e], Some(e.name))
  {
    hide SampleName, HeaderName, Find, Get, Set, OneLine;
    var p, f := Parsing(fs, current), e.family;
    ParseConcat(p, Header(f), f.samples);
    if Headed(f) {
      HeaderParses(p, e);
      SamplesAttach(fs, e.name, f.(samples := []), f.samples);
      assert [] + f.samples == f.samples;
    } else {
      var first, rest := f.samples[0], f.samples[1..];
      assert f.samples == [first] + rest;
      ParseConcat(p, [first], rest);
      ParseOne(p, first);
      SampleIsNoHeader(first);
      SetAgain(fs, e.name, NO_FAMILY.(samples := [first]), f);
      SamplesAttach(fs, e.name, NO_FAMILY.(samples := [first]), rest);
      assert Header(f) == [];
      assert [] + [first] == [first];
    }
  }

  lemma ParseOne(p: Parsing, line: string)
    ensures ParseLines(p, [line]) == ParseLine(p, line)
  {
    assert [line][..0] == [];
  }

  lemma HeaderParses(p: Parsing, e: Entry)
    requires Find(p.families, e.name).None? && Sound(e) && Headed(e.family)
    ensures ParseLines(p, Header(e.family))
         == Parsing(p.families + [Entry(e.name, e.family.(samples := []))], Some(e.name))
  {
    hide SampleName, HeaderName, Find, Get, Set, OneLine;
    var f, fs := e.family, p.families;
    ParseConcat(p, Optional(f.help), Optional(f.typ));
    NothingParsed(p);
    if f.help.Some? {
      ParseOne(p, f.help.value);
      SetAgain(fs, e.name, Family(f.help, None, []), Family(f.help, f.typ, []));
    } else {
      SetAgain(fs, e.name, Family(None, f.typ, []), NO_FAMILY);
    }
    var q := ParseLines(p, Optional(f.help));
    if f.typ.Some? {
      HelpIsNoType(f.typ.value);
      ParseOne(q, f.typ.value);
    } else {
      NothingParsed(q);
    }
  }

  // ---------------------------------------------------------------------
  // Printing and parsing are inverse, exactly for separable families
  // ---------------------------------------------------------------------

  /** Parsing never opens more than one family per printed family. */
  lemma BlockOpensOne(p: Parsing, e: Entry)
    requires Sound(e) && (p.current.Some? ==> Find(p.families, p.current.value).Some?)
    ensures var q := ParseLines(p, Block(e.family));
      && |q.families| <= |p.families| + 1
      && (q.current.Some? ==> Find(q.families, q.current.value).Some?)
      && (!Headed(e.family) && p.current.Some? && p.current.value <= e.name ==> |q.families| == |p.families|)
  {
    hide SampleName, HeaderName, Find, Get, Set, OneLine;
    var f := e.family;
    ParseConcat(p, Header(f), f.samples);
    if Headed(f) {
      var h := ParseLines(p, Header(f));
      HeaderOpensOne(p, e);
      SamplesOpenNone(h, f.samples);
    } else {
      NothingParsed(p);
      HeaderlessOpensOne(p, e.name, f.samples);
    }
  }

  lemma HeaderlessOpensOne(p: Parsing, name: string, lines: seq<string>)
    requires p.current.Some? ==> Find(p.families, p.current.value).Some?
    requires AttachTo(name, lines) && lines != [] && SampleName(lines[0]) == name
    ensures var q := ParseLines(p, lines);
      && |q.families| <= |p.families| + 1
      && (q.current.Some? ==> Find(q.families, q.current.value).Some?)
      && (p.current.Some? && p.current.value <= name ==> |q.families| == |p.families|)
  {
    hide SampleName, HeaderName, Find, Get, Set, OneLine;
    var first, rest := lines[0], lines[1..];
    assert lines == [first] + rest;
    ParseConcat(p, [first], rest);
    ParseOne(p, first);
    SampleIsNoHeader(first);
    var q := ParseLine(p, first);
    SetOpens(p.families, q.current.value, Revision(p, first).value.family);
    PrefixOfPrefix(q.current.value, name, rest);
    SamplesOpenNone(q, rest);
  }

  lemma PrefixOfPrefix(m: string, name: string, lines: seq<string>)
    requires m <= name && AttachTo(name, lines)
    ensures AttachTo(m, lines)
  {
  }

  lemma SetOpens(fs: seq<Entry>, name: string, f: Family)
    ensures var after := Set(fs, name, f);
      && |after| == (if Find(fs, name).Some? then |fs| else |fs| + 1)
      && Find(after, name).Some?
  {
    FindSet(fs, name, f);
  }

  lemma HeaderOpensOne(p: Parsing, e: Entry)
    requires Sound(e) && Headed(e.family)
    ensures var q := ParseLines(p, Header(e.family));
      |q.families| <= |p.families| + 1 && q.current == Some(e.name) && Find(q.families, e.name).Some?
  {
    hide SampleName, HeaderName, Find, Get, Set, OneLine;
    var f := e.family;
    ParseConcat(p, Optional(f.help), Optional(f.typ));
    NothingParsed(p);
    if f.help.Some? {
      ParseOne(p, f.help.value);
      SetOpens(p.families, e.name, Revision(p, f.help.value).value.family);
    }
    var q := ParseLines(p, Optional(f.help));
    NothingParsed(q);
    if f.typ.Some? {
      HelpIsNoType(f.typ.value);
      ParseOne(q, f.typ.value);
      SetOpens(q.families, e.name, Revision(q, f.typ.value).value.family);
    }
  }

  lemma {:induction false} SamplesOpenNone(p: Parsing, lines: seq<string>)
    requires p.current.Some? && Find(p.families, p.current.value).Some? && AttachTo(p.current.value, lines)
    ensures var q := ParseLines(p, lines);
      |q.families| == |p.families| && q.current == p.current && Find(q.families, q.current.value).Some?
  {
    hide SampleName, HeaderName, Find, Get, Set, OneLine;
    if lines != [] {
      var k := |lines| - 1;
      SamplesOpenNone(p, lines[..k]);
      var q := ParseLines(p, lines[..k]);
      SampleIsNoHeader(lines[k]);
      SetOpens(q.families, q.current.value, Revision(q, lines[k]).value.family);
    }
  }

  lemma NewName(fs: seq<Entry>, k: nat)
    requires k < |fs| && Distinct(fs)
    ensures Find(fs[..k], fs[k].name).None?
  {
  }

  lemma SeparableStep(front: seq<Entry>, last: Entry)
    ensures Separable(front + [last]) <==>
      Separable(front) && (front != [] ==> Headed(last.family) || !(front[|front| - 1].name <= last.name))
  {
    hide Headed;
    var fs := front + [last];
    assert forall i | 0 <= i < |front| :: fs[i] == front[i];
    assert fs[|front|] == last;
    if Separable(front) && (front != [] ==> Headed(last.family) || !(front[|front| - 1].name <= last.name)) {
      forall i | 0 < i < |fs| ensures Headed(fs[i].family) || !(fs[i - 1].name <= fs[i].name) {
        if i < |front| {
          assert Headed(front[i].family) || !(front[i - 1].name <= front[i].name);
        }
      }
    }
  }

  lemma {:induction false} PrintParses(fs: seq<Entry>)
    requires AllSound(fs)
    ensures var p := ParseLines(BLANK, Print(fs));
      && (p.current.Some? ==> Find(p.families, p.current.value).Some?)
      && (if Separable(fs) then p == Parsing(fs, if fs == [] then None else Some(fs[|fs| - 1].name))
          else |p.families| < |fs|)
  {
    hide Find, Block, Sound, Headed, Separable;
    if fs == [] {
      NothingParsed(BLANK);
      NothingSeparable();
    } else {
      var k := |fs| - 1;
      var front, last := fs[..k], fs[k];
      assert fs == front + [last];
      PrintParses(front);
      ParseConcat(BLANK, Print(front), Block(last.family));
      hide ParseLines, Print;
      var p := ParseLines(BLANK, Print(front));
      NewName(fs, k);
      SeparableStep(front, last);
      BlockOpensOne(p, last);
      if Separable(fs) {
        BlockParses(front, p.current, last);
        OneFamilyMore(front, last);
      }
    }
  }

  lemma NothingSeparable()
    ensures Separable([])
  {
  }

  lemma OneFamilyMore(front: seq<Entry>, last: Entry)
    ensures Find(front + [last], last.name).Some?
  {
    assert (front + [last])[|front|] == last;
  }

  /**
   * The printed text, split into lines and parsed again, gives the families
   * back if and only if they are separable.
   */
  lemma RoundTrip(fs: seq<Entry>)
    requires AllSound(fs)
    ensures Parse(JoinLines(Print(fs))) == fs <==> Separable(fs)
  {
    PrintedLines(fs);
    SplitJoined(Print(fs));
    PrintParses(fs);
    hide AllSound, Separable;
    var lines := Print(fs);
    BlankLast(lines);
    if lines == [] {
      BlankLast([""]);
      BlankLast([]);
      assert [""] + [""] == ["", ""];
      assert [] + [""] == [""];
    }
  }

  lemma BlankLast(lines: seq<string>)
    ensures ParseLines(BLANK, lines + [""]) == ParseLines(BLANK, lines)
  {
    ParseConcat(BLANK, lines, [""]);
    ParseOne(ParseLines(BLANK, lines), "");
  }

  // ---------------------------------------------------------------------
  // The session label
  // ---------------------------------------------------------------------

  /** `replace(/c/g, r)`. */
  function ReplaceAll(s: string, c: char, r: string): string {
    if s == "" then "" else (if s[0] == c then r else [s[0]]) + ReplaceAll(s[1..], c, r)
  }

  function Escape(id: string): string {
    ReplaceAll(ReplaceAll(ReplaceAll(id, '\\', "\\\\"), '"', "\\\""), '\n', "\\n")
  }

  function SessionLabel(id: string): string {
    "session=\"" + Escape(id) + "\""
  }

  function InjectSessionLabel(line: string, id: string): string {
    var brace := IndexOf(line, '{');
    var space := IndexOf(line, ' ');
    if brace < |line| then line[..brace + 1] + (SessionLabel(id) + AfterLabel(line, brace))
    else if space == |line| then line
    else line[..space] + ("{" + (SessionLabel(id) + ("}" + line[space..])))
  }

  function AfterLabel(line: string, brace: nat): string
    requires brace < |line| && line[brace] == '{'
  {
    var close := ClosePosition(line, brace);
    var existing := Slice(line, brace + 1, close);
    (if |existing| > 0 then "," else "") + existing + Slice(line, close, |line|)
  }

  /** `indexOf("}", brace)`: -1 when there is none. */
  function ClosePosition(line: string, brace: nat): (close: int)
    requires brace < |line| && line[brace] == '{'
    ensures close == -1 || (brace < close < |line| && line[close] == '}')
    ensures close == -1 <==> '}' !in line[brace..]
  {
    var i := IndexOf(line[brace..], '}');
    assert i < |line| - brace ==> line[brace..][i] == line[brace + i];
    if i == |line| - brace then -1 else brace + i
  }

  lemma {:induction false} ReplaceAllLines(s: string, c: char, r: string)
    requires OneLine(r)
    ensures c == '\n' || OneLine(s) ==> OneLine(ReplaceAll(s, c, r))
  {
    if s != "" {
      ReplaceAllLines(s[1..], c, r);
    }
  }

  lemma LabelIsOneLine(id: string)
    ensures OneLine(SessionLabel(id))
  {
    hide ReplaceAll;
    ReplaceAllLines(ReplaceAll(ReplaceAll(id, '\\', "\\\\"), '"', "\\\""), '\n', "\\n");
  }

  // A reader of label values in the text format.

  /** The value up to the first unescaped quote, and what follows it. */
  function ReadValue(s: string): Option<(string, string)> {
    if s == "" then None
    else if s[0] == '"' then Some(("", s[1..]))
    else if s[0] == '\\' && |s| == 1 then None
    else
      var escaped := s[0] == '\\';
      var c := if !escaped then s[0] else if s[1] == 'n' then '\n' else s[1];
      var r := ReadValue(if escaped then s[2..] else s[1..]);
      if r.None? then None else Some(([c] + r.value.0, r.value.1))
  }

  lemma {:induction false} ReplaceAllConcat(a: string, b: string, c: char, r: string)
    ensures ReplaceAll(a + b, c, r) == ReplaceAll(a, c, r) + ReplaceAll(b, c, r)
  {
    if a == "" {
      assert a + b == b;
    } else {
      assert (a + b)[1..] == a[1..] + b;
      ReplaceAllConcat(a[1..], b, c, r);
    }
  }

  function EscapeChar(c: char): string {
    if c == '\\' then "\\\\" else if c == '"' then "\\\"" else if c == '\n' then "\\n" else [c]
  }

  lemma ReplaceInShort(s: string, c: char, r: string)
    ensures |s| == 1 ==> ReplaceAll(s, c, r) == if s[0] == c then r else s
    ensures |s| == 2 && s[0] != c && s[1] != c ==> ReplaceAll(s, c, r) == s
  {
    if |s| == 1 {
      assert s[1..] == "" && s == [s[0]];
    } else if |s| == 2 {
      assert s[1..][1..] == "" && s == [s[0]] + [s[1]];
    }
  }

  lemma EscapeOne(c: char)
    ensures Escape([c]) == EscapeChar(c)
  {
    ReplaceInShort([c], '\\', "\\\\");
    var once := ReplaceAll([c], '\\', "\\\\");
    ReplaceInShort(once, '"', "\\\"");
    var twice := ReplaceAll(once, '"', "\\\"");
    ReplaceInShort(twice, '\n', "\\n");
  }

  lemma EscapeStep(c: char, rest: string)
    ensures Escape([c] + rest) == EscapeChar(c) + Escape(rest)
  {
    EscapeOne(c);
    hide ReplaceAll, EscapeChar;
    ReplaceAllConcat([c], rest, '\\', "\\\\");
    var a, b := ReplaceAll([c], '\\', "\\\\"), ReplaceAll(rest, '\\', "\\\\");
    ReplaceAllConcat(a, b, '"', "\\\"");
    ReplaceAllConcat(ReplaceAll(a, '"', "\\\""), ReplaceAll(b, '"', "\\\""), '\n', "\\n");
  }

  lemma ReadOne(c: char, rest: string)
    ensures ReadValue(EscapeChar(c) + rest)
         == if ReadValue(rest).None? then None else Some(([c] + ReadValue(rest).value.0, ReadValue(rest).value.1))
  {
    var s := EscapeChar(c) + rest;
    if c == '\\' || c == '"' || c == '\n' {
      assert s[2..] == rest;
    } else {
      assert s[1..] == rest;
    }
  }

  /**
   * Escaping is right for any session id, quotes, backslashes and newlines
   * included: a reader of the label gets the id back and stops where it ends.
   */
  lemma {:induction false} LabelReadsBack(id: string, more: string)
    ensures ReadValue(Escape(id) + ("\"" + more)) == Some((id, more))
  {
    if id == "" {
      assert Escape("") + ("\"" + more) == "\"" + more;
    } else {
      hide Escape, EscapeChar, ReadValue;
      LabelReadsBack(id[1..], more);
      EscapeStep(id[0], id[1..]);
      assert [id[0]] + id[1..] == id;
      Assoc(EscapeChar(id[0]), Escape(id[1..]), "\"" + more);
      ReadOne(id[0], Escape(id[1..]) + ("\"" + more));
    }
  }

  lemma IndexOfIs(s: string, c: char, i: nat)
    requires i <= |s| && (i < |s| ==> s[i] == c) && forall k | 0 <= k < i :: s[k] != c
    ensures IndexOf(s, c) == i
  {
  }

  lemma NameOf(s: string, n: nat)
    requires n <= |s| && (n < |s| ==> s[n] == '{' || s[n] == ' ')
    requires forall k | 0 <= k < n :: s[k] != '{' && s[k] != ' '
    ensures SampleName(s) == s[..n]
  {
  }

  /** A line may change after its metric name, if what follows still ends the name. */
  lemma NameShared(line: string, m: nat, rest: string)
    requires |SampleName(line)| <= m <= |line|
    requires |SampleName(line)| == m ==> rest != "" && rest[0] == '{'
    ensures SampleName(line[..m] + rest) == SampleName(line)
  {
    var n, s := |SampleName(line)|, line[..m] + rest;
    assert forall k | 0 <= k < m :: s[k] == line[k];
    assert n == m ==> s[n] == rest[0];
    NameOf(s, n);
    assert s[..n] == line[..n];
  }

  lemma AfterLabelIsOneLine(line: string, brace: nat)
    requires OneLine(line) && brace < |line| && line[brace] == '{'
    ensures OneLine(AfterLabel(line, brace))
  {
  }

  lemma OneLineParts(a: string, b: string)
    requires OneLine(a) && OneLine(b)
    ensures OneLine(a + b)
  {
  }

  lemma OneLineSplit(line: string, i: nat)
    requires OneLine(line) && i <= |line|
    ensures OneLine(line[..i]) && OneLine(line[i..])
  {
  }

  /** The label adds no line, and the line stays a sample. */
  lemma InjectKeepsSample(line: string, id: string)
    requires IsSample(line)
    ensures IsSample(InjectSessionLabel(line, id))
  {
    LabelIsOneLine(id);
    var brace, space, lab := IndexOf(line, '{'), IndexOf(line, ' '), SessionLabel(id);
    if brace < |line| {
      AfterLabelIsOneLine(line, brace);
      var after := AfterLabel(line, brace);
      hide SessionLabel, AfterLabel, OneLine, IndexOf;
      OneLineSplit(line, brace + 1);
      OneLineParts(lab, after);
      OneLineParts(line[..brace + 1], lab + after);
    } else if space < |line| {
      assert OneLine("{") && OneLine("}");
      hide SessionLabel, OneLine, IndexOf;
      OneLineSplit(line, space);
      OneLineParts("}", line[space..]);
      OneLineParts(lab, "}" + line[space..]);
      OneLineParts("{", lab + ("}" + line[space..]));
      OneLineParts(line[..space], "{" + (lab + ("}" + line[space..])));
    }
  }

  /** The label never changes which metric a line belongs to. */
  lemma InjectKeepsName(line: string, id: string)
    ensures SampleName(InjectSessionLabel(line, id)) == SampleName(line)
  {
    hide SessionLabel, AfterLabel, IndexOf;
    var brace, space := IndexOf(line, '{'), IndexOf(line, ' ');
    if brace < |line| {
      assert |SampleName(line)| <= brace;
      hide SampleName;
      NameShared(line, brace + 1, SessionLabel(id) + AfterLabel(line, brace));
    } else if space < |line| {
      assert |SampleName(line)| == space;
      hide SampleName;
      var rest := SessionLabel(id) + ("}" + line[space..]);
      assert ("{" + rest)[0] == '{';
      NameShared(line, space, "{" + rest);
    }
  }

  // ---------------------------------------------------------------------
  // Removing the label again
  // ---------------------------------------------------------------------

  /** What stood where a label was put in: with the comma it needed, or the braces, dropped. */
  function Unlabelled(front: string, rest: string): string {
    if rest != "" && rest[0] == ',' then front + "{" + rest[1..]
    else if rest != "" && rest[0] == '}' then front + rest[1..]
    else front + "{" + rest
  }

  /** A reader that undoes the label. */
  function RemoveLabel(line: string, id: string): string {
    var brace := IndexOf(line, '{');
    if brace == |line| || !(SessionLabel(id) <= line[brace + 1..]) then line
    else Unlabelled(line[..brace], line[brace + 1 + |SessionLabel(id)|..])
  }

  /** Braces with nothing in them, and two kinds of line cut off after the brace. */
  predicate Degenerate(line: string) {
    var brace := IndexOf(line, '{');
    brace < |line| && var after := line[brace + 1..]; after == "" || after == "," || after[0] == '}'
  }

  lemma Slices(line: string, a: nat, b: nat)
    requires a <= b <= |line| && line != ""
    ensures Slice(line, a, b) == line[a..b]
    ensures Slice(line, b, |line|) == line[b..]
    ensures Slice(line, -1, |line|) == line[|line| - 1..]
    ensures Slice(line, a, -1) == if a < |line| - 1 then line[a..|line| - 1] else ""
  {
    assert line[b..|line|] == line[b..];
    assert line[|line| - 1..|line|] == line[|line| - 1..];
    assert a == b ==> line[a..b] == "";
    assert b == |line| ==> line[b..] == "";
  }

  lemma AfterLabelIs(line: string, brace: nat)
    requires brace < |line| && line[brace] == '{'
    ensures var after := line[brace + 1..];
      AfterLabel(line, brace) == if after == "" then "{" else if |after| == 1 || after[0] == '}' then after else "," + after
  {
    var after, close := line[brace + 1..], ClosePosition(line, brace);
    assert after != "" ==> after[0] == line[brace..][1];
    Slices(line, brace + 1, if close == -1 then |line| else close);
    hide Slice;
    if close == -1 {
      assert |after| > 0 ==> after == line[brace + 1..|line| - 1] + line[|line| - 1..];
    } else {
      assert after == line[brace + 1..close] + line[close..];
    }
  }

  lemma CutAtBrace(front: string, more: string)
    requires '{' !in front
    ensures var out := front + "{" + more;
      && IndexOf(out, '{') == |front| < |out|
      && out[..|front|] == front && out[..|front| + 1] == front + "{" && out[|front| + 1..] == more
  {
    var out := front + "{" + more;
    assert out[|front|] == '{';
    assert forall k | 0 <= k < |front| :: out[k] == front[k];
    IndexOfIs(out, '{', |front|);
  }

  lemma CutLabel(s: string, a: nat, lab: string, rest: string)
    requires a <= |s| && s[a..] == lab + rest
    ensures lab <= s[a..] && a + |lab| <= |s| && s[a + |lab|..] == rest
  {
    assert s[a..][|lab|..] == s[a + |lab|..];
  }

  lemma RemoveLabelIs(front: string, id: string, rest: string)
    requires '{' !in front
    ensures RemoveLabel(front + "{" + (SessionLabel(id) + rest), id) == Unlabelled(front, rest)
  {
    hide IndexOf, SessionLabel, Unlabelled;
    var lab := SessionLabel(id);
    var out := front + "{" + (lab + rest);
    CutAtBrace(front, lab + rest);
    CutLabel(out, |front| + 1, lab, rest);
  }

  lemma BracedLabelRemoved(front: string, after: string, rest: string)
    requires rest == if after == "" then "{" else if |after| == 1 || after[0] == '}' then after else "," + after
    ensures Unlabelled(front, rest) == front + "{" + after <==> !(after == "" || after == "," || after[0] == '}')
  {
    if after == "" || after == "," || after[0] == '}' {
      assert |Unlabelled(front, rest)| != |front + "{" + after|;
    } else if |after| > 1 {
      assert rest[1..] == after;
    }
  }

  lemma LineAround(line: string, brace: nat)
    requires brace < |line| && line[brace] == '{'
    ensures line[..brace + 1] == line[..brace] + "{"
    ensures line == line[..brace] + "{" + line[brace + 1..]
  {
  }

  lemma InjectInBraces(line: string, id: string)
    requires IndexOf(line, '{') < |line|
    ensures var brace := IndexOf(line, '{');
      InjectSessionLabel(line, id) == line[..brace] + "{" + (SessionLabel(id) + AfterLabel(line, brace))
  {
    hide SessionLabel, AfterLabel, IndexOf;
    LineAround(line, IndexOf(line, '{'));
  }

  lemma LabelRemovedFromBraces(line: string, id: string, front: string, after: string)
    requires var brace := IndexOf(line, '{'); brace < |line| && front == line[..brace] && after == line[brace + 1..]
    ensures RemoveLabel(InjectSessionLabel(line, id), id) == line <==> !(after == "" || after == "," || after[0] == '}')
  {
    hide *;
    var brace := IndexOf(line, '{');
    InjectInBraces(line, id);
    RemoveLabelIs(front, id, AfterLabel(line, brace));
    AfterLabelIs(line, brace);
    BracedLabelRemoved(front, after, AfterLabel(line, brace));
    LineAround(line, brace);
  }

  /** Removing the injected label recovers the line, except for the degenerate ones. */
  lemma LabelRemoved(line: string, id: string)
    ensures RemoveLabel(InjectSessionLabel(line, id), id) == line <==> !Degenerate(line)
  {
    hide SessionLabel, AfterLabel, RemoveLabel, IndexOf, Unlabelled;
    var brace, space := IndexOf(line, '{'), IndexOf(line, ' ');
    if brace < |line| {
      LabelRemovedFromBraces(line, id, line[..brace], line[brace + 1..]);
    } else if space < |line| {
      var front, after := line[..space], line[space..];
      RemoveLabelIs(front, id, "}" + after);
      Assoc(front, "{", SessionLabel(id) + ("}" + after));
      ClosedAtOnce(front, after);
      assert line == front + after;
    } else {
      NothingToRemove(line, id);
    }
  }

  lemma ClosedAtOnce(front: string, after: string)
    ensures Unlabelled(front, "}" + after) == front + after
  {
    assert ("}" + after)[1..] == after;
  }

  lemma NothingToRemove(line: string, id: string)
    requires IndexOf(line, '{') == |line|
    ensures RemoveLabel(line, id) == line
  {
  }

  // ---------------------------------------------------------------------
  // Merging
  // ---------------------------------------------------------------------

  datatype Exposition = Exposition(sessionId: string, text: string)

  datatype ParsedSession = ParsedSession(sessionId: string, families: seq<Entry>)

  function ParseAll(sessions: seq<Exposition>): seq<ParsedSession> {
    seq(|sessions|, i requires 0 <= i < |sessions| => ParsedSession(sessions[i].sessionId, Parse(sessions[i].text)))
  }

  predicate Declares(fs: seq<Entry>, name: string) {
    Find(fs, name).Some?
  }

  /** Names in order of first appearance, without those in `owned`. */
  function AddNames(order: seq<string>, owned: seq<Entry>, fs: seq<Entry>): seq<string> {
    if fs == [] then order
    else
      var before, name := AddNames(order, owned, fs[..|fs| - 1]), fs[|fs| - 1].name;
      if Declares(owned, name) || name in before then before else before + [name]
  }

  function SessionOnly(owned: seq<Entry>, ps: seq<ParsedSession>): seq<string> {
    if ps == [] then [] else AddNames(SessionOnly(owned, ps[..|ps| - 1]), owned, ps[|ps| - 1].families)
  }

  function Labelled(samples: seq<string>, id: string): seq<string> {
    seq(|samples|, i requires 0 <= i < |samples| => InjectSessionLabel(samples[i], id))
  }

  /** The sessions that have the family, in order. */
  function Having(ps: seq<ParsedSession>, name: string): seq<ParsedSession> {
    if ps == [] then []
    else Having(ps[..|ps| - 1], name) + if Declares(ps[|ps| - 1].families, name) then [ps[|ps| - 1]] else []
  }

  function AllSamples(having: seq<ParsedSession>, name: string): seq<string> {
    if having == [] then []
    else
      var p := having[|having| - 1];
      AllSamples(having[..|having| - 1], name) + Labelled(Get(p.families, name).samples, p.sessionId)
  }

  /** The first session's header over every session's samples, each under its own label. */
  function Combined(ps: seq<ParsedSession>, name: string): Family {
    var having := Having(ps, name);
    var first := if having == [] then NO_FAMILY else Get(having[0].families, name);
    Family(first.help, first.typ, AllSamples(having, name))
  }

  function CombinedAll(ps: seq<ParsedSession>, names: seq<string>): seq<Entry> {
    seq(|names|, i requires 0 <= i < |names| => Entry(names[i], Combined(ps, names[i])))
  }

  /** The families the merged exposition should hold. */
  function Merged(serverText: string, sessions: seq<Exposition>): seq<Entry> {
    var owned, ps := Parse(serverText), ParseAll(sessions);
    owned + CombinedAll(ps, SessionOnly(owned, ps))
  }

  lemma PrintLast(fs: seq<Entry>, e: Entry)
    ensures Print(fs + [e]) == Print(fs) + Block(e.family)
  {
    assert (fs + [e])[..|fs|] == fs;
  }

  lemma {:induction false} PrintConcat(a: seq<Entry>, b: seq<Entry>)
    ensures Print(a + b) == Print(a) + Print(b)
  {
    if b == [] {
      assert a + b == a;
    } else {
      hide *;
      var front, last := b[..|b| - 1], b[|b| - 1];
      PrintConcat(a, front);
      Assoc(a, front, [last]);
      assert b == front + [last];
      PrintLast(a + front, last);
      PrintLast(front, last);
      Assoc(Print(a), Print(front), Block(last.family));
    }
  }

  lemma PrintOneMore(fs: seq<Entry>, i: nat)
    requires i < |fs|
    ensures Print(fs[..i + 1]) == Print(fs[..i]) + Block(fs[i].family)
  {
    assert fs[..i + 1][..i] == fs[..i];
  }

  lemma HavingOneMore(ps: seq<ParsedSession>, name: string, j: nat)
    requires j < |ps|
    ensures Having(ps[..j + 1], name) == Having(ps[..j], name) + if Declares(ps[j].families, name) then [ps[j]] else []
  {
    assert ps[..j + 1][..j] == ps[..j];
  }

  lemma CombinedOneMore(ps: seq<ParsedSession>, name: string, j: nat)
    requires j < |ps|
    ensures var before, after := Combined(ps[..j], name), Combined(ps[..j + 1], name);
      if !Declares(ps[j].families, name) then after == before
      else
        var f := Get(ps[j].families, name);
        && after.samples == before.samples + Labelled(f.samples, ps[j].sessionId)
        && (Having(ps[..j], name) == [] ==> before == NO_FAMILY && after.help == f.help && after.typ == f.typ)
        && (Having(ps[..j], name) != [] ==> after.help == before.help && after.typ == before.typ)
  {
    hide Labelled, Get;
    HavingOneMore(ps, name, j);
    var before, after := Having(ps[..j], name), Having(ps[..j + 1], name);
    if Declares(ps[j].families, name) {
      assert after[..|after| - 1] == before;
    } else {
      assert after == before;
    }
  }

  method EmitSamples(out: seq<string>, samples: seq<string>, id: string) returns (after: seq<string>)
    ensures after == out + Labelled(samples, id)
  {
    hide InjectSessionLabel;
    after := out;
    for i := 0 to |samples|
      invariant after == out + Labelled(samples, id)[..i]
    {
      after := after + [InjectSessionLabel(samples[i], id)];
    }
  }

  method ServerLines(families: seq<Entry>) returns (out: seq<string>)
    ensures out == Print(families)
  {
    hide Header;
    out := [];
    for i := 0 to |families|
      invariant out == Print(families[..i])
    {
      PrintOneMore(families, i);
      var f := families[i].family;
      ghost var before := out;
      out := out + Header(f);
      for k := 0 to |f.samples|
        invariant out == before + Header(f) + f.samples[..k]
      {
        out := out + [f.samples[k]];
      }
      assert f.samples[..|f.samples|] == f.samples;
      assert before + Header(f) + f.samples == before + (Header(f) + f.samples);
    }
    assert families[..|families|] == families;
  }

  method FamilyOrder(owned: seq<Entry>, ps: seq<ParsedSession>) returns (order: seq<string>)
    ensures order == SessionOnly(owned, ps)
  {
    hide Declares, AddNames;
    order := [];
    var seen: set<string> := {};
    for i := 0 to |ps|
      invariant order == SessionOnly(owned, ps[..i])
      invariant forall n :: n in seen <==> n in order
    {
      var fs := ps[i].families;
      assert ps[..i + 1][..i] == ps[..i];
      NoNames(order, owned);
      ghost var before := order;
      for k := 0 to |fs|
        invariant order == AddNames(before, owned, fs[..k])
        invariant forall n :: n in seen <==> n in order
      {
        OneMoreName(before, owned, fs, k);
        var name := fs[k].name;
        if Declares(owned, name) {
          continue;
        }
        if name !in seen {
          seen := seen + {name};
          order := order + [name];
        }
      }
      assert fs[..|fs|] == fs;
    }
    assert ps[..|ps|] == ps;
  }

  lemma NoNames(order: seq<string>, owned: seq<Entry>)
    ensures AddNames(order, owned, []) == order
  {
  }

  lemma OneMoreName(order: seq<string>, owned: seq<Entry>, fs: seq<Entry>, k: nat)
    requires k < |fs|
    ensures AddNames(order, owned, fs[..k + 1])
         == var before := AddNames(order, owned, fs[..k]);
            if Declares(owned, fs[k].name) || fs[k].name in before then before else before + [fs[k].name]
  {
    assert fs[..k + 1][..k] == fs[..k];
  }

  /** The lines of one family: the inner loop of the second part. */
  method FamilyLines(out: seq<string>, ps: seq<ParsedSession>, name: string) returns (after: seq<string>)
    ensures after == out + Block(Combined(ps, name))
  {
    NothingCombined(name);
    hide Combined, Having, Labelled, Get, Declares, Block, Header;
    after := out;
    var emittedHeader := false;
    assert out + [] == out;
    assert ps[..0] == [];
    for j := 0 to |ps|
      invariant after == out + Block(Combined(ps[..j], name))
      invariant emittedHeader <==> Having(ps[..j], name) != []
    {
      HavingOneMore(ps, name, j);
      CombinedOneMore(ps, name, j);
      if !Declares(ps[j].families, name) {
        continue;
      }
      var f := Get(ps[j].families, name);
      ghost var before, now := Combined(ps[..j], name), Combined(ps[..j + 1], name);
      if emittedHeader {
        BlockGrows(out, before, now, Labelled(f.samples, ps[j].sessionId));
      } else {
        BlockStarts(out, f, now, Labelled(f.samples, ps[j].sessionId));
      }
      if !emittedHeader {
        emittedHeader := true;
        after := after + Header(f);
      }
      after := EmitSamples(after, f.samples, ps[j].sessionId);
    }
    assert ps[..|ps|] == ps;
  }

  lemma NothingCombined(name: string)
    ensures Combined([], name) == NO_FAMILY && Having([], name) == [] && Block(NO_FAMILY) == []
  {
  }

  lemma BlockGrows(out: seq<string>, before: Family, now: Family, more: seq<string>)
    requires now == before.(samples := before.samples + more)
    ensures out + Block(now) == out + Block(before) + more
  {
    hide Header;
    assert Header(now) == Header(before) by {
      SameHeader(now, before);
    }
    var h := Header(now);
    assert out + (h + (before.samples + more)) == out + (h + before.samples) + more;
  }

  lemma SameHeader(a: Family, b: Family)
    requires a.help == b.help && a.typ == b.typ
    ensures Header(a) == Header(b)
  {
  }

  lemma BlockStarts(out: seq<string>, first: Family, now: Family, more: seq<string>)
    requires now == first.(samples := [] + more)
    ensures out + Block(now) == out + Block(NO_FAMILY) + Header(first) + more
  {
    NothingCombined("");
    SameHeader(now, first);
    hide Header, Block;
    assert Block(now) == Header(first) + more by {
      BlockIs(now);
    }
    assert out + [] + Header(first) + more == out + (Header(first) + more);
  }

  lemma BlockIs(f: Family)
    ensures Block(f) == Header(f) + f.samples
  {
  }

  method ParseSessions(sessions: seq<Exposition>) returns (ps: seq<ParsedSession>)
    ensures ps == ParseAll(sessions)
  {
    hide Parse;
    ps := [];
    for i := 0 to |sessions|
      invariant ps == ParseAll(sessions)[..i]
    {
      var families := ParseExposition(sessions[i].text);
      ps := ps + [ParsedSession(sessions[i].sessionId, families)];
    }
  }

  method SessionLines(out: seq<string>, ps: seq<ParsedSession>, order: seq<string>) returns (after: seq<string>)
    ensures after == out + Print(CombinedAll(ps, order))
  {
    hide Print, Combined, Block;
    ghost var all := CombinedAll(ps, order);
    NothingPrinted();
    after := out;
    for i := 0 to |order|
      invariant after == out + Print(all[..i])
    {
      PrintOneMore(all, i);
      Assoc(out, Print(all[..i]), Block(all[i].family));
      after := FamilyLines(after, ps, order[i]);
    }
    assert all[..|order|] == all;
  }

  /** `mergeMetricsText`. */
  method MergeMetricsText(serverText: string, sessions: seq<Exposition>) returns (text: string)
    ensures text == JoinLines(Print(Merged(serverText, sessions)))
  {
    hide Parse, ParseAll, Print, CombinedAll, SessionOnly, JoinLines;
    var owned := ParseExposition(serverText);
    var out := ServerLines(owned);
    var ps := ParseSessions(sessions);
    var order := FamilyOrder(owned, ps);
    out := SessionLines(out, ps, order);
    PrintConcat(owned, CombinedAll(ps, order));
    text := JoinLines(out);
  }

  lemma NothingPrinted()
    ensures Print([]) == []
  {
  }

  // ---------------------------------------------------------------------
  // The merged exposition parses to the merged families
  // ---------------------------------------------------------------------

  predicate Fresh(order: seq<string>, owned: seq<Entry>) {
    && (forall i, j | 0 <= i < j < |order| :: order[i] != order[j])
    && forall i | 0 <= i < |order| :: Find(owned, order[i]).None?
  }

  lemma {:induction false} AddNamesFresh(order: seq<string>, owned: seq<Entry>, fs: seq<Entry>)
    requires Fresh(order, owned)
    ensures var after := AddNames(order, owned, fs);
      && Fresh(after, owned) && order <= after
      && (forall n | n in after :: n in order || Find(fs, n).Some?)
      && (forall n | Find(fs, n).Some? && Find(owned, n).None? :: n in after)
  {
    if fs != [] {
      var k := |fs| - 1;
      AddNamesFresh(order, owned, fs[..k]);
      forall n ensures Find(fs, n).Some? <==> fs[k].name == n || Find(fs[..k], n).Some? {
      }
      hide Find;
    }
  }

  /** The session-only names are exactly those some session declares and the server does not, once each. */
  lemma {:induction false} SessionOnlyNames(owned: seq<Entry>, ps: seq<ParsedSession>)
    ensures Fresh(SessionOnly(owned, ps), owned)
    ensures forall n :: n in SessionOnly(owned, ps) <==> Find(owned, n).None? && Having(ps, n) != []
  {
    if ps != [] {
      var k := |ps| - 1;
      SessionOnlyNames(owned, ps[..k]);
      AddNamesFresh(SessionOnly(owned, ps[..k]), owned, ps[k].families);
      hide AddNames;
      forall n ensures n in SessionOnly(owned, ps) <==> Find(owned, n).None? && Having(ps, n) != [] {
        assert Having(ps, n) != [] <==> Having(ps[..k], n) != [] || Find(ps[k].families, n).Some?;
      }
      hide Find;
    }
  }

  lemma {:induction false} AllSamplesSound(having: seq<ParsedSession>, name: string)
    requires forall i | 0 <= i < |having| :: AllSound(having[i].families) && Declares(having[i].families, name)
    ensures AttachTo(name, AllSamples(having, name))
    ensures having != [] && !Headed(Get(having[0].families, name)) ==>
      AllSamples(having, name) != [] && SampleName(AllSamples(having, name)[0]) == name
  {
    hide AllSound, SampleName, InjectSessionLabel, IsSample, HeaderName, Find, Get;
    if having != [] {
      var k := |having| - 1;
      AllSamplesSound(having[..k], name);
      var f, id := Get(having[k].families, name).samples, having[k].sessionId;
      GetSound(having[k].families, name);
      forall i | 0 <= i < |f| ensures IsSample(Labelled(f, id)[i]) && SampleName(Labelled(f, id)[i]) == SampleName(f[i]) {
        InjectKeepsSample(f[i], id);
        InjectKeepsName(f[i], id);
      }
    }
  }

  lemma {:induction false} HavingIs(ps: seq<ParsedSession>, name: string)
    requires forall i | 0 <= i < |ps| :: AllSound(ps[i].families)
    ensures forall i | 0 <= i < |Having(ps, name)| ::
      AllSound(Having(ps, name)[i].families) && Declares(Having(ps, name)[i].families, name)
  {
    hide AllSound, Declares;
    if ps != [] {
      HavingIs(ps[..|ps| - 1], name);
    }
  }

  lemma CombinedSound(ps: seq<ParsedSession>, name: string)
    requires forall i | 0 <= i < |ps| :: AllSound(ps[i].families)
    requires Having(ps, name) != []
    ensures Sound(Entry(name, Combined(ps, name)))
  {
    hide AllSound, SampleName, IsSample, HeaderName, Find, Get, Having, AllSamples;
    HavingIs(ps, name);
    var having := Having(ps, name);
    AllSamplesSound(having, name);
    GetSound(having[0].families, name);
  }

  lemma MergedSound(serverText: string, sessions: seq<Exposition>)
    ensures AllSound(Merged(serverText, sessions))
  {
    var owned, ps := Parse(serverText), ParseAll(sessions);
    hide Parse, Sound, Having, Combined, SessionOnly;
    ParseSound(serverText);
    forall i | 0 <= i < |ps| ensures AllSound(ps[i].families) {
      ParseSound(sessions[i].text);
    }
    SessionOnlyNames(owned, ps);
    var names := SessionOnly(owned, ps);
    forall i | 0 <= i < |names| ensures Sound(Entry(names[i], Combined(ps, names[i]))) {
      assert names[i] in names;
      CombinedSound(ps, names[i]);
    }
  }

  /**
   * The merge round trip: parsing the merged text gives the server's families
   * unchanged, then every session-only family once, with one header and every
   * session's samples labelled, if and only if those families are separable.
   */
  lemma MergeRoundTrip(serverText: string, sessions: seq<Exposition>)
    ensures var all := Merged(serverText, sessions);
      Parse(JoinLines(Print(all))) == all <==> Separable(all)
  {
    MergedSound(serverText, sessions);
    RoundTrip(Merged(serverText, sessions));
  }

  predicate AllHeaded(fs: seq<Entry>) {
    forall i | 0 <= i < |fs| :: Headed(fs[i].family)
  }

  lemma CombinedAllHeaded(ps: seq<ParsedSession>, owned: seq<Entry>)
    requires forall i | 0 <= i < |ps| :: AllHeaded(ps[i].families)
    ensures AllHeaded(CombinedAll(ps, SessionOnly(owned, ps)))
  {
    hide AllSamples, Having, SessionOnly;
    var names := SessionOnly(owned, ps);
    SessionOnlyNames(owned, ps);
    forall i | 0 <= i < |names| ensures Headed(Combined(ps, names[i])) {
      assert names[i] in names;
      HavingHeaded(ps, names[i]);
    }
  }

  /** Expositions whose families all have headers, as the metrics library writes them, always merge. */
  lemma HeadedMerge(serverText: string, sessions: seq<Exposition>)
    requires AllHeaded(Parse(serverText))
    requires forall i | 0 <= i < |sessions| :: AllHeaded(Parse(sessions[i].text))
    ensures var all := Merged(serverText, sessions); Parse(JoinLines(Print(all))) == all
  {
    hide Parse, Print, JoinLines, CombinedAll, SessionOnly, Headed;
    CombinedAllHeaded(ParseAll(sessions), Parse(serverText));
    MergeRoundTrip(serverText, sessions);
  }

  lemma {:induction false} HavingHeaded(ps: seq<ParsedSession>, name: string)
    requires forall i | 0 <= i < |ps| :: AllHeaded(ps[i].families)
    ensures forall i | 0 <= i < |Having(ps, name)| :: Headed(Get(Having(ps, name)[i].families, name))
  {
    if ps != [] {
      HavingHeaded(ps[..|ps| - 1], name);
    }
  }
}
