/**
 * Nothing is lost or moved in parsing and merging expositions
 * (packages/driver/src/metrics-exposition.ts).
 */
module MetricsConservation {
  import opened Prelude
  import opened MetricsExposition

  // ---------------------------------------------------------------------
  // Parsing keeps every line that counts
  // ---------------------------------------------------------------------

  predicate CountsAsSample(line: string) {
    line != "" && line[0] != '#'
  }

  function SampleLines(lines: seq<string>): multiset<string> {
    if lines == [] then multiset{}
    else
      var last := lines[|lines| - 1];
      SampleLines(lines[..|lines| - 1]) + if CountsAsSample(last) then multiset{last} else multiset{}
  }

  function SamplesOf(fs: seq<Entry>): multiset<string> {
    if fs == [] then multiset{} else SamplesOf(fs[..|fs| - 1]) + multiset(fs[|fs| - 1].family.samples)
  }

  /** The last line with this header prefix and name. */
  function LastHeader(lines: seq<string>, prefix: string, name: string): Option<string>
    requires prefix == HELP || prefix == TYPE
  {
    if lines == [] then None
    else
      var last := lines[|lines| - 1];
      if prefix <= last && HeaderName(last) == name then Some(last) else LastHeader(lines[..|lines| - 1], prefix, name)
  }

  lemma SamplesOfLast(fs: seq<Entry>)
    requires fs != []
    ensures SamplesOf(fs) == SamplesOf(fs[..|fs| - 1]) + multiset(fs[|fs| - 1].family.samples)
  {
  }

  lemma Exchange(was: multiset<string>, now: multiset<string>, a: multiset<string>, b: multiset<string>, c: multiset<string>)
    requires now + a == was + b
    ensures (now + c) + a == (was + c) + b
  {
    assert (now + c) + a == (now + a) + c && (was + c) + b == (was + b) + c;
  }

  lemma Cancel(was: multiset<string>, now: multiset<string>, a: multiset<string>, one: multiset<string>)
    requires now + a == was + (a + one)
    ensures now == was + one
  {
    forall x ensures now[x] == (was + one)[x] {
      assert (now + a)[x] == (was + (a + one))[x];
    }
  }

  lemma {:induction false} SamplesOfUpdate(fs: seq<Entry>, i: nat, e: Entry)
    requires i < |fs|
    ensures SamplesOf(fs[i := e]) + multiset(fs[i].family.samples) == SamplesOf(fs) + multiset(e.family.samples)
  {
    var k := |fs| - 1;
    SamplesOfLast(fs);
    SamplesOfLast(fs[i := e]);
    hide SamplesOf;
    if i < k {
      assert fs[i := e][..k] == fs[..k][i := e];
      SamplesOfUpdate(fs[..k], i, e);
      Exchange(SamplesOf(fs[..k]), SamplesOf(fs[..k][i := e]), multiset(fs[i].family.samples), multiset(e.family.samples),
               multiset(fs[k].family.samples));
    } else {
      assert fs[i := e][..k] == fs[..k];
    }
  }

  lemma SamplesOfSet(fs: seq<Entry>, name: string, f: Family)
    ensures SamplesOf(Set(fs, name, f)) + multiset(Get(fs, name).samples) == SamplesOf(fs) + multiset(f.samples)
  {
    var i := Find(fs, name);
    if i.Some? {
      SamplesOfUpdate(fs, i.value, Entry(name, f));
    } else {
      assert (fs + [Entry(name, f)])[..|fs|] == fs;
    }
  }

  lemma GetAfterSet(fs: seq<Entry>, name: string, f: Family, other: string)
    ensures Get(Set(fs, name, f), other) == if other == name then f else Get(fs, other)
  {
    var after := Set(fs, name, f);
    if other == name {
      FindSet(fs, name, f);
    } else {
      var i, j := Find(fs, other), Find(after, other);
      assert forall k | 0 <= k < |fs| && fs[k].name == other :: after[k] == fs[k];
      if i.Some? {
        assert after[i.value].name == other;
      }
    }
  }

  /** A line is a header of one kind, a sample, or nothing. */
  lemma KindsDiffer(line: string)
    ensures !(HELP <= line && TYPE <= line)
    ensures HELP <= line || TYPE <= line ==> !CountsAsSample(line)
  {
    if HELP <= line {
      assert line[..7] == HELP && line[2] == HELP[2] == 'H';
    }
    if TYPE <= line {
      assert line[..7] == TYPE && line[2] == TYPE[2] == 'T';
    }
    assert HELP[0] == '#' && TYPE[0] == '#';
  }

  lemma ParseLineKeeps(p: Parsing, line: string, name: string)
    ensures var after := ParseLine(p, line).families;
      && SamplesOf(after) == SamplesOf(p.families) + (if CountsAsSample(line) then multiset{line} else multiset{})
      && Get(after, name).help
         == (if HELP <= line && HeaderName(line) == name then Some(line) else Get(p.families, name).help)
      && Get(after, name).typ
         == (if TYPE <= line && HeaderName(line) == name then Some(line) else Get(p.families, name).typ)
  {
    hide Find, Get, Set, HeaderName, SampleName, SamplesOf;
    KindsDiffer(line);
    var e := Revision(p, line);
    if e.Some? {
      var was := Get(p.families, e.value.name).samples;
      assert multiset(was + [line]) == multiset(was) + multiset{line};
      SamplesOfSet(p.families, e.value.name, e.value.family);
      var one := if CountsAsSample(line) then multiset{line} else multiset{};
      assert multiset(e.value.family.samples) == multiset(was) + one;
      Cancel(SamplesOf(p.families), SamplesOf(Set(p.families, e.value.name, e.value.family)), multiset(was), one);
      GetAfterSet(p.families, e.value.name, e.value.family, name);
    }
  }

  /**
   * Parsing keeps every sample line of the text, as often as it is there, and
   * no other, and gives each family its last headers.
   */
  lemma {:induction false} ParseLinesKeep(lines: seq<string>, name: string)
    ensures var fs := ParseLines(BLANK, lines).families;
      && SamplesOf(fs) == SampleLines(lines)
      && Get(fs, name).help == LastHeader(lines, HELP, name)
      && Get(fs, name).typ == LastHeader(lines, TYPE, name)
  {
    if lines != [] {
      hide ParseLine, Get, HeaderName, SamplesOf, CountsAsSample;
      var k := |lines| - 1;
      ParseLinesKeep(lines[..k], name);
      ParseLineKeeps(ParseLines(BLANK, lines[..k]), lines[k], name);
    }
  }

  lemma ParseKeeps(text: string, name: string)
    ensures SamplesOf(Parse(text)) == SampleLines(Split(text))
    ensures Get(Parse(text), name).help == LastHeader(Split(text), HELP, name)
    ensures Get(Parse(text), name).typ == LastHeader(Split(text), TYPE, name)
  {
    ParseLinesKeep(Split(text), name);
  }

  // ---------------------------------------------------------------------
  // Merging keeps every sample of every session
  // ---------------------------------------------------------------------

  /** How many samples of the family the sessions have together. */
  function Together(ps: seq<ParsedSession>, name: string): nat {
    if ps == [] then 0
    else Together(ps[..|ps| - 1], name) + |Get(ps[|ps| - 1].families, name).samples|
  }

  predicate FirstToDeclare(ps: seq<ParsedSession>, name: string, j: nat)
    requires j < |ps|
  {
    Declares(ps[j].families, name) && forall i | 0 <= i < j :: !Declares(ps[i].families, name)
  }

  /** Sample `i` of session `j` stands, labelled, behind all samples of earlier sessions and its own earlier ones. */
  predicate InPlace(ps: seq<ParsedSession>, name: string, samples: seq<string>, j: nat, i: nat)
    requires j < |ps| && i < |Get(ps[j].families, name).samples|
  {
    var at := Together(ps[..j], name) + i;
    at < |samples| && samples[at] == InjectSessionLabel(Get(ps[j].families, name).samples[i], ps[j].sessionId)
  }

  lemma UndeclaredHasNone(fs: seq<Entry>, name: string)
    requires !Declares(fs, name)
    ensures Get(fs, name) == NO_FAMILY
  {
  }

  lemma TogetherOneMore(ps: seq<ParsedSession>, name: string, k: nat)
    requires k < |ps|
    ensures Together(ps[..k + 1], name) == Together(ps[..k], name) + |Get(ps[k].families, name).samples|
  {
    assert ps[..k + 1][..k] == ps[..k];
  }

  predicate Kept(ps: seq<ParsedSession>, name: string, k: nat, f: Family)
    requires k <= |ps|
  {
    && |f.samples| == Together(ps[..k], name)
    && (forall j, i | 0 <= j < k && 0 <= i < |Get(ps[j].families, name).samples| :: InPlace(ps, name, f.samples, j, i))
  }

  lemma SamplesStep(ps: seq<ParsedSession>, name: string, k: nat, before: Family, after: Family)
    requires k < |ps| && Kept(ps, name, k, before)
    requires var f := Get(ps[k].families, name);
      after.samples == before.samples + Labelled(f.samples, ps[k].sessionId)
    ensures Kept(ps, name, k + 1, after)
  {
    TogetherOneMore(ps, name, k);
    hide Together, InjectSessionLabel, Get;
    var was, now, f, id := before.samples, after.samples, Get(ps[k].families, name).samples, ps[k].sessionId;
    LabelledAt(f, id);
    hide Labelled;
    assert |now| == Together(ps[..k], name) + |f|;
    forall j, i | 0 <= j < k + 1 && 0 <= i < |Get(ps[j].families, name).samples| ensures InPlace(ps, name, now, j, i) {
      if j < k {
        assert InPlace(ps, name, was, j, i);
        assert now[Together(ps[..j], name) + i] == was[Together(ps[..j], name) + i];
      } else {
        assert now[|was| + i] == Labelled(f, id)[i];
      }
    }
  }

  lemma LabelledAt(samples: seq<string>, id: string)
    ensures |Labelled(samples, id)| == |samples|
    ensures forall i | 0 <= i < |samples| :: Labelled(samples, id)[i] == InjectSessionLabel(samples[i], id)
  {
  }

  predicate SameHeaders(f: Family, g: Family) {
    f.help == g.help && f.typ == g.typ
  }

  predicate FirstHeaders(ps: seq<ParsedSession>, name: string, k: nat, f: Family)
    requires k <= |ps|
  {
    forall j | 0 <= j < k && FirstToDeclare(ps, name, j) :: SameHeaders(f, Get(ps[j].families, name))
  }

  lemma CombinedStep(ps: seq<ParsedSession>, name: string, k: nat)
    requires k < |ps|
    requires Kept(ps, name, k, Combined(ps[..k], name)) && FirstHeaders(ps, name, k, Combined(ps[..k], name))
    requires Having(ps[..k], name) == [] <==> forall j | 0 <= j < k :: !Declares(ps[j].families, name)
    ensures Kept(ps, name, k + 1, Combined(ps[..k + 1], name)) && FirstHeaders(ps, name, k + 1, Combined(ps[..k + 1], name))
    ensures Having(ps[..k + 1], name) == [] <==> forall j | 0 <= j < k + 1 :: !Declares(ps[j].families, name)
  {
    CombinedOneMore(ps, name, k);
    HavingOneMore(ps, name, k);
    var before, after := Combined(ps[..k], name), Combined(ps[..k + 1], name);
    if !Declares(ps[k].families, name) {
      UndeclaredHasNone(ps[k].families, name);
      NoneLabelled(before.samples, ps[k].sessionId);
    }
    hide Combined, Having, Get, Declares, Kept, Labelled;
    SamplesStep(ps, name, k, before, after);
  }

  lemma NoneLabelled(samples: seq<string>, id: string)
    ensures samples + Labelled([], id) == samples
  {
  }

  lemma {:induction false} CombinedKeeps(ps: seq<ParsedSession>, name: string, k: nat)
    requires k <= |ps|
    ensures Kept(ps, name, k, Combined(ps[..k], name)) && FirstHeaders(ps, name, k, Combined(ps[..k], name))
    ensures Having(ps[..k], name) == [] <==> forall j | 0 <= j < k :: !Declares(ps[j].families, name)
  {
    if k == 0 {
      NothingCombined(name);
      assert ps[..0] == [];
    } else {
      CombinedKeeps(ps, name, k - 1);
      CombinedStep(ps, name, k - 1);
    }
  }

  /**
   * The merge, family by family. First come the server's families as they are;
   * then one family per session-only name. It holds every sample of every
   * session exactly once, labelled with its session, in the order of sessions
   * and then of samples, under the headers of the first session that has it.
   */
  lemma MergeKeepsSamples(serverText: string, sessions: seq<Exposition>, n: nat)
    requires n < |Merged(serverText, sessions)|
    ensures var owned, ps, all := Parse(serverText), ParseAll(sessions), Merged(serverText, sessions);
      if n < |owned| then all[n] == owned[n]
      else
        var name, f := all[n].name, all[n].family;
        && Find(owned, name).None?
        && |f.samples| == Together(ps, name)
        && (forall j, i | 0 <= j < |ps| && 0 <= i < |Get(ps[j].families, name).samples| :: InPlace(ps, name, f.samples, j, i))
        && (exists j :: 0 <= j < |ps| && FirstToDeclare(ps, name, j) && SameHeaders(f, Get(ps[j].families, name)))
  {
    var owned, ps := Parse(serverText), ParseAll(sessions);
    if n >= |owned| {
      var names := SessionOnly(owned, ps);
      var name := names[n - |owned|];
      SessionOnlyNames(owned, ps);
      assert name in names;
      CombinedKeeps(ps, name, |ps|);
      assert ps[..|ps|] == ps;
      var j := FirstOf(ps, name, |ps|);
      hide Parse, ParseAll, Combined, Having, Get, InPlace, SessionOnly, Together;
      assert Merged(serverText, sessions)[n] == Entry(name, Combined(ps, name));
    }
  }

  lemma FirstOf(ps: seq<ParsedSession>, name: string, k: nat) returns (j: nat)
    requires k <= |ps| && exists i :: 0 <= i < k && Declares(ps[i].families, name)
    ensures j < k && FirstToDeclare(ps, name, j)
  {
    hide Declares;
    j := 0;
    while !Declares(ps[j].families, name)
      invariant j < k && forall i | 0 <= i < j :: !Declares(ps[i].families, name)
      decreases k - j
    {
      j := j + 1;
    }
  }

  /** And every name some session declares and the server does not has its family. */
  lemma MergeKeepsNames(serverText: string, sessions: seq<Exposition>, j: nat, name: string)
    requires j < |sessions| && Declares(Parse(sessions[j].text), name)
    ensures Find(Merged(serverText, sessions), name).Some?
  {
    var owned, ps, all := Parse(serverText), ParseAll(sessions), Merged(serverText, sessions);
    SessionOnlyNames(owned, ps);
    CombinedKeeps(ps, name, |ps|);
    assert ps[..|ps|] == ps && Declares(ps[j].families, name);
    hide Parse, ParseAll, SessionOnly, Having, Combined, Kept, FirstHeaders;
    if Find(owned, name).Some? {
      assert all[Find(owned, name).value].name == name;
    } else {
      var names := SessionOnly(owned, ps);
      assert name in names;
      var i :| 0 <= i < |names| && names[i] == name;
      assert all[|owned| + i].name == name;
    }
  }

  // ---------------------------------------------------------------------
  // The line a labelled sample becomes
  // ---------------------------------------------------------------------

  lemma {:induction false} NothingReplaced(s: string, c: char, r: string)
    requires c !in s
    ensures ReplaceAll(s, c, r) == s
  {
    if s != "" {
      NothingReplaced(s[1..], c, r);
      assert s == [s[0]] + s[1..];
    }
  }

  /** The ids the broker mints need no escaping. */
  lemma PlainIdIsItself(id: string)
    requires '\\' !in id && '"' !in id && '\n' !in id
    ensures Escape(id) == id
  {
    NothingReplaced(id, '\\', "\\\\");
    NothingReplaced(id, '"', "\\\"");
    NothingReplaced(id, '\n', "\\n");
  }

  lemma LineParts(name: string, labels: string, value: string)
    requires '{' !in name && '}' !in labels
    ensures var line := name + "{" + labels + "}" + value;
      var brace, close := |name|, |name| + 1 + |labels|;
      && IndexOf(line, '{') == brace && IndexOf(line[brace..], '}') == close - brace
      && line[..brace + 1] == name + "{" && line[brace + 1..close] == labels && line[close..] == "}" + value
      && close < |line|
  {
    hide IndexOf;
    var line := name + "{" + labels + "}" + value;
    IndexOfIs(line, '{', |name|);
    assert line[|name|..] == "{" + labels + "}" + value;
    IndexOfIs(line[|name|..], '}', 1 + |labels|);
  }

  lemma AfterJoins(name: string, labels: string, value: string)
    requires '{' !in name && '}' !in labels
    ensures var line := name + "{" + labels + "}" + value;
      && |name| < |line| && line[|name|] == '{'
      && AfterLabel(line, |name|) == (if labels == "" then "" else ",") + labels + ("}" + value)
  {
    LineParts(name, labels, value);
    hide IndexOf;
    var line := name + "{" + labels + "}" + value;
    assert ClosePosition(line, |name|) == |name| + 1 + |labels|;
  }

  /** A sample with labels gets the session first among them. */
  lemma LabelJoins(name: string, labels: string, value: string, id: string)
    requires '{' !in name && '}' !in labels
    ensures InjectSessionLabel(name + "{" + labels + "}" + value, id)
         == name + "{session=\"" + Escape(id) + "\"" + (if labels == "" then "" else ",") + labels + "}" + value
  {
    LineParts(name, labels, value);
    AfterJoins(name, labels, value);
    hide Escape, IndexOf, AfterLabel;
    var esc, sep := Escape(id), if labels == "" then "" else ",";
    Reassociated(name, esc, sep, labels, value);
  }

  lemma Reassociated(name: string, esc: string, sep: string, labels: string, value: string)
    ensures name + "{" + ("session=\"" + esc + "\"" + (sep + labels + ("}" + value)))
         == name + "{session=\"" + esc + "\"" + sep + labels + "}" + value
  {
    assert "{" + "session=\"" == "{session=\"";
  }

  /** A sample without labels gets them. */
  lemma LabelStarts(name: string, value: string, id: string)
    requires '{' !in name && '{' !in value && ' ' !in name
    ensures InjectSessionLabel(name + " " + value, id) == name + "{session=\"" + Escape(id) + "\"} " + value
  {
    hide Escape, IndexOf;
    var line := name + " " + value;
    IndexOfIs(line, ' ', |name|);
    IndexOfIs(line, '{', |line|);
    assert line[..|name|] == name && line[|name|..] == " " + value;
  }

  // ---------------------------------------------------------------------
  // The order of the families
  // ---------------------------------------------------------------------

  /** All family names, session by session. */
  function AllNames(ps: seq<ParsedSession>): seq<string> {
    if ps == [] then [] else AllNames(ps[..|ps| - 1]) + NamesOf(ps[|ps| - 1].families)
  }

  function NamesOf(fs: seq<Entry>): seq<string> {
    seq(|fs|, i requires 0 <= i < |fs| => fs[i].name)
  }

  /** `a` turns up before `b` ever does. */
  predicate Precedes(all: seq<string>, a: string, b: string) {
    exists q :: 0 <= q < |all| && all[q] == a && b !in all[..q + 1]
  }

  predicate ByAppearance(order: seq<string>, owned: seq<Entry>, all: seq<string>) {
    && (forall i, k | 0 <= i < k < |order| :: Precedes(all, order[i], order[k]))
    && (forall n <- all | !Declares(owned, n) :: n in order)
    && (forall i | 0 <= i < |order| :: order[i] in all)
  }

  lemma PrecedesLater(all: seq<string>, x: string, a: string, b: string)
    ensures Precedes(all, a, b) ==> Precedes(all + [x], a, b)
    ensures a in all && b !in all ==> Precedes(all + [x], a, b)
  {
    if Precedes(all, a, b) {
      var q :| 0 <= q < |all| && all[q] == a && b !in all[..q + 1];
      assert (all + [x])[..q + 1] == all[..q + 1] && (all + [x])[q] == a;
    }
    if a in all && b !in all {
      var q :| 0 <= q < |all| && all[q] == a;
      assert (all + [x])[..q + 1] == all[..q + 1] && (all + [x])[q] == a;
    }
  }

  lemma ByAppearanceStep(order: seq<string>, owned: seq<Entry>, all: seq<string>, x: string)
    requires ByAppearance(order, owned, all)
    ensures ByAppearance(if Declares(owned, x) || x in order then order else order + [x], owned, all + [x])
  {
    hide Precedes, Declares;
    var after := if Declares(owned, x) || x in order then order else order + [x];
    forall i, k | 0 <= i < k < |after| ensures Precedes(all + [x], after[i], after[k]) {
      PrecedesLater(all, x, after[i], after[k]);
      if k < |order| {
        assert Precedes(all, order[i], order[k]);
      }
    }
  }

  lemma {:induction false} AddNamesByAppearance(order: seq<string>, owned: seq<Entry>, fs: seq<Entry>, all: seq<string>)
    requires ByAppearance(order, owned, all)
    ensures ByAppearance(AddNames(order, owned, fs), owned, all + NamesOf(fs))
  {
    hide ByAppearance;
    if fs == [] {
      assert all + NamesOf(fs) == all;
    } else {
      var k := |fs| - 1;
      AddNamesByAppearance(order, owned, fs[..k], all);
      ByAppearanceStep(AddNames(order, owned, fs[..k]), owned, all + NamesOf(fs[..k]), fs[k].name);
      assert all + NamesOf(fs) == all + NamesOf(fs[..k]) + [fs[k].name];
    }
  }

  lemma {:induction false} SessionOnlyByAppearance(owned: seq<Entry>, ps: seq<ParsedSession>)
    ensures ByAppearance(SessionOnly(owned, ps), owned, AllNames(ps))
  {
    if ps != [] {
      hide ByAppearance, AddNames;
      var k := |ps| - 1;
      SessionOnlyByAppearance(owned, ps[..k]);
      AddNamesByAppearance(SessionOnly(owned, ps[..k]), owned, ps[k].families, AllNames(ps[..k]));
    }
  }

  /** The session-only families come in the order in which the sessions first name them. */
  lemma MergeKeepsOrder(serverText: string, sessions: seq<Exposition>, a: nat, b: nat)
    requires |Parse(serverText)| <= a < b < |Merged(serverText, sessions)|
    ensures var all := Merged(serverText, sessions); Precedes(AllNames(ParseAll(sessions)), all[a].name, all[b].name)
  {
    var owned, ps := Parse(serverText), ParseAll(sessions);
    SessionOnlyByAppearance(owned, ps);
    hide Parse, Precedes, SessionOnly, AllNames, Combined;
    var names := SessionOnly(owned, ps);
    assert Precedes(AllNames(ps), names[a - |owned|], names[b - |owned|]);
  }
}
