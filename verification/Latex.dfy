/** LaTeX templates: marked regions are found, checked and replaced; plain text is escaped. */
module Latex {
  import opened Wrappers

  datatype Error = ControlCharacter | MarkersInvalid(name: string) | Misordered(name: string) | Overlap | ScopeInvalid

  // ---------------------------------------------------------------- escaping

  /** What one character of plain text becomes. */
  function Code(c: char): string {
    match c
    case '\\' => "\\textbackslash{}"
    case '{' => "\\{"
    case '}' => "\\}"
    case '#' => "\\#"
    case '$' => "\\$"
    case '%' => "\\%"
    case '&' => "\\&"
    case '_' => "\\_"
    case '~' => "\\textasciitilde{}"
    case '^' => "\\textasciicircum{}"
    case _ => [c]
  }

  function Escaped(s: string): string {
    if |s| == 0 then "" else Code(s[0]) + Escaped(s[1..])
  }

  predicate Control(c: char) {
    c < 32 as char && c != '\n' && c != '\t'
  }

  function LatexEscape(s: string): Result<string, Error> {
    if exists c :: c in s && Control(c) then Failure(ControlCharacter) else Success(Escaped(s))
  }

  predicate StartsWith(s: string, p: string) {
    |p| <= |s| && s[..|p|] == p
  }

  const WORDS: seq<(string, char)> :=
    [("\\textbackslash{}", '\\'), ("\\textasciitilde{}", '~'), ("\\textasciicircum{}", '^')]

  /**
   The first plain character of an escaped text, and how much text stands for it.  A character that TeX
   would act upon stands for nothing.
   */
  function FirstPlain(s: string): (r: Option<(char, nat)>)
    ensures r.Some? ==> 0 < r.value.1 <= |s|
  {
    if |s| == 0 then None
    else if s[0] in "{}#$%&_~^" then None
    else if s[0] != '\\' then Some((s[0], 1))
    else if |s| > 1 && s[1] in "{}#$%&_" then Some((s[1], 2))
    else if StartsWith(s, WORDS[0].0) then Some((WORDS[0].1, |WORDS[0].0|))
    else if StartsWith(s, WORDS[1].0) then Some((WORDS[1].1, |WORDS[1].0|))
    else if StartsWith(s, WORDS[2].0) then Some((WORDS[2].1, |WORDS[2].0|))
    else None
  }

  /** The plain text that an escaped text stands for. */
  function Plain(s: string): Option<string>
    decreases |s|
  {
    if |s| == 0 then Some("") else
    var first := FirstPlain(s);
    if first.None? then None else
    var rest := Plain(s[first.value.1..]);
    if rest.None? then None else Some([first.value.0] + rest.value)
  }

  lemma CodeIsReadable(c: char, rest: string)
    ensures FirstPlain(Code(c) + rest) == Some((c, |Code(c)|))
  {
    var s := Code(c) + rest;
    assert s[0] == Code(c)[0];
    if |Code(c)| > 1 {
      assert s[1] == Code(c)[1];
      assert s[..|Code(c)|] == Code(c);
      if |Code(c)| > 2 {
        TellApart(c, s);
      }
    }
  }

  /** The three spelled-out codes differ at their sixth or eleventh character. */
  lemma TellApart(c: char, s: string)
    requires |Code(c)| > 2 && |Code(c)| <= |s| && s[..|Code(c)|] == Code(c)
    ensures FirstPlain(s) == Some((c, |Code(c)|))
  {
    var code := Code(c);
    assert s[1] == code[1] == 't' && s[5] == code[5] && s[10] == code[10];
    assert code == WORDS[0].0 || code == WORDS[1].0 || code == WORDS[2].0;
    assert WORDS[0].0[5] == 'b' && WORDS[1].0[5] == 'a' && WORDS[2].0[5] == 'a';
    assert WORDS[1].0[10] == 't' && WORDS[2].0[10] == 'c';
    assert StartsWith(s, WORDS[0].0) ==> s[5] == s[..|WORDS[0].0|][5];
    assert StartsWith(s, WORDS[1].0) ==> s[10] == s[..|WORDS[1].0|][10];
    assert StartsWith(s, code);
  }

  /** Escaping loses nothing: the plain text can be read back. */
  lemma {:induction false} EscapeIsReadable(s: string)
    ensures Plain(Escaped(s)) == Some(s)
  {
    if |s| > 0 {
      var c, rest := s[0], Escaped(s[1..]);
      EscapeIsReadable(s[1..]);
      CodeIsReadable(c, rest);
      assert Escaped(s)[|Code(c)|..] == rest;
      assert s == [c] + s[1..];
    }
  }

  /** So escaping is injective on the text that it accepts. */
  lemma EscapeIsInjective(a: string, b: string)
    requires LatexEscape(a).Success? && LatexEscape(a) == LatexEscape(b)
    ensures a == b
  {
    EscapeIsReadable(a);
    EscapeIsReadable(b);
  }

  /** Text is refused exactly for a control character other than a line feed or a tab. */
  lemma EscapeRefuses(s: string)
    ensures LatexEscape(s).Failure? <==>
      exists i :: 0 <= i < |s| && s[i] as int < 32 && s[i] as int != 9 && s[i] as int != 10
  {
    if i :| 0 <= i < |s| && s[i] as int < 32 && s[i] as int != 9 && s[i] as int != 10 {
      assert s[i] in s && Control(s[i]);
    }
  }

  // ---------------------------------------------------------------- finding markers

  predicate OccursAt(s: string, m: string, i: nat) {
    i + |m| <= |s| && s[i..i + |m|] == m
  }

  /** The first occurrence at or after `from`. */
  function Find(s: string, m: string, from: nat): (i: Option<nat>)
    ensures i.Some? ==> from <= i.value && OccursAt(s, m, i.value) && forall k :: from <= k < i.value ==>
      !OccursAt(s, m, k)
    ensures i.None? ==> forall k :: from <= k ==> !OccursAt(s, m, k)
    decreases |s| - from
  {
    if from + |m| > |s| then None
    else if s[from..from + |m|] == m then Some(from)
    else if from >= |s| then None
    else Find(s, m, from + 1)
  }

  /** `str.count`: occurrences that do not overlap, from the left. */
  function Count(s: string, m: string, from: nat): nat
    requires |m| > 0
    decreases |s| - from
  {
    var i := Find(s, m, from);
    if i.None? then 0 else 1 + Count(s, m, i.value + |m|)
  }

  datatype Region = Region(name: string, start: nat, contentStart: nat, contentEnd: nat, end: nat)

  function StartMarker(name: string): string {
    "% JHM:" + name + ":START"
  }

  function EndMarker(name: string): string {
    "% JHM:" + name + ":END"
  }

  /** The region of one name: both markers occur once, and the end follows the start. */
  function RegionOf(source: string, name: string): Result<Region, Error> {
    if Count(source, StartMarker(name), 0) != 1 || Count(source, EndMarker(name), 0) != 1
      then Failure(MarkersInvalid(name)) else
    var start, end := Find(source, StartMarker(name), 0).value, Find(source, EndMarker(name), 0).value;
    var contentStart := start + |StartMarker(name)|;
    if end <= contentStart then Failure(Misordered(name))
    else Success(Region(name, start, contentStart, end, end + |EndMarker(name)|))
  }

  /** The marker is at `i`, and wherever else it seems to be it overlaps that place. */
  ghost predicate OnceAt(s: string, m: string, i: nat) {
    OccursAt(s, m, i) && forall k: nat :: OccursAt(s, m, k) ==> i <= k < i + |m|
  }

  lemma CountOnce(s: string, m: string)
    requires |m| > 0
    ensures Count(s, m, 0) == 1 <==> Find(s, m, 0).Some? && OnceAt(s, m, Find(s, m, 0).value)
  {
    var i := Find(s, m, 0);
    if i.Some? {
      var again := Find(s, m, i.value + |m|);
      assert Count(s, m, 0) == 1 + Count(s, m, i.value + |m|);
      assert Count(s, m, i.value + |m|) == 0 <==> again.None?;
      if again.Some? {
        assert OccursAt(s, m, again.value);
      }
    }
  }

  lemma OnceIsFound(s: string, m: string, i: nat)
    requires |m| > 0 && OnceAt(s, m, i)
    ensures Find(s, m, 0) == Some(i)
  {
  }

  /** A region is found exactly if each of its two markers occurs once and some content lies between them. */
  lemma RegionIff(source: string, name: string, start: nat, end: nat)
    requires OnceAt(source, "% JHM:" + name + ":START", start) && OnceAt(source, "% JHM:" + name + ":END", end)
    ensures var r, first := RegionOf(source, name), "% JHM:" + name + ":START";
      if start + |first| < end
      then r == Success(Region(name, start, start + |first|, end, end + |"% JHM:" + name + ":END"|))
      else r == Failure(Misordered(name))
  {
    OnceIsFound(source, StartMarker(name), start);
    OnceIsFound(source, EndMarker(name), end);
    CountOnce(source, StartMarker(name));
    CountOnce(source, EndMarker(name));
  }

  /** A marker that is missing or repeated is an error. */
  lemma MarkersInvalidIff(source: string, name: string)
    ensures RegionOf(source, name) == Failure(MarkersInvalid(name)) <==>
      !((exists i :: OnceAt(source, "% JHM:" + name + ":START", i))
        && exists i :: OnceAt(source, "% JHM:" + name + ":END", i))
  {
    var first, last := "% JHM:" + name + ":START", "% JHM:" + name + ":END";
    CountOnce(source, first);
    CountOnce(source, last);
    if i :| OnceAt(source, first, i) {
      OnceIsFound(source, first, i);
    }
    if i :| OnceAt(source, last, i) {
      OnceIsFound(source, last, i);
    }
    hide OnceAt;
  }

  predicate WellFormed(source: string, r: Region) {
    && r.start < r.contentStart < r.contentEnd < r.end <= |source|
    && OccursAt(source, StartMarker(r.name), r.start) && r.contentStart == r.start + |StartMarker(r.name)|
    && OccursAt(source, EndMarker(r.name), r.contentEnd) && r.end == r.contentEnd + |EndMarker(r.name)|
  }

  lemma RegionIsWellFormed(source: string, name: string)
    ensures RegionOf(source, name).Success? ==>
      WellFormed(source, RegionOf(source, name).value) && RegionOf(source, name).value.name == name
  {
  }

  // ---------------------------------------------------------------- order and overlap

  predicate Sorted(rs: seq<Region>) {
    forall i, j :: 0 <= i < j < |rs| ==> rs[i].start <= rs[j].start
  }

  function Insert(r: Region, rs: seq<Region>): (out: seq<Region>)
    ensures multiset(out) == multiset(rs) + multiset{r}
  {
    if |rs| == 0 || r.start <= rs[0].start then [r] + rs
    else
      assert rs == [rs[0]] + rs[1..];
      [rs[0]] + Insert(r, rs[1..])
  }

  /** `sorted(…, key=start)`. */
  function SortByStart(rs: seq<Region>): (out: seq<Region>)
    ensures multiset(out) == multiset(rs)
  {
    if |rs| == 0 then []
    else
      assert rs == [rs[0]] + rs[1..];
      Insert(rs[0], SortByStart(rs[1..]))
  }

  lemma {:induction false} InsertSorts(r: Region, rs: seq<Region>)
    requires Sorted(rs)
    ensures Sorted(Insert(r, rs))
  {
    if |rs| > 0 && r.start > rs[0].start {
      InsertSorts(r, rs[1..]);
      var tail := Insert(r, rs[1..]);
      forall x | x in tail ensures rs[0].start <= x.start {
        assert x in multiset(tail);
      }
    }
  }

  lemma {:induction false} SortSorts(rs: seq<Region>)
    ensures Sorted(SortByStart(rs))
  {
    if |rs| > 0 {
      SortSorts(rs[1..]);
      InsertSorts(rs[0], SortByStart(rs[1..]));
    }
  }

  predicate AdjacentDisjoint(rs: seq<Region>) {
    forall i :: 0 <= i < |rs| - 1 ==> rs[i].end <= rs[i + 1].start
  }

  predicate Disjoint(rs: seq<Region>) {
    forall i, j :: 0 <= i < j < |rs| ==> rs[i].end <= rs[j].start
  }

  /** Testing neighbours is enough: no two regions overlap. */
  lemma {:induction false} AdjacentMeansDisjoint(rs: seq<Region>)
    requires AdjacentDisjoint(rs) && forall i :: 0 <= i < |rs| ==> rs[i].start <= rs[i].end
    ensures Disjoint(rs)
  {
    if |rs| > 1 {
      var n := |rs| - 1;
      AdjacentMeansDisjoint(rs[..n]);
      forall i | 0 <= i < n ensures rs[i].end <= rs[n].start {
        assert rs[n - 1].end <= rs[n].start;
        if i < n - 1 {
          assert rs[..n][i].end <= rs[..n][n - 1].start;
        }
      }
      forall i, j | 0 <= i < j < n ensures rs[i].end <= rs[j].start {
        assert rs[..n][i].end <= rs[..n][j].start;
      }
    }
  }

  // ---------------------------------------------------------------- substituting

  function TrimLeft(s: string): string {
    if |s| > 0 && s[0] == '\n' then TrimLeft(s[1..]) else s
  }

  function TrimRight(s: string): string {
    if |s| > 0 && s[|s| - 1] == '\n' then TrimRight(s[..|s| - 1]) else s
  }

  function ContentOf(replacement: string): string {
    "\n" + TrimRight(TrimLeft(replacement)) + "\n"
  }

  predicate OnlyNewlines(s: string) {
    forall i :: 0 <= i < |s| ==> s[i] == '\n'
  }

  /** `core` is the text without the newlines around it. */
  predicate Trimmed(text: string, before: string, core: string, after: string) {
    && text == before + core + after && OnlyNewlines(before) && OnlyNewlines(after)
    && (core != "" ==> core[0] != '\n' && core[|core| - 1] != '\n')
  }

  lemma {:induction false} TrimLeftMeans(s: string) returns (before: string)
    ensures s == before + TrimLeft(s) && OnlyNewlines(before)
    ensures TrimLeft(s) != "" ==> TrimLeft(s)[0] != '\n'
  {
    if |s| > 0 && s[0] == '\n' {
      var rest := TrimLeftMeans(s[1..]);
      before := "\n" + rest;
      assert s == [s[0]] + s[1..];
    } else {
      before := "";
    }
  }

  lemma {:induction false} TrimRightMeans(s: string) returns (after: string)
    ensures s == TrimRight(s) + after && OnlyNewlines(after)
    ensures TrimRight(s) != "" ==> TrimRight(s)[|TrimRight(s)| - 1] != '\n'
  {
    if |s| > 0 && s[|s| - 1] == '\n' {
      var rest := TrimRightMeans(s[..|s| - 1]);
      after := rest + "\n";
      assert s == s[..|s| - 1] + [s[|s| - 1]];
    } else {
      after := "";
    }
  }

  /** The content is the replacement on lines of its own: its outer newlines become one on each side. */
  lemma ContentMeans(replacement: string)
    ensures exists before, core, after ::
      Trimmed(replacement, before, core, after) && ContentOf(replacement) == "\n" + core + "\n"
  {
    var before := TrimLeftMeans(replacement);
    var after := TrimRightMeans(TrimLeft(replacement));
    var core := TrimRight(TrimLeft(replacement));
    assert TrimLeft(replacement) == core + after;
    assert core != "" ==> TrimLeft(replacement)[0] == core[0];
    assert Trimmed(replacement, before, core, after);
  }

  function ContentsOf(replacements: map<string, string>): map<string, string> {
    map name | name in replacements :: ContentOf(replacements[name])
  }

  predicate Fits(source: string, rs: seq<Region>, from: nat) {
    && from <= |source|
    && (forall i :: 0 <= i < |rs| ==> from <= rs[i].contentStart <= rs[i].contentEnd <= |source|)
    && (forall i, j :: 0 <= i < j < |rs| ==> rs[i].contentEnd <= rs[j].contentStart)
  }

  /** All regions replaced at once, reading the source from left to right. */
  function Substituted(source: string, rs: seq<Region>, contents: map<string, string>, from: nat): string
    requires Fits(source, rs, from) && forall i :: 0 <= i < |rs| ==> rs[i].name in contents
    decreases |rs|
  {
    if |rs| == 0 then source[from..]
    else
      source[from..rs[0].contentStart] + contents[rs[0].name]
      + Substituted(source, rs[1..], contents, rs[0].contentEnd)
  }

  /** The text before the first region is copied. */
  lemma SubstitutedFrom(source: string, rs: seq<Region>, contents: map<string, string>, from: nat, p: nat)
    requires Fits(source, rs, from) && Fits(source, rs, p) && from <= p && forall i :: 0 <= i < |rs| ==>
      rs[i].name in contents
    ensures Substituted(source, rs, contents, from) == source[from..p] + Substituted(source, rs, contents, p)
  {
    if |rs| > 0 {
      assert source[from..rs[0].contentStart] == source[from..p] + source[p..rs[0].contentStart];
    }
  }

  /** One in-place replacement, when everything to its right has been replaced already. */
  lemma ReplaceOne(source: string, rs: seq<Region>, contents: map<string, string>, k: nat)
    requires k < |rs| && Fits(source, rs, 0) && forall i :: 0 <= i < |rs| ==> rs[i].name in contents
    ensures var done := Substituted(source, rs[k + 1..], contents, 0);
      && rs[k].contentEnd <= |done|
      && Substituted(source, rs[k..], contents, 0)
         == done[..rs[k].contentStart] + contents[rs[k].name] + done[rs[k].contentEnd..]
  {
    var r, rest := rs[k], rs[k + 1..];
    SubstitutedFrom(source, rest, contents, 0, r.contentEnd);
    var done := Substituted(source, rest, contents, 0);
    assert done == source[..r.contentEnd] + Substituted(source, rest, contents, r.contentEnd);
    assert rs[k..][0] == r && rs[k..][1..] == rest;
  }

  // ---------------------------------------------------------------- what is preserved

  predicate Outside(rs: seq<Region>, i: nat) {
    forall k :: 0 <= k < |rs| ==> i < rs[k].contentStart || i >= rs[k].contentEnd
  }

  /** Where a character of the source ends up, relative to the copy that began at `from`. */
  function Place(rs: seq<Region>, contents: map<string, string>, from: nat, i: nat): int
    requires forall k :: 0 <= k < |rs| ==> rs[k].name in contents
    decreases |rs|
  {
    if |rs| == 0 || i < rs[0].contentStart then i - from
    else rs[0].contentStart - from + |contents[rs[0].name]| + Place(rs[1..], contents, rs[0].contentEnd, i)
  }

  /** Every character outside the contents is kept. */
  lemma {:induction false} OutsideIsKept(source: string, rs: seq<Region>, contents: map<string, string>, from: nat,
      i: nat)
    requires Fits(source, rs, from) && forall k :: 0 <= k < |rs| ==> rs[k].name in contents
    requires from <= i < |source| && Outside(rs, i)
    ensures var p, out := Place(rs, contents, from, i), Substituted(source, rs, contents, from);
      0 <= p < |out| && out[p] == source[i]
    decreases |rs|
  {
    if |rs| > 0 && i >= rs[0].contentStart {
      var rest := rs[1..];
      forall k | 0 <= k < |rest| ensures i < rest[k].contentStart || i >= rest[k].contentEnd {
        assert rest[k] == rs[k + 1];
      }
      OutsideIsKept(source, rest, contents, rs[0].contentEnd, i);
    }
  }

  /** Where the content of region `k` begins. */
  function ContentPlace(rs: seq<Region>, contents: map<string, string>, from: nat, k: nat): int
    requires k < |rs| && forall i :: 0 <= i < |rs| ==> rs[i].name in contents
    decreases |rs|
  {
    rs[0].contentStart - from
    + if k == 0 then 0 else |contents[rs[0].name]| + ContentPlace(rs[1..], contents, rs[0].contentEnd, k - 1)
  }

  /** The content of every region is there in full, right after the text that precedes it. */
  lemma {:induction false} ContentIsThere(source: string, rs: seq<Region>, contents: map<string, string>, from: nat,
      k: nat)
    requires Fits(source, rs, from) && (forall i :: 0 <= i < |rs| ==> rs[i].name in contents) && k < |rs|
    ensures var p, out, content := ContentPlace(rs, contents, from, k), Substituted(source, rs, contents, from),
        contents[rs[k].name];
      0 <= p <= p + |content| <= |out| && out[p..p + |content|] == content
    decreases |rs|
  {
    var head := source[from..rs[0].contentStart] + contents[rs[0].name];
    var tail := Substituted(source, rs[1..], contents, rs[0].contentEnd);
    assert Substituted(source, rs, contents, from) == head + tail;
    if k == 0 {
      assert (head + tail)[|head| - |contents[rs[0].name]|..|head|] == contents[rs[0].name];
    } else {
      ContentIsThere(source, rs[1..], contents, rs[0].contentEnd, k - 1);
      var q, content := ContentPlace(rs[1..], contents, rs[0].contentEnd, k - 1), contents[rs[k].name];
      assert (head + tail)[|head| + q..|head| + q + |content|] == tail[q..q + |content|];
    }
  }

  /** The kept characters stay in order. */
  lemma {:induction false} OrderIsKept(source: string, rs: seq<Region>, contents: map<string, string>, from: nat,
      i: nat, j: nat)
    requires Fits(source, rs, from) && forall k :: 0 <= k < |rs| ==> rs[k].name in contents
    requires from <= i < j < |source| && Outside(rs, i) && Outside(rs, j)
    ensures Place(rs, contents, from, i) < Place(rs, contents, from, j)
    decreases |rs|
  {
    if |rs| > 0 && j >= rs[0].contentStart {
      var rest := rs[1..];
      forall k | 0 <= k < |rest| ensures rest[k] == rs[k + 1] {
      }
      if i >= rs[0].contentStart {
        OrderIsKept(source, rest, contents, rs[0].contentEnd, i, j);
      } else {
        OutsideIsKept(source, rest, contents, rs[0].contentEnd, j);
      }
    }
  }

  // ---------------------------------------------------------------- the template as it runs

  /** `found` holds exactly the regions of these names, one each. */
  ghost predicate RegionsOf(source: string, names: set<string>, found: seq<Region>) {
    && (forall r :: r in found ==> r.name in names && RegionOf(source, r.name) == Success(r))
    && (forall name :: name in names ==> Named(found, name))
    && (forall i, j :: 0 <= i < j < |found| ==> found[i].name != found[j].name)
  }

  ghost predicate Named(found: seq<Region>, name: string) {
    exists r :: r in found && r.name == name
  }

  lemma OneMoreRegion(source: string, names: set<string>, found: seq<Region>, r: Region)
    requires RegionsOf(source, names, found) && RegionOf(source, r.name) == Success(r) && r.name !in names
    ensures RegionsOf(source, names + {r.name}, found + [r])
  {
    hide RegionOf;
    var more := found + [r];
    assert r in more;
    forall name | name in names + {r.name} ensures Named(more, name) {
      if name in names {
        var q :| q in found && q.name == name;
        assert q in more;
      }
    }
    forall i | 0 <= i < |found| ensures found[i].name != r.name {
      assert found[i] in found;
    }
  }

  /** Two different names whose regions overlap. */
  ghost predicate Overlapping(source: string, a: string, b: string) {
    && a != b && RegionOf(source, a).Success? && RegionOf(source, b).Success?
    && RegionOf(source, a).value.start <= RegionOf(source, b).value.start < RegionOf(source, a).value.end
  }

  ghost predicate SomeOverlap(source: string, names: set<string>) {
    exists a, b :: a in names && b in names && Overlapping(source, a, b)
  }

  class LatexTemplate {
    const source: string
    const required: seq<string>
    var regions: seq<Region>    // in the order of their starts

    ghost predicate Valid()
      reads this
    {
      && Disjoint(regions) && (forall i :: 0 <= i < |regions| ==> WellFormed(source, regions[i]))
      && RegionsOf(source, Names(), regions)
    }

    function Names(): set<string> {
      set i | 0 <= i < |required| :: required[i]
    }

    constructor (source: string, required: seq<string>)
      ensures this.source == source && this.required == required && regions == []
    {
      this.source, this.required, regions := source, required, [];
    }

    /** The first half of `_regions`: one region per required name. */
    method Collect() returns (r: Result<seq<Region>, Error>)
      ensures r.Success? ==> RegionsOf(source, Names(), r.value)
      ensures r.Failure? ==>
        !r.error.Overlap? && exists name :: name in required && RegionOf(source, name) == Failure(r.error)
    {
      hide RegionOf, RegionsOf;
      var found: seq<Region> := [];
      var seen: set<string> := {};
      NoRegions(source);
      for i := 0 to |required|
        invariant seen == set k | 0 <= k < i :: required[k]
        invariant RegionsOf(source, seen, found)
      {
        var name := required[i];
        var one := RegionOf(source, name);
        if one.Failure? {
          NoOverlapYet(source, name);
          return Failure(one.error);
        }
        if name !in seen {
          RegionIsWellFormed(source, name);
          OneMoreRegion(source, seen, found, one.value);
          found, seen := found + [one.value], seen + {name};
        }
      }
      return Success(found);
    }

    /** `_regions`: the regions sorted by their starts, refused if and only if two of them overlap. */
    method FindRegions() returns (r: Result<(), Error>)
      modifies this
      ensures r.Success? ==> Valid()
      ensures r.Failure? && !r.error.Overlap? ==>
        exists name :: name in required && RegionOf(source, name) == Failure(r.error)
      ensures (forall name :: name in Names() ==> RegionOf(source, name).Success?) ==>
        (r == Failure(Overlap) <==> SomeOverlap(source, Names()))
      ensures r == Failure(Overlap) ==> SomeOverlap(source, Names())
    {
      hide RegionOf, Sorted, SortByStart, RegionsOf, WellFormed;
      var found :- Collect();
      var ordered := SortByStart(found);
      SortKeepsMembers(found);
      SortedRegions(source, Names(), found, ordered);
      for i := 0 to |ordered|
        invariant AdjacentDisjoint(ordered[..i])
      {
        if i > 0 && ordered[i - 1].end > ordered[i].start {
          NeighboursOverlap(source, Names(), ordered, i - 1);
          return Failure(Overlap);
        }
      }
      regions := ordered;
      assert ordered[..|ordered|] == ordered;
      AllWellFormed(source, Names(), ordered);
      AdjacentMeansDisjoint(ordered);
      DisjointMeansNoOverlap(source, Names(), ordered);
      return Success(());
    }

    /** `render`: the regions are replaced one after the other from the back, which replaces all of them at once. */
    method Render(replacements: map<string, string>) returns (r: Result<string, Error>)
      requires Valid()
      ensures r.Success? <==> replacements.Keys == Names()
      ensures r.Success? ==>
        var contents := ContentsOf(replacements);
        && Fits(source, regions, 0) && (forall i :: 0 <= i < |regions| ==> regions[i].name in contents)
        && r.value == Substituted(source, regions, contents, 0)
    {
      if replacements.Keys != Names() {
        return Failure(ScopeInvalid);
      }
      ghost var contents := ContentsOf(replacements);
      RegionsFit(source, Names(), regions);
      hide RegionsOf, Disjoint, WellFormed, Fits, Substituted, RegionOf;
      var rendered := source;
      NothingToReplace(source, contents);
      assert regions[|regions|..] == [];
      for k := |regions| downto 0
        invariant Fits(source, regions[k..], 0) && rendered == Substituted(source, regions[k..], contents, 0)
      {
        FitsFrom(source, regions, k);
        FitsFrom(source, regions, k + 1);
        ReplaceOne(source, regions, contents, k);
        var region := regions[k];
        var content := ContentOf(replacements[region.name]);
        rendered := rendered[..region.contentStart] + content + rendered[region.contentEnd..];
      }
      assert regions[0..] == regions;
      return Success(rendered);
    }
  }

  lemma NoOverlapYet(source: string, name: string)
    ensures RegionOf(source, name) != Failure(Overlap)
  {
  }

  lemma NoRegions(source: string)
    ensures RegionsOf(source, {}, [])
  {
  }

  lemma SortedRegions(source: string, names: set<string>, found: seq<Region>, ordered: seq<Region>)
    requires RegionsOf(source, names, found) && multiset(ordered) == multiset(found)
    ensures RegionsOf(source, names, ordered)
  {
    hide RegionOf;
    forall r ensures r in ordered <==> r in found {
      assert r in ordered <==> r in multiset(ordered);
      assert r in found <==> r in multiset(found);
    }
    NamesDiffer(found, ordered);
    forall name | name in names ensures Named(ordered, name) {
      var r :| r in found && r.name == name;
      assert r in ordered;
    }
  }

  /** Sorting keeps names different: each region still occurs once. */
  lemma NamesDiffer(found: seq<Region>, ordered: seq<Region>)
    requires forall i, j :: 0 <= i < j < |found| ==> found[i].name != found[j].name
    requires multiset(ordered) == multiset(found)
    ensures forall i, j :: 0 <= i < j < |ordered| ==> ordered[i].name != ordered[j].name
  {
    forall i, j | 0 <= i < j < |ordered| ensures ordered[i].name != ordered[j].name {
      assert ordered[i] in multiset(found) && ordered[j] in multiset(found);
      if ordered[i].name == ordered[j].name {
        var r := ordered[i];
        assert ordered[j] == r;
        assert ordered == ordered[..i] + [r] + ordered[i + 1..j] + [r] + ordered[j + 1..];
        assert multiset(ordered)[r] >= 2;
        OccursOnce(found, r);
      }
    }
  }

  lemma OccursOnce(found: seq<Region>, r: Region)
    requires forall i, j :: 0 <= i < j < |found| ==> found[i].name != found[j].name
    ensures multiset(found)[r] <= 1
  {
    if i :| 0 <= i < |found| && found[i] == r {
      assert found == found[..i] + [r] + found[i + 1..];
      assert r !in found[..i] && r !in found[i + 1..];
    }
  }

  lemma AllWellFormed(source: string, names: set<string>, rs: seq<Region>)
    requires RegionsOf(source, names, rs)
    ensures forall i :: 0 <= i < |rs| ==> WellFormed(source, rs[i]) && rs[i].start < rs[i].end
  {
    forall i | 0 <= i < |rs| ensures WellFormed(source, rs[i]) {
      hide RegionOf;
      assert rs[i] in rs;
      RegionIsWellFormed(source, rs[i].name);
    }
  }

  lemma NeighboursOverlap(source: string, names: set<string>, rs: seq<Region>, i: nat)
    requires RegionsOf(source, names, rs) && Sorted(rs) && i + 1 < |rs| && rs[i].end > rs[i + 1].start
    ensures SomeOverlap(source, names)
  {
    hide RegionOf;
    assert rs[i] in rs && rs[i + 1] in rs;
    assert rs[i].name != rs[i + 1].name;
    assert Overlapping(source, rs[i].name, rs[i + 1].name);
  }

  /** Regions that have been accepted do not overlap. */
  lemma DisjointMeansNoOverlap(source: string, names: set<string>, rs: seq<Region>)
    requires RegionsOf(source, names, rs) && Disjoint(rs) && forall i :: 0 <= i < |rs| ==> rs[i].start < rs[i].end
    ensures !SomeOverlap(source, names)
  {
    hide RegionOf;
    forall a, b | a in names && b in names ensures !Overlapping(source, a, b) {
      var x :| x in rs && x.name == a;
      var y :| y in rs && y.name == b;
      var i :| 0 <= i < |rs| && rs[i] == x;
      var j :| 0 <= j < |rs| && rs[j] == y;
      if a != b {
        assert i < j ==> rs[i].end <= rs[j].start;
        assert j < i ==> rs[j].end <= rs[i].start;
      }
    }
  }

  lemma RegionsFit(source: string, names: set<string>, rs: seq<Region>)
    requires RegionsOf(source, names, rs) && Disjoint(rs) && forall i :: 0 <= i < |rs| ==> WellFormed(source, rs[i])
    ensures Fits(source, rs, 0) && forall i :: 0 <= i < |rs| ==> rs[i].name in names
  {
    hide RegionOf, OccursAt;
    forall i | 0 <= i < |rs| ensures rs[i].name in names {
      assert rs[i] in rs;
    }
    forall i | 0 <= i < |rs| ensures rs[i].contentStart <= rs[i].contentEnd <= |source| {
      assert WellFormed(source, rs[i]);
    }
    forall i, j | 0 <= i < j < |rs| ensures rs[i].contentEnd <= rs[j].contentStart {
      assert WellFormed(source, rs[i]) && WellFormed(source, rs[j]);
    }
  }

  lemma FitsFrom(source: string, rs: seq<Region>, k: nat)
    requires Fits(source, rs, 0) && k <= |rs|
    ensures Fits(source, rs[k..], 0)
    ensures k < |rs| ==> rs[k].contentStart <= rs[k].contentEnd
  {
  }

  lemma NothingToReplace(source: string, contents: map<string, string>)
    ensures Fits(source, [], 0) && Substituted(source, [], contents, 0) == source
  {
  }

  lemma SortKeepsMembers(rs: seq<Region>)
    ensures forall r :: r in SortByStart(rs) <==> r in rs
    ensures Sorted(SortByStart(rs))
  {
    SortSorts(rs);
    forall r ensures r in SortByStart(rs) <==> r in rs {
      assert r in SortByStart(rs) <==> r in multiset(SortByStart(rs));
      assert r in rs <==> r in multiset(rs);
    }
  }
}
