/** The INI dialect of the configuration files: reader, printer, and the laws between them. */
module Config {

  /** `std::isspace` in the C locale. */
  predicate IsSpace(c: char) {
    c == ' ' || c == '\t' || c == '\n' || c == '\r' || c == '\U{0B}' || c == '\U{0C}'
  }

  type Section = seq<(string, string)>
  type Sections = map<string, Section>

  /** The reader's state.  `Undefined` is what follows when `parse_line` steps back over the
      beginning of a line, which the language gives no meaning to. */
  datatype Reader = Running(line: string, heading: string, sections: Sections) | Undefined

  // ---------------------------------------------------------------------------
  // One logical line

  function TrimLeft(s: string): (r: string)
    ensures r == [] || !IsSpace(r[0])
    ensures |r| <= |s| && r == s[|s| - |r|..]
  {
    if s == [] || !IsSpace(s[0]) then s else TrimLeft(s[1..])
  }

  function TrimRight(s: string): (r: string)
    ensures r == [] || !IsSpace(r[|r| - 1])
    ensures |r| <= |s| && r == s[..|r|]
  {
    if s == [] || !IsSpace(s[|s| - 1]) then s else TrimRight(s[..|s| - 1])
  }

  function Trim(s: string): string {
    TrimRight(TrimLeft(s))
  }

  /** `std::find(s, '=')`. */
  function FindEq(s: string): (i: nat)
    ensures i <= |s| && (i < |s| ==> s[i] == '=') && (forall j :: 0 <= j < i ==> s[j] != '=')
  {
    if s == [] || s[0] == '=' then 0 else 1 + FindEq(s[1..])
  }

  /** A line in brackets; one character cannot be both. */
  predicate IsHeading(s: string) {
    |s| >= 2 && s[0] == '[' && s[|s| - 1] == ']'
  }

  function OpenSection(name: string, heading: string, sections: Sections): Reader {
    if name == [] then Running([], heading, sections)
    else Running([], name, if name in sections then sections else sections[name := []])
  }

  /** `left` is what stands before the '=', `v` the value after it. */
  function AddPair(left: string, v: string, heading: string, sections: Sections): Reader {
    if v == [] then Running([], heading, sections)
    else if left == [] || heading !in sections then Undefined
    else Running([], heading, sections[heading := sections[heading] + [(TrimRight(left), v)]])
  }

  function ParseTrimmed(s: string, heading: string, sections: Sections): Reader {
    if s == [] then Running([], heading, sections)
    else if IsHeading(s) then OpenSection(Trim(s[1..|s| - 1]), heading, sections)
    else if sections == map[] then Running([], heading, sections)
    else
      var i := FindEq(s);
      if i == |s| then Running([], heading, sections) else AddPair(s[..i], TrimLeft(s[i + 1..]), heading, sections)
  }

  /** `parse_line`: a heading opens its section, `key=value` goes to the current one, anything else is ignored. */
  function ParseLine(line: string, heading: string, sections: Sections): Reader {
    ParseTrimmed(Trim(line), heading, sections)
  }

  // ---------------------------------------------------------------------------
  // The character loop

  function Back(s: string): char
    requires s != []
  {
    s[|s| - 1]
  }

  function Feed(r: Reader, c: char): Reader {
    if r.Undefined? then r
    else if !IsSpace(c) then
      var r' := if r.line != [] && Back(r.line) == '\n' then ParseLine(r.line, r.heading, r.sections) else r;
      if r'.Undefined? then r' else r'.(line := r'.line + [c])
    else if c == ' ' || c == '\t' then
      if r.line == [] || !IsSpace(Back(r.line)) then r.(line := r.line + [' '])
      else r.(line := r.line[..|r.line| - 1] + [' '])
    else if c == '\n' then
      if r.line == [] || !IsSpace(Back(r.line)) then r.(line := r.line + ['\n'])
      else if Back(r.line) == '\n' then ParseLine(r.line, r.heading, r.sections)
      else r.(line := r.line[..|r.line| - 1] + ['\n'])
    else r
  }

  function FeedAll(r: Reader, text: string): Reader
    decreases text
  {
    if text == [] then r else FeedAll(Feed(r, text[0]), text[1..])
  }

  /** End of input: a last line counts only if its newline was there. */
  function Finish(r: Reader): Reader {
    if r.Running? && r.line != [] && Back(r.line) == '\n' then ParseLine(r.line, r.heading, r.sections) else r
  }

  const INITIAL: Reader := Running([], [], map[])

  /** `operator>>`. */
  function Parse(text: string): Reader {
    Finish(FeedAll(INITIAL, text))
  }

  /** The reader as it runs, character by character. */
  method Read(text: string) returns (r: Reader)
    ensures r == Parse(text)
  {
    r := INITIAL;
    var i := 0;
    while i < |text|
      invariant 0 <= i <= |text| && FeedAll(INITIAL, text) == FeedAll(r, text[i..])
    {
      assert text[i..][1..] == text[i + 1..];
      r := Feed(r, text[i]);
      i := i + 1;
    }
    r := Finish(r);
  }

  // ---------------------------------------------------------------------------
  // The printer

  function PrintPairs(section: Section): string {
    if section == [] then [] else
    PrintPairs(section[..|section| - 1]) + (section[|section| - 1].0 + "=" + section[|section| - 1].1 + "\n")
  }

  function PrintSection(heading: string, section: Section): string {
    "[" + heading + "]" + "\n" + PrintPairs(section) + "\n"
  }

  /** `operator<<`, visiting the sections in the order given (a `std::map` visits them in ascending order of heading). */
  function Print(sections: Sections, order: seq<string>): string
    requires forall h :: h in order ==> h in sections
  {
    if order == [] then [] else
    Print(sections, order[..|order| - 1]) + PrintSection(order[|order| - 1], sections[order[|order| - 1]])
  }

  // ---------------------------------------------------------------------------
  // Normal form

  /** Not empty, trimmed, and with single blanks as the only white space. */
  predicate Clean(s: string) {
    && s != [] && !IsSpace(s[0]) && !IsSpace(s[|s| - 1])
    && Single(s)
  }

  predicate Single(s: string) {
    && (forall i :: 0 <= i < |s| && IsSpace(s[i]) ==> s[i] == ' ')
    && (forall i :: 0 <= i < |s| - 1 && IsSpace(s[i]) ==> !IsSpace(s[i + 1]))
  }

  predicate NormalPair(k: string, v: string) {
    Clean(k) && Clean(v) && '=' !in k && !IsHeading([k[0], v[|v| - 1]])
  }

  predicate NormalSection(section: Section) {
    forall i :: 0 <= i < |section| ==> NormalPair(section[i].0, section[i].1)
  }

  predicate Normal(sections: Sections) {
    forall h :: h in sections ==> Clean(h) && NormalSection(sections[h])
  }

  // ---------------------------------------------------------------------------
  // Reading back what was printed

  lemma {:induction false} FeedAllAppend(r: Reader, a: string, b: string)
    ensures FeedAll(r, a + b) == FeedAll(FeedAll(r, a), b)
    decreases a
  {
    if a == [] {
      assert a + b == b;
    } else {
      assert (a + b)[1..] == a[1..] + b;
      FeedAllAppend(Feed(r, a[0]), a[1..], b);
    }
  }

  lemma FeedOne(r: Reader, c: char)
    ensures FeedAll(r, [c]) == Feed(r, c)
  {
    assert [c][1..] == [];
  }

  /** Characters that fit after what is already on the line are appended as they are. */
  lemma {:induction false} FeedPlain(line: string, w: string, heading: string, sections: Sections)
    requires line != [] && Single(line + w)
    ensures FeedAll(Running(line, heading, sections), w) == Running(line + w, heading, sections)
    decreases w
  {
    if w == [] {
      assert line + w == line;
    } else {
      assert (line + w)[|line| - 1] == Back(line) && (line + w)[|line|] == w[0];
      assert line + w == (line + [w[0]]) + w[1..];
      FeedPlain(line + [w[0]], w[1..], heading, sections);
    }
  }

  /** One clean line, from an empty line buffer. */
  lemma FeedLine(w: string, heading: string, sections: Sections)
    requires Clean(w)
    ensures FeedAll(Running([], heading, sections), w + "\n") == Running(w + "\n", heading, sections)
  {
    var r := Running([], heading, sections);
    assert w == [w[0]] + w[1..];
    FeedAllAppend(r, [w[0]] + w[1..], "\n");
    FeedAllAppend(r, [w[0]], w[1..]);
    FeedOne(r, w[0]);
    assert [] + [w[0]] == [w[0]];
    FeedPlain([w[0]], w[1..], heading, sections);
    FeedOne(Running(w, heading, sections), '\n');
  }

  /** One clean line after another that is still to be parsed. */
  lemma FeedNextLine(prev: string, w: string, heading: string, sections: Sections)
    requires Clean(w) && ParseLine(prev + "\n", heading, sections).Running?
    ensures var r := ParseLine(prev + "\n", heading, sections);
      FeedAll(Running(prev + "\n", heading, sections), w + "\n") == Running(w + "\n", r.heading, r.sections)
  {
    hide ParseLine;
    ParseLineEmpties(prev + "\n", heading, sections);
    var r := ParseLine(prev + "\n", heading, sections);
    assert w + "\n" == [w[0]] + (w[1..] + "\n");
    FeedLine(w, r.heading, r.sections);
    assert (w + "\n")[1..] == w[1..] + "\n";
  }

  lemma ParseLineEmpties(line: string, heading: string, sections: Sections)
    ensures ParseLine(line, heading, sections).Running? ==> ParseLine(line, heading, sections).line == []
  {
  }

  lemma TrimNewline(w: string)
    requires w != [] && !IsSpace(w[0]) && !IsSpace(w[|w| - 1])
    ensures Trim(w + "\n") == w
  {
    assert TrimLeft(w + "\n") == w + "\n";
    assert (w + "\n")[..|w|] == w;
    assert TrimRight(w + "\n") == TrimRight(w);
  }

  lemma TrimClean(w: string)
    requires Clean(w)
    ensures Trim(w) == w && TrimLeft(w) == w && TrimRight(w) == w
  {
  }

  lemma Bracketed(h: string)
    ensures var s := "[" + h + "]"; IsHeading(s) && s[1..|s| - 1] == h && !IsSpace(s[0]) && !IsSpace(s[|s| - 1])
  {
  }

  lemma ParseHeading(h: string, heading: string, sections: Sections)
    requires Clean(h)
    ensures ParseLine("[" + h + "]" + "\n", heading, sections) == Running([], h, if h in sections then sections else sections[h := []])
  {
    hide Trim, TrimLeft, TrimRight, IsSpace, IsHeading;
    Bracketed(h);
    TrimNewline("[" + h + "]");
    TrimClean(h);
  }

  lemma Spliced(k: string, v: string)
    requires k != [] && v != [] && '=' !in k
    ensures var s := k + "=" + v;
      && |s| == |k| + 1 + |v| && s[0] == k[0] && s[|s| - 1] == v[|v| - 1]
      && FindEq(s) == |k| && s[..|k|] == k && s[|k| + 1..] == v
      && IsHeading(s) == IsHeading([k[0], v[|v| - 1]])
  {
    hide FindEq;
    var s := k + "=" + v;
    assert forall j :: 0 <= j < |k| ==> s[j] == k[j];
    assert s[|k|] == '=';
  }

  lemma ParsePair(k: string, v: string, heading: string, sections: Sections)
    requires NormalPair(k, v) && heading in sections
    ensures ParseLine(k + "=" + v + "\n", heading, sections) == Running([], heading, sections[heading := sections[heading] + [(k, v)]])
  {
    hide Trim, TrimLeft, TrimRight, FindEq, IsSpace, Single, IsHeading;
    Spliced(k, v);
    TrimNewline(k + "=" + v);
    TrimClean(k);
    TrimClean(v);
  }

  lemma PairIsClean(k: string, v: string)
    requires NormalPair(k, v)
    ensures Clean(k + "=" + v)
  {
    var s := k + "=" + v;
    forall i | 0 <= i < |s| ensures IsSpace(s[i]) ==> s[i] == ' ' && (i < |s| - 1 ==> !IsSpace(s[i + 1])) {
      if i < |k| {
        assert s[i] == k[i];
        if i + 1 < |k| { assert s[i + 1] == k[i + 1]; }
      } else if i > |k| {
        assert s[i] == v[i - |k| - 1];
        if i + 1 < |s| { assert s[i + 1] == v[i - |k|]; }
      }
    }
  }

  lemma HeadingIsClean(h: string)
    requires Clean(h)
    ensures Clean("[" + h + "]")
  {
    var s := "[" + h + "]";
    forall i | 0 <= i < |s| ensures IsSpace(s[i]) ==> s[i] == ' ' && (i < |s| - 1 ==> !IsSpace(s[i + 1])) {
      if 1 <= i <= |h| {
        assert s[i] == h[i - 1];
        if i < |h| { assert s[i + 1] == h[i]; }
      }
    }
  }

  /** The reader when the heading and the pairs of a section have been fed: the last of its
      lines is parsed only when the next character arrives. */
  function Pending(heading: string, section: Section, before: string, sections: Sections): Reader {
    if section == [] then Running("[" + heading + "]" + "\n", before, sections)
    else Running(section[|section| - 1].0 + "=" + section[|section| - 1].1 + "\n", heading, sections[heading := section[..|section| - 1]])
  }

  lemma PendingParses(heading: string, section: Section, before: string, sections: Sections)
    requires Clean(heading) && NormalSection(section) && heading !in sections
    ensures var r := Pending(heading, section, before, sections);
      ParseLine(r.line, r.heading, r.sections) == Running([], heading, sections[heading := section])
  {
    hide ParseLine, Clean;
    if section == [] {
      ParseHeading(heading, before, sections);
    } else {
      var n := |section| - 1;
      var front, k, v := section[..n], section[n].0, section[n].1;
      assert NormalPair(k, v);
      ParsePair(k, v, heading, sections[heading := front]);
      assert front + [(k, v)] == section;
      assert sections[heading := front][heading := section] == sections[heading := section];
    }
  }

  lemma Regroup(a: string, b: string, c: string)
    ensures a + (b + c) == (a + b) + c
  {
  }

  lemma PrintPairsLast(opening: string, section: Section)
    requires section != []
    ensures var n := |section| - 1;
      opening + PrintPairs(section) == (opening + PrintPairs(section[..n])) + (section[n].0 + "=" + section[n].1 + "\n")
  {
    var n := |section| - 1;
    var pair := section[n].0 + "=" + section[n].1 + "\n";
    Regroup(opening, PrintPairs(section[..n]), pair);
    assert PrintPairs(section) == PrintPairs(section[..n]) + pair;
  }

  /** Feeding one more pair. */
  lemma FeedPair(heading: string, section: Section, before: string, sections: Sections)
    requires Clean(heading) && NormalSection(section) && heading !in sections && section != []
    ensures var n := |section| - 1;
      FeedAll(Pending(heading, section[..n], before, sections), section[n].0 + "=" + section[n].1 + "\n") == Pending(heading, section, before, sections)
  {
    hide ParseLine, Clean, FeedAll;
    var n := |section| - 1;
    var front, k, v := section[..n], section[n].0, section[n].1;
    assert NormalPair(k, v);
    PendingParses(heading, front, before, sections);
    PairIsClean(k, v);
    var r := Pending(heading, front, before, sections);
    var prev := r.line[..|r.line| - 1];
    assert r.line == prev + "\n";
    FeedNextLine(prev, k + "=" + v, r.heading, r.sections);
  }

  lemma {:induction false} FeedPairs(heading: string, section: Section, before: string, sections: Sections)
    requires Clean(heading) && NormalSection(section) && heading !in sections
    ensures FeedAll(Running([], before, sections), "[" + heading + "]" + "\n" + PrintPairs(section)) == Pending(heading, section, before, sections)
  {
    hide ParseLine, Clean, FeedAll;
    var r0, opening := Running([], before, sections), "[" + heading + "]" + "\n";
    if section == [] {
      HeadingIsClean(heading);
      FeedLine("[" + heading + "]", before, sections);
      assert opening + PrintPairs(section) == opening;
    } else {
      var n := |section| - 1;
      FeedPairs(heading, section[..n], before, sections);
      PrintPairsLast(opening, section);
      FeedAllAppend(r0, opening + PrintPairs(section[..n]), section[n].0 + "=" + section[n].1 + "\n");
      FeedPair(heading, section, before, sections);
    }
  }

  /** A printed section reads back as itself. */
  lemma FeedSection(heading: string, section: Section, before: string, sections: Sections)
    requires Clean(heading) && NormalSection(section) && heading !in sections
    ensures FeedAll(Running([], before, sections), PrintSection(heading, section)) == Running([], heading, sections[heading := section])
  {
    hide ParseLine, Clean, FeedAll;
    FeedPairs(heading, section, before, sections);
    PendingParses(heading, section, before, sections);
    var text := "[" + heading + "]" + "\n" + PrintPairs(section);
    FeedAllAppend(Running([], before, sections), text, "\n");
    FeedOne(Pending(heading, section, before, sections), '\n');
  }

  ghost predicate Enumerates(order: seq<string>, sections: Sections) {
    && (forall h :: h in order <==> h in sections)
    && (forall i, j :: 0 <= i < j < |order| ==> order[i] != order[j])
  }

  /** The sections named in `order`. */
  function Part(sections: Sections, order: seq<string>): Sections {
    map h | h in sections && h in order :: sections[h]
  }

  lemma PartLast(sections: Sections, order: seq<string>)
    requires order != [] && order[|order| - 1] in sections
    ensures var h := order[|order| - 1]; Part(sections, order) == Part(sections, order[..|order| - 1])[h := sections[h]]
  {
    assert order == order[..|order| - 1] + [order[|order| - 1]];
  }

  function Last(order: seq<string>): string {
    if order == [] then [] else order[|order| - 1]
  }

  lemma {:induction false} FeedPrinted(sections: Sections, order: seq<string>)
    requires Normal(sections) && (forall h :: h in order ==> h in sections)
    requires forall i, j :: 0 <= i < j < |order| ==> order[i] != order[j]
    ensures FeedAll(INITIAL, Print(sections, order)) == Running([], Last(order), Part(sections, order))
  {
    hide PrintSection, Clean, NormalSection, FeedAll;
    if order == [] {
      assert Part(sections, order) == map[];
      assert FeedAll(INITIAL, []) == INITIAL by { FeedNothing(); }
    } else {
      var n := |order| - 1;
      var h := order[n];
      FeedPrinted(sections, order[..n]);
      FeedAllAppend(INITIAL, Print(sections, order[..n]), PrintSection(h, sections[h]));
      assert h !in order[..n];
      FeedSection(h, sections[h], Last(order[..n]), Part(sections, order[..n]));
      PartLast(sections, order);
    }
  }

  lemma FeedNothing()
    ensures FeedAll(INITIAL, []) == INITIAL
  {
  }

  /** Printing and reading back: every normal configuration, in whatever order its sections are visited, comes back as it was. */
  lemma ParsePrint(sections: Sections, order: seq<string>)
    requires Normal(sections) && Enumerates(order, sections)
    ensures Parse(Print(sections, order)).Running? && Parse(Print(sections, order)).sections == sections
  {
    hide ParseLine, Print, FeedAll;
    FeedPrinted(sections, order);
    assert Part(sections, order) == sections;
  }

  // ---------------------------------------------------------------------------
  // Whatever is read is normal

  /** The line buffer: blanks are single, and a newline can only be the last character. */
  predicate Buffered(line: string) {
    && (forall i :: 0 <= i < |line| && IsSpace(line[i]) ==> line[i] == ' ' || (line[i] == '\n' && i == |line| - 1))
    && (forall i :: 0 <= i < |line| - 1 && IsSpace(line[i]) ==> !IsSpace(line[i + 1]))
  }

  /** The reader between two characters. */
  predicate Sane(r: Reader) {
    r.Running? ==> Buffered(r.line) && Normal(r.sections) && (r.sections != map[] ==> r.heading in r.sections)
  }

  lemma SliceSingle(s: string, lo: nat, hi: nat)
    requires Single(s) && lo <= hi <= |s|
    ensures Single(s[lo..hi])
  {
  }

  lemma TrimmedIsClean(line: string)
    requires Buffered(line) && Trim(line) != []
    ensures Clean(Trim(line))
  {
    hide TrimLeft, TrimRight, IsSpace;
    var a := TrimLeft(line);
    var b := TrimRight(a);
    var d := |line| - |a|;
    assert forall i :: 0 <= i < |b| ==> b[i] == line[d + i];
    forall i | 0 <= i < |b| && IsSpace(b[i]) ensures b[i] == ' ' && (i + 1 < |b| ==> !IsSpace(b[i + 1])) {
      assert i != |b| - 1;
      assert b[i] == line[d + i] && b[i + 1] == line[d + (i + 1)];
    }
  }

  lemma TrimLeftIsClean(s: string, lo: nat)
    requires Single(s) && lo <= |s| && TrimLeft(s[lo..]) != [] && !IsSpace(s[|s| - 1])
    ensures Clean(TrimLeft(s[lo..])) && Back(TrimLeft(s[lo..])) == Back(s)
  {
    hide TrimLeft, IsSpace;
    var r := TrimLeft(s[lo..]);
    assert r == s[|s| - |r|..|s|];
    SliceSingle(s, |s| - |r|, |s|);
  }

  lemma TrimRightIsClean(s: string, hi: nat)
    requires Single(s) && hi <= |s| && TrimRight(s[..hi]) != [] && !IsSpace(s[0])
    ensures Clean(TrimRight(s[..hi]))
  {
    hide TrimRight, IsSpace;
    var r := TrimRight(s[..hi]);
    assert r == s[0..|r|];
    SliceSingle(s, 0, |r|);
  }

  lemma TrimSliceIsClean(s: string, lo: nat, hi: nat)
    requires Single(s) && lo <= hi <= |s| && Trim(s[lo..hi]) != []
    ensures Clean(Trim(s[lo..hi]))
  {
    hide TrimLeft, TrimRight, IsSpace;
    var a := TrimLeft(s[lo..hi]);
    assert a == s[hi - |a|..hi];
    SliceSingle(s, hi - |a|, hi);
    assert a[..|a|] == a;
    TrimRightIsClean(a, |a|);
  }

  /** The key and the value of a line make a normal pair. */
  lemma SplitIsNormal(s: string)
    requires Clean(s) && !IsHeading(s)
    requires 0 < FindEq(s) < |s| && TrimLeft(s[FindEq(s) + 1..]) != []
    ensures NormalPair(TrimRight(s[..FindEq(s)]), TrimLeft(s[FindEq(s) + 1..]))
  {
    hide TrimLeft, TrimRight, IsSpace, FindEq, Single;
    var i := FindEq(s);
    var k, v := TrimRight(s[..i]), TrimLeft(s[i + 1..]);
    TrimRightStops(s[..i]);
    TrimRightIsClean(s, i);
    TrimLeftIsClean(s, i + 1);
    assert k == s[..|k|];
  }

  lemma {:induction false} TrimRightStops(s: string)
    requires s != [] && !IsSpace(s[0])
    ensures TrimRight(s) != []
  {
    if IsSpace(s[|s| - 1]) {
      TrimRightStops(s[..|s| - 1]);
    }
  }

  lemma OpenIsSane(name: string, heading: string, sections: Sections)
    requires Normal(sections) && (sections != map[] ==> heading in sections) && (name != [] ==> Clean(name))
    ensures Sane(OpenSection(name, heading, sections))
  {
    hide Clean;
  }

  lemma AddIsSane(left: string, v: string, heading: string, sections: Sections)
    requires Normal(sections) && (sections != map[] ==> heading in sections)
    requires left != [] && v != [] ==> NormalPair(TrimRight(left), v)
    ensures Sane(AddPair(left, v, heading, sections))
  {
    hide Clean, NormalPair, TrimRight;
  }

  lemma NothingIsSane(heading: string, sections: Sections)
    requires Normal(sections) && (sections != map[] ==> heading in sections)
    ensures Sane(Running([], heading, sections))
  {
    hide Normal;
  }

  lemma ParsePairIsSane(s: string, heading: string, sections: Sections)
    requires Normal(sections) && (sections != map[] ==> heading in sections) && Clean(s) && !IsHeading(s) && FindEq(s) < |s|
    ensures Sane(AddPair(s[..FindEq(s)], TrimLeft(s[FindEq(s) + 1..]), heading, sections))
  {
    hide TrimLeft, TrimRight, FindEq, Clean, NormalPair, IsSpace, IsHeading, AddPair, Normal, Sane;
    var i := FindEq(s);
    if i > 0 && TrimLeft(s[i + 1..]) != [] {
      SplitIsNormal(s);
    }
    AddIsSane(s[..i], TrimLeft(s[i + 1..]), heading, sections);
  }

  lemma ParseHeadingIsSane(s: string, heading: string, sections: Sections)
    requires Normal(sections) && (sections != map[] ==> heading in sections) && Clean(s) && IsHeading(s)
    ensures Sane(OpenSection(Trim(s[1..|s| - 1]), heading, sections))
  {
    hide Trim, Clean, IsSpace, OpenSection, Normal, Sane, Single;
    CleanMeans(s);
    if Trim(s[1..|s| - 1]) != [] {
      TrimSliceIsClean(s, 1, |s| - 1);
    }
    OpenIsSane(Trim(s[1..|s| - 1]), heading, sections);
  }

  lemma ParseTrimmedIsSane(s: string, heading: string, sections: Sections)
    requires Normal(sections) && (sections != map[] ==> heading in sections) && (s != [] ==> Clean(s))
    ensures Sane(ParseTrimmed(s, heading, sections))
  {
    hide TrimLeft, Trim, FindEq, Clean, IsHeading, OpenSection, AddPair, Normal, Sane;
    NothingIsSane(heading, sections);
    if s != [] {
      if IsHeading(s) {
        ParseHeadingIsSane(s, heading, sections);
      } else if FindEq(s) < |s| {
        ParsePairIsSane(s, heading, sections);
      }
    }
  }

  lemma ParseLineIsSane(line: string, heading: string, sections: Sections)
    requires Sane(Running(line, heading, sections))
    ensures Sane(ParseLine(line, heading, sections))
  {
    hide Trim, Clean, ParseTrimmed, Normal, Buffered;
    if Trim(line) != [] {
      TrimmedIsClean(line);
    }
    ParseTrimmedIsSane(Trim(line), heading, sections);
  }

  lemma CleanMeans(s: string)
    requires Clean(s)
    ensures Single(s) && s != [] && !IsSpace(s[0]) && !IsSpace(s[|s| - 1])
  {
  }

  lemma FeedIsSane(r: Reader, c: char)
    requires Sane(r)
    ensures Sane(Feed(r, c))
  {
    hide ParseLine, Normal;
    if r.Running? {
      ParseLineIsSane(r.line, r.heading, r.sections);
      ParseLineEmpties(r.line, r.heading, r.sections);
    }
  }

  lemma {:induction false} FeedAllIsSane(r: Reader, text: string)
    requires Sane(r)
    ensures Sane(FeedAll(r, text))
    decreases text
  {
    hide Feed, Sane;
    if text != [] {
      FeedIsSane(r, text[0]);
      FeedAllIsSane(Feed(r, text[0]), text[1..]);
    }
  }

  // ---------------------------------------------------------------------------
  // The logical lines of a text

  /** A newline is pending and `c` does not continue the line. */
  predicate Completes(line: string, c: char) {
    line != [] && Back(line) == '\n' && (!IsSpace(c) || c == '\n')
  }

  /** What is on the line after `c`; the sections have no part in it. */
  function Push(line: string, c: char): string {
    if !IsSpace(c) then (if Completes(line, c) then [c] else line + [c])
    else if c == ' ' || c == '\t' then (if line == [] || !IsSpace(Back(line)) then line + [' '] else line[..|line| - 1] + [' '])
    else if c == '\n' then
      if Completes(line, c) then []
      else if line == [] || !IsSpace(Back(line)) then line + ['\n']
      else line[..|line| - 1] + ['\n']
    else line
  }

  function LinesFrom(line: string, text: string): seq<string>
    decreases text
  {
    if text == [] then (if line != [] && Back(line) == '\n' then [line] else [])
    else if Completes(line, text[0]) then [line] + LinesFrom(Push(line, text[0]), text[1..])
    else LinesFrom(Push(line, text[0]), text[1..])
  }

  /** The logical lines of a text: white space collapsed, a line that starts with a blank joined to the one before it,
      and a last line without a newline left out. */
  function Lines(text: string): seq<string> {
    LinesFrom([], text)
  }

  /** The lines, one after another. */
  function ParseLines(lines: seq<string>, heading: string, sections: Sections): Reader {
    if lines == [] then Running([], heading, sections)
    else
      var r := ParseLine(lines[0], heading, sections);
      if r.Undefined? then Undefined else ParseLines(lines[1..], r.heading, r.sections)
  }

  /** The same, whatever is left on the line. */
  predicate SameReading(r: Reader, r': Reader) {
    if r.Undefined? then r'.Undefined? else r'.Running? && r'.heading == r.heading && r'.sections == r.sections
  }

  lemma FeedIs(line: string, heading: string, sections: Sections, c: char)
    ensures var r := ParseLine(line, heading, sections);
      Feed(Running(line, heading, sections), c) ==
        if !Completes(line, c) then Running(Push(line, c), heading, sections)
        else if r.Undefined? then Undefined
        else Running(Push(line, c), r.heading, r.sections)
  {
    hide ParseLine;
    ParseLineEmpties(line, heading, sections);
    assert [] + [c] == [c];
  }

  lemma {:induction false} UndefinedStays(text: string)
    ensures FeedAll(Undefined, text) == Undefined
  {
    if text != [] {
      UndefinedStays(text[1..]);
    }
  }

  lemma {:induction false} FeedAllIsLines(line: string, heading: string, sections: Sections, text: string)
    ensures SameReading(Finish(FeedAll(Running(line, heading, sections), text)), ParseLines(LinesFrom(line, text), heading, sections))
    decreases text
  {
    hide ParseLine, Feed, Push;
    if text == [] {
      if line != [] && Back(line) == '\n' {
        assert [line][1..] == [];
      }
    } else {
      var r := ParseLine(line, heading, sections);
      FeedIs(line, heading, sections, text[0]);
      var next := Push(line, text[0]);
      if !Completes(line, text[0]) {
        FeedAllIsLines(next, heading, sections, text[1..]);
      } else {
        var more := LinesFrom(next, text[1..]);
        assert ([line] + more)[0] == line && ([line] + more)[1..] == more;
        if r.Undefined? {
          UndefinedStays(text[1..]);
        } else {
          FeedAllIsLines(next, r.heading, r.sections, text[1..]);
        }
      }
    }
  }

  /** Reading a text is splitting it into its logical lines and parsing them in turn. */
  lemma ParseIsParseLines(text: string)
    ensures SameReading(Parse(text), ParseLines(Lines(text), [], map[]))
  {
    FeedAllIsLines([], [], map[], text);
  }

  // ---------------------------------------------------------------------------
  // Which texts have a reading

  /** A heading with a name. */
  predicate Opens(line: string) {
    var s := Trim(line);
    IsHeading(s) && Trim(s[1..|s| - 1]) != []
  }

  /** A value without a key. */
  predicate Keyless(line: string) {
    var s := Trim(line);
    s != [] && s[0] == '=' && TrimLeft(s[1..]) != []
  }

  /** A value without a key comes after a heading with a name. */
  predicate Faulty(text: string) {
    exists i, j :: 0 <= i < j < |Lines(text)| && Opens(Lines(text)[i]) && Keyless(Lines(text)[j])
  }

  /** When reading a line is not defined: exactly when it is a value without a key, and a section is open. */
  lemma WhenUndefined(line: string, heading: string, sections: Sections)
    requires sections != map[] ==> heading in sections
    ensures ParseLine(line, heading, sections).Undefined? <==> Keyless(line) && sections != map[]
  {
    hide Trim, TrimLeft, TrimRight, IsSpace;
    var s := Trim(line);
    if s != [] {
      assert FindEq(s) == 0 <==> s[0] == '=';
    }
  }

  /** A line leaves a section open if there was one, or if it opens one. */
  lemma WhenOpen(line: string, heading: string, sections: Sections)
    requires (sections != map[] ==> heading in sections) && ParseLine(line, heading, sections).Running?
    ensures var r := ParseLine(line, heading, sections);
      && (r.sections != map[] <==> sections != map[] || Opens(line))
      && (r.sections != map[] ==> r.heading in r.sections)
  {
    hide Trim, TrimLeft, TrimRight, FindEq, IsSpace;
    var s := Trim(line);
    if IsHeading(s) && Trim(s[1..|s| - 1]) != [] {
      var name := Trim(s[1..|s| - 1]);
      assert name in ParseLine(line, heading, sections).sections;
    }
  }

  /** Among the lines, one without a key comes when a section is open. */
  predicate Fails(lines: seq<string>, open: bool) {
    exists j :: 0 <= j < |lines| && Keyless(lines[j]) && (open || exists i :: 0 <= i < j && Opens(lines[i]))
  }

  lemma FailsTail(line: string, rest: seq<string>, open: bool)
    requires Fails([line] + rest, open)
    ensures (Keyless(line) && open) || Fails(rest, open || Opens(line))
  {
    hide Keyless, Opens;
    var lines := [line] + rest;
    var j :| 0 <= j < |lines| && Keyless(lines[j]) && (open || exists i :: 0 <= i < j && Opens(lines[i]));
    if j > 0 {
      assert Keyless(rest[j - 1]);
      if !open {
        var i :| 0 <= i < j && Opens(lines[i]);
        assert i > 0 ==> Opens(rest[i - 1]);
      }
    }
  }

  lemma FailsFirst(line: string, rest: seq<string>)
    requires Keyless(line)
    ensures Fails([line] + rest, true)
  {
    hide Keyless, Opens;
    assert ([line] + rest)[0] == line;
  }

  lemma FailsLater(line: string, rest: seq<string>, open: bool)
    requires Fails(rest, open || Opens(line))
    ensures Fails([line] + rest, open)
  {
    hide Keyless, Opens;
    var lines := [line] + rest;
    var j :| 0 <= j < |rest| && Keyless(rest[j]) && (open || Opens(line) || exists i :: 0 <= i < j && Opens(rest[i]));
    assert Keyless(lines[j + 1]);
    if !open {
      if Opens(line) {
        assert Opens(lines[0]);
      } else {
        var i :| 0 <= i < j && Opens(rest[i]);
        assert Opens(lines[i + 1]);
      }
    }
  }

  lemma FailsCons(line: string, rest: seq<string>, open: bool)
    ensures Fails([line] + rest, open) <==> (Keyless(line) && open) || Fails(rest, open || Opens(line))
  {
    hide Keyless, Opens, Fails;
    if Fails([line] + rest, open) {
      FailsTail(line, rest, open);
    }
    if Keyless(line) && open {
      FailsFirst(line, rest);
    }
    if Fails(rest, open || Opens(line)) {
      FailsLater(line, rest, open);
    }
  }

  lemma {:induction false} LinesFail(lines: seq<string>, heading: string, sections: Sections)
    requires sections != map[] ==> heading in sections
    ensures ParseLines(lines, heading, sections).Undefined? <==> Fails(lines, sections != map[])
  {
    hide ParseLine, Keyless, Opens;
    if lines != [] {
      var r := ParseLine(lines[0], heading, sections);
      assert lines == [lines[0]] + lines[1..];
      FailsCons(lines[0], lines[1..], sections != map[]);
      WhenUndefined(lines[0], heading, sections);
      if r.Running? {
        WhenOpen(lines[0], heading, sections);
        LinesFail(lines[1..], r.heading, r.sections);
      }
    }
  }

  /** The texts that have no reading are exactly those in which a value without a key comes after a heading. */
  lemma UndefinedIffFaulty(text: string)
    ensures Parse(text).Undefined? <==> Faulty(text)
  {
    hide Parse, ParseLines, Lines, Keyless, Opens;
    ParseIsParseLines(text);
    LinesFail(Lines(text), [], map[]);
  }

  /** No logical line starts with '='. */
  predicate Plain(text: string) {
    forall i :: 0 <= i < |Lines(text)| && Trim(Lines(text)[i]) != [] ==> Trim(Lines(text)[i])[0] != '='
  }

  lemma PlainIsNotFaulty(text: string)
    requires Plain(text)
    ensures !Faulty(text)
  {
    hide Lines, Trim, TrimLeft;
  }

  /** A text that has no reading. */
  lemma NoKeyNoReading()
    ensures Faulty("[a]\n=b\n") && Parse("[a]\n=b\n").Undefined?
  {
    var text := "[a]\n=b\n";
    LinesOfFaulty();
    assert Opens("[a]\n") && Keyless("=b\n") by { FaultyLines(); }
    assert Lines(text)[0] == "[a]\n" && Lines(text)[1] == "=b\n";
    UndefinedIffFaulty(text);
  }

  lemma NextChar(line: string, c: char, rest: string)
    requires !IsSpace(c) && (line == [] || !IsSpace(Back(line)))
    ensures LinesFrom(line, [c] + rest) == LinesFrom(line + [c], rest)
  {
    assert ([c] + rest)[1..] == rest;
  }

  lemma NextNewline(line: string, rest: string)
    requires line != [] && !IsSpace(Back(line))
    ensures LinesFrom(line, ['\n'] + rest) == LinesFrom(line + ['\n'], rest)
  {
    assert (['\n'] + rest)[1..] == rest;
  }

  lemma LineEnds(line: string, c: char, rest: string)
    requires line != [] && Back(line) == '\n' && !IsSpace(c)
    ensures LinesFrom(line, [c] + rest) == [line] + LinesFrom([c], rest)
  {
    assert ([c] + rest)[1..] == rest;
  }

  lemma LinesOfFaulty()
    ensures Lines("[a]\n=b\n") == ["[a]\n", "=b\n"]
  {
    hide LinesFrom;
    NextChar("", '[', "a]\n=b\n");
    NextChar("[", 'a', "]\n=b\n");
    NextChar("[a", ']', "\n=b\n");
    NextNewline("[a]", "=b\n");
    LineEnds("[a]\n", '=', "b\n");
    NextChar("=", 'b', "\n");
    NextNewline("=b", "");
    assert LinesFrom("=b\n", "") == ["=b\n"] by { LastLine("=b\n"); }
    assert "[a]\n=b\n" == ['['] + "a]\n=b\n" && "" + ['['] == "[";
    assert "a]\n=b\n" == ['a'] + "]\n=b\n" && "[" + ['a'] == "[a";
    assert "]\n=b\n" == [']'] + "\n=b\n" && "[a" + [']'] == "[a]";
    assert "\n=b\n" == ['\n'] + "=b\n" && "[a]" + ['\n'] == "[a]\n";
    assert "=b\n" == ['='] + "b\n" && ['='] == "=";
    assert "b\n" == ['b'] + "\n" && "=" + ['b'] == "=b";
    assert "\n" == ['\n'] + "" && "=b" + ['\n'] == "=b\n";
  }

  lemma LastLine(line: string)
    requires line != [] && Back(line) == '\n'
    ensures LinesFrom(line, "") == [line]
  {
  }

  lemma TrimWord(w: string)
    requires w != [] && !IsSpace(w[0]) && !IsSpace(w[|w| - 1])
    ensures Trim(w) == w && TrimLeft(w) == w
  {
  }

  lemma HeadingOpens(w: string, name: string)
    requires |w| >= 2 && w[0] == '[' && w[|w| - 1] == ']' && w[1..|w| - 1] == name
    requires name != [] && !IsSpace(name[0]) && !IsSpace(name[|name| - 1])
    ensures Opens(w + "\n")
  {
    hide Trim, TrimLeft, TrimRight;
    TrimNewline(w);
    TrimWord(name);
  }

  lemma ValueIsKeyless(w: string, v: string)
    requires w != [] && w[0] == '=' && w[1..] == v && v != [] && !IsSpace(v[0]) && !IsSpace(v[|v| - 1])
    ensures Keyless(w + "\n")
  {
    hide Trim, TrimLeft, TrimRight;
    TrimNewline(w);
    TrimWord(v);
  }

  lemma FaultyLines()
    ensures Opens("[a]\n") && Keyless("=b\n")
  {
    hide Opens, Keyless;
    HeadingOpens("[a]", "a");
    ValueIsKeyless("=b", "b");
    assert "[a]" + "\n" == "[a]\n" && "=b" + "\n" == "=b\n";
  }

  // ---------------------------------------------------------------------------
  // The laws

  /** What is read from a text. */
  function ReadSections(text: string): Sections
    requires !Faulty(text)
  {
    UndefinedIffFaulty(text);
    Parse(text).sections
  }

  /** For every text that has a reading, what is read is normal. */
  lemma ParseIsNormal(text: string)
    requires !Faulty(text)
    ensures Normal(ReadSections(text))
  {
    hide ParseLine, FeedAll, Faulty;
    var r := FeedAll(INITIAL, text);
    FeedAllIsSane(INITIAL, text);
    UndefinedIffFaulty(text);
    if r.Running? {
      ParseLineIsSane(r.line, r.heading, r.sections);
    }
  }

  /** Reading, printing and reading again changes nothing, through whitespace collapsing and continuation lines, for
      every text without a value that lacks its key after a heading. */
  lemma PrintIsStable(text: string, order: seq<string>)
    requires !Faulty(text) && Enumerates(order, ReadSections(text))
    ensures !Faulty(Print(ReadSections(text), order))
    ensures ReadSections(Print(ReadSections(text), order)) == ReadSections(text)
  {
    hide Parse, Print, Faulty, Normal;
    ParseIsNormal(text);
    ParsePrint(ReadSections(text), order);
    UndefinedIffFaulty(Print(ReadSections(text), order));
  }

  /** In particular for every text none of whose logical lines starts with '='. */
  lemma PlainIsStable(text: string, order: seq<string>)
    requires Plain(text)
    ensures !Faulty(text)
    ensures Enumerates(order, ReadSections(text)) ==>
      && !Faulty(Print(ReadSections(text), order))
      && ReadSections(Print(ReadSections(text), order)) == ReadSections(text)
  {
    hide Plain, Faulty, ReadSections, Print;
    PlainIsNotFaulty(text);
    if Enumerates(order, ReadSections(text)) {
      PrintIsStable(text, order);
    }
  }
}
