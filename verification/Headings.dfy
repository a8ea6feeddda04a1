/** Markdown headings, the stack of open headings, and the sections between headings. */
module Headings {
  import opened Text

  datatype Heading = Heading(level: nat, text: string)

  // ----- One heading line -----

  /** The first position from i on that holds no white space. */
  function SpaceEnd(s: string, i: nat): (n: nat)
    requires i <= |s|
    ensures i <= n <= |s| && Blank(s, i, n) && (n < |s| ==> !IsSpace(s[n]))
    decreases |s| - i
  {
    if i == |s| || !IsSpace(s[i]) then i else SpaceEnd(s, i + 1)
  }

  /** The first position from i on that holds no hash. */
  function HashEnd(s: string, i: nat): (n: nat)
    requires i <= |s|
    ensures i <= n <= |s| && (forall k :: i <= k < n ==> s[k] == '#') && (n < |s| ==> s[n] != '#')
    decreases |s| - i
  {
    if i == |s| || s[i] != '#' then i else HashEnd(s, i + 1)
  }

  predicate Blank(s: string, from: nat, to: nat)
    requires to <= |s|
  {
    forall i :: from <= i < to ==> IsSpace(s[i])
  }

  function DropHashes(s: string): (t: string)
    ensures t <= s && forall i :: |t| <= i < |s| ==> s[i] == '#'
    ensures t != "" ==> t[|t| - 1] != '#'
  {
    if s != "" && s[|s| - 1] == '#' then DropHashes(s[..|s| - 1]) else s
  }

  /** `text.replace(/\s+#*$/, "").trim()` of text that ends in a visible character: a closing run of hashes
      goes if white space stands before it. */
  function CleanHeading(text: string): string {
    var t := DropHashes(text);
    Trim(if t != "" && IsSpace(t[|t| - 1]) then t else text)
  }

  /** `/^\s{0,3}(#{1,6})\s+(.+?)\s*$/`. When only white space follows the hashes, a character of it that `.`
      accepts is taken for the text, provided another stands before it. */
  function ParseHeading(line: string): Option<Heading> {
    var w := SpaceEnd(line, 0);
    var h := HashEnd(line, w);
    var k := SpaceEnd(line, h);
    var n := |TrimEnd(line)|;
    if w > 3 || h == w || h - w > 6 || k == h then None
    else if k < n then
      if HasLineTerminator(line[k..n]) then None else Some(Heading(h - w, CleanHeading(line[k..n])))
    else if exists i :: h < i < |line| && !IsLineTerminator(line[i]) then Some(Heading(h - w, ""))
    else None
  }

  /** A reading of a line by the pattern: blanks up to w, hashes up to h, blanks up to k, text up to n, blanks. */
  datatype Reading = Reading(w: nat, h: nat, k: nat, n: nat)

  predicate Matches(line: string, r: Reading) {
    && r.w <= 3 && r.w < r.h <= r.w + 6 && r.h < r.k < r.n <= |line|
    && Blank(line, 0, r.w)
    && (forall i :: r.w <= i < r.h ==> line[i] == '#')
    && Blank(line, r.h, r.k)
    && (forall i :: r.k <= i < r.n ==> !IsLineTerminator(line[i]))
    && Blank(line, r.n, |line|)
  }

  lemma HashIsVisible()
    ensures !IsSpace('#')
  {
  }

  lemma SpaceEndIs(s: string, i: nat, n: nat)
    requires i <= n < |s| && Blank(s, i, n) && !IsSpace(s[n])
    ensures SpaceEnd(s, i) == n
  {
    hide SpaceEnd, IsSpace;
  }

  lemma HashEndIs(s: string, i: nat, n: nat)
    requires i <= n < |s| && (forall k :: i <= k < n ==> s[k] == '#') && s[n] != '#'
    ensures HashEnd(s, i) == n
  {
    hide HashEnd;
  }

  lemma ReadingIsHeading(line: string, r: Reading)
    requires Matches(line, r)
    ensures ParseHeading(line).Some? && ParseHeading(line).value.level == r.h - r.w
  {
    hide IsSpace, IsLineTerminator, CleanHeading, TrimEnd, SpaceEnd, HashEnd;
    HashIsVisible();
    SpaceEndIs(line, 0, r.w);
    assert IsSpace(line[r.h]);
    HashEndIs(line, r.w, r.h);
    var k, n := SpaceEnd(line, r.h), |TrimEnd(line)|;
    assert !IsLineTerminator(line[r.k]);
    if k < n {
      VisibleTextWithin(line, r, k, n);
    }
  }

  lemma VisibleTextWithin(line: string, r: Reading, k: nat, n: nat)
    requires Matches(line, r) && n == |TrimEnd(line)| && r.k <= k < n
    ensures !HasLineTerminator(line[k..n])
  {
    hide IsSpace, IsLineTerminator, TrimEnd;
    TrimEndShape(line);
    assert n <= r.n by { assert !IsSpace(line[n - 1]); }
  }

  lemma HeadingHasReading(line: string) returns (r: Reading)
    requires ParseHeading(line).Some?
    ensures Matches(line, r)
  {
    hide IsSpace, IsLineTerminator, CleanHeading, TrimEnd, SpaceEnd, HashEnd;
    TrimEndShape(line);
    var w := SpaceEnd(line, 0);
    var h := HashEnd(line, w);
    var k := SpaceEnd(line, h);
    var n := |TrimEnd(line)|;
    if k < n {
      r := Reading(w, h, k, n);
      forall i | k <= i < n ensures !IsLineTerminator(line[i]) {
        assert line[i] == line[k..n][i - k];
      }
    } else {
      var i :| h < i < |line| && !IsLineTerminator(line[i]);
      r := Reading(w, h, i, i + 1);
    }
  }

  /** A line is taken for a heading exactly when the pattern can read it, and the level is what every reading says. */
  lemma HeadingIff(line: string)
    ensures ParseHeading(line).Some? <==> exists r :: Matches(line, r)
    ensures forall r :: Matches(line, r) ==> ParseHeading(line).Some? && ParseHeading(line).value.level == r.h - r.w
  {
    hide ParseHeading, Matches;
    if ParseHeading(line).Some? {
      var r := HeadingHasReading(line);
    }
    forall r | Matches(line, r) ensures ParseHeading(line).Some? && ParseHeading(line).value.level == r.h - r.w {
      ReadingIsHeading(line, r);
    }
  }

  // ----- The stack of open headings -----

  /** No later heading has a level at most that of the j-th. */
  predicate IsVisible(hs: seq<Heading>, j: nat)
    requires j < |hs|
  {
    forall k :: j < k < |hs| ==> hs[k].level > hs[j].level
  }

  /** The visible ones among the first n headings, in order. */
  function VisibleAmong(hs: seq<Heading>, n: nat): seq<Heading>
    requires n <= |hs|
  {
    if n == 0 then []
    else if IsVisible(hs, n - 1) then VisibleAmong(hs, n - 1) + [hs[n - 1]]
    else VisibleAmong(hs, n - 1)
  }

  function Visible(hs: seq<Heading>): seq<Heading> {
    VisibleAmong(hs, |hs|)
  }

  predicate Increasing(stack: seq<Heading>) {
    forall i, j :: 0 <= i < j < |stack| ==> stack[i].level < stack[j].level
  }

  function Below(stack: seq<Heading>, level: nat): seq<Heading> {
    if stack == [] then []
    else if stack[|stack| - 1].level < level then Below(stack[..|stack| - 1], level) + [stack[|stack| - 1]]
    else Below(stack[..|stack| - 1], level)
  }

  lemma BelowAppend(stack: seq<Heading>, h: Heading, level: nat)
    ensures Below(stack + [h], level) == if h.level < level then Below(stack, level) + [h] else Below(stack, level)
  {
    assert (stack + [h])[..|stack|] == stack;
  }

  lemma BelowAll(stack: seq<Heading>, level: nat)
    requires forall i :: 0 <= i < |stack| ==> stack[i].level < level
    ensures Below(stack, level) == stack
  {
    if stack != [] {
      assert stack[..|stack| - 1] + [stack[|stack| - 1]] == stack;
    }
  }

  lemma VisibleWithMore(hs: seq<Heading>, h: Heading, j: nat)
    requires j < |hs|
    ensures IsVisible(hs + [h], j) <==> IsVisible(hs, j) && hs[j].level < h.level
  {
    var more := hs + [h];
    assert more[|hs|] == h && more[j] == hs[j];
    assert forall k :: 0 <= k < |hs| ==> more[k] == hs[k];
    if IsVisible(more, j) {
      forall k | j < k < |hs| ensures hs[k].level > hs[j].level {
        assert more[k] == hs[k];
      }
    }
  }

  lemma {:induction false} VisibleStep(hs: seq<Heading>, h: Heading, n: nat)
    requires n <= |hs|
    ensures VisibleAmong(hs + [h], n) == Below(VisibleAmong(hs, n), h.level)
  {
    hide IsVisible;
    if n > 0 {
      VisibleStep(hs, h, n - 1);
      VisibleWithMore(hs, h, n - 1);
      BelowAppend(VisibleAmong(hs, n - 1), hs[n - 1], h.level);
    }
  }

  lemma VisibleAppend(hs: seq<Heading>, h: Heading)
    ensures Visible(hs + [h]) == Below(Visible(hs), h.level) + [h]
  {
    VisibleStep(hs, h, |hs|);
    assert IsVisible(hs + [h], |hs|);
  }

  /** The open headings have strictly increasing levels. */
  lemma {:induction false} VisibleIncreases(hs: seq<Heading>, n: nat)
    requires n <= |hs|
    ensures Increasing(VisibleAmong(hs, n))
    ensures forall i, k :: 0 <= i < |VisibleAmong(hs, n)| && n <= k < |hs| ==>
              VisibleAmong(hs, n)[i].level < hs[k].level
  {
    if n > 0 {
      VisibleIncreases(hs, n - 1);
    }
  }

  /** The loop that takes closed headings off the stack and puts the new one on. */
  method PushHeading(stack: seq<Heading>, h: Heading, ghost hs: seq<Heading>) returns (next: seq<Heading>)
    requires stack == Visible(hs)
    ensures next == Visible(hs + [h])
  {
    VisibleIncreases(hs, |hs|);
    VisibleAppend(hs, h);
    next := stack;
    while |next| > 0 && next[|next| - 1].level >= h.level
      invariant next <= stack
      invariant Below(stack, h.level) == Below(next, h.level)
    {
      next := next[..|next| - 1];
    }
    BelowAll(next, h.level);
    next := next + [h];
  }

  // ----- Sections -----

  datatype Section = Section(headingPath: seq<string>, lines: seq<string>)

  /** Which lines are headings. */
  function Marks(lines: seq<string>): (marks: seq<Option<Heading>>)
    ensures |marks| == |lines|
  {
    seq(|lines|, i requires 0 <= i < |lines| => ParseHeading(lines[i]))
  }

  /** The positions of the headings among the first n lines. */
  function HeadingLines(marks: seq<Option<Heading>>, n: nat): (heads: seq<nat>)
    requires n <= |marks|
    ensures |heads| <= n
    ensures forall i :: 0 <= i < |heads| ==> heads[i] < n && marks[heads[i]].Some?
    ensures forall i, j :: 0 <= i < j < |heads| ==> heads[i] < heads[j]
  {
    if n == 0 then []
    else if marks[n - 1].Some? then HeadingLines(marks, n - 1) + [n - 1]
    else HeadingLines(marks, n - 1)
  }

  function HeadingsAt(marks: seq<Option<Heading>>, heads: seq<nat>): (hs: seq<Heading>)
    requires forall i :: 0 <= i < |heads| ==> heads[i] < |marks| && marks[heads[i]].Some?
    ensures |hs| == |heads|
  {
    seq(|heads|, i requires 0 <= i < |heads| => marks[heads[i]].value)
  }

  function Texts(hs: seq<Heading>): (texts: seq<string>)
    ensures |texts| == |hs|
  {
    seq(|hs|, i requires 0 <= i < |hs| => hs[i].text)
  }

  /** The title, then the headings that are visible at the last of the given ones. */
  function PathTo(title: string, hs: seq<Heading>): seq<string> {
    [title] + Texts(Visible(hs))
  }

  predicate HeadsOk(marks: seq<Option<Heading>>, heads: seq<nat>, n: nat) {
    && n <= |marks|
    && (forall i :: 0 <= i < |heads| ==> heads[i] < n && marks[heads[i]].Some?)
    && (forall i, j :: 0 <= i < j < |heads| ==> heads[i] < heads[j])
  }

  /** The i-th section of the first n lines: the lines from the i-th heading up to the next one; section 0
      is what precedes the first heading. Its path names the headings that are visible where it starts. */
  function SectionAt(title: string, lines: seq<string>, marks: seq<Option<Heading>>, heads: seq<nat>, n: nat,
                     i: nat): Section
    requires |lines| == |marks| && HeadsOk(marks, heads, n) && i <= |heads|
  {
    var stop := if i < |heads| then heads[i] else n;
    Section(PathTo(title, HeadingsAt(marks, heads[..i])),
            if i == 0 then lines[..stop] else [Trim(lines[heads[i - 1]])] + lines[heads[i - 1] + 1..stop])
  }

  predicate BlankLines(lines: seq<string>) {
    Trim(Join(lines, "\n")) == ""
  }

  /** The first k sections that are not blank. */
  function Kept(title: string, lines: seq<string>, marks: seq<Option<Heading>>, heads: seq<nat>, n: nat,
                k: nat): seq<Section>
    requires |lines| == |marks| && HeadsOk(marks, heads, n) && k <= |heads| + 1
  {
    if k == 0 then []
    else
      var section := SectionAt(title, lines, marks, heads, n, k - 1);
      var before := Kept(title, lines, marks, heads, n, k - 1);
      if BlankLines(section.lines) then before else before + [section]
  }

  function HeadingCount(lines: seq<string>): nat {
    |HeadingLines(Marks(lines), |lines|)|
  }

  /** The first i headings of a text. */
  function FirstHeadings(lines: seq<string>, i: nat): seq<Heading>
    requires i <= HeadingCount(lines)
  {
    hide ParseHeading;
    HeadingsAt(Marks(lines), HeadingLines(Marks(lines), |lines|)[..i])
  }

  /** The i-th section of a whole text. */
  function NthSection(title: string, lines: seq<string>, i: nat): (section: Section)
    requires i <= HeadingCount(lines)
    ensures section.headingPath == PathTo(title, FirstHeadings(lines, i))
  {
    hide ParseHeading, PathTo;
    SectionAt(title, lines, Marks(lines), HeadingLines(Marks(lines), |lines|), |lines|, i)
  }

  function Sections(title: string, lines: seq<string>): (sections: seq<Section>)
    ensures sections != []
  {
    var marks := Marks(lines);
    var heads := HeadingLines(marks, |lines|);
    var kept := Kept(title, lines, marks, heads, |lines|, |heads| + 1);
    if kept == [] then [Section([title], lines)] else kept
  }

  lemma SectionGrows(title: string, lines: seq<string>, marks: seq<Option<Heading>>, heads: seq<nat>, n: nat, i: nat)
    requires n < |lines| == |marks| && HeadsOk(marks, heads, n) && i <= |heads|
    requires marks[n].Some? ==> HeadsOk(marks, heads + [n], n + 1)
    ensures var now, next :=
              SectionAt(title, lines, marks, heads, n, i), SectionAt(title, lines, marks, heads, n + 1, i);
            next == if i < |heads| then now else now.(lines := now.lines + [lines[n]])
    ensures marks[n].Some? ==>
              SectionAt(title, lines, marks, heads + [n], n + 1, i) == SectionAt(title, lines, marks, heads, n, i)
  {
    hide PathTo, Trim;
    assert (heads + [n])[..i] == heads[..i];
    if i == |heads| {
      var start := if i == 0 then 0 else heads[i - 1] + 1;
      assert lines[start..n + 1] == lines[start..n] + [lines[n]];
    }
  }

  lemma HeadsStayOk(marks: seq<Option<Heading>>, heads: seq<nat>, n: nat)
    requires n < |marks| && HeadsOk(marks, heads, n)
    ensures HeadsOk(marks, heads, n + 1)
  {
  }

  lemma KeptGrows(title: string, lines: seq<string>, marks: seq<Option<Heading>>, heads: seq<nat>, n: nat, k: nat)
    requires n < |lines| == |marks| && HeadsOk(marks, heads, n) && k <= |heads|
    requires marks[n].Some? ==> HeadsOk(marks, heads + [n], n + 1)
    ensures Kept(title, lines, marks, heads, n + 1, k) == Kept(title, lines, marks, heads, n, k)
    ensures marks[n].Some? ==>
              Kept(title, lines, marks, heads + [n], n + 1, k) == Kept(title, lines, marks, heads, n, k)
  {
    hide SectionAt, BlankLines, HeadsOk;
    assert HeadsOk(marks, heads, n + 1) by { HeadsStayOk(marks, heads, n); }
    if k > 0 {
      KeptGrows(title, lines, marks, heads, n, k - 1);
      SectionGrows(title, lines, marks, heads, n, k - 1);
    }
  }

  /** What the loop holds after n lines: the stack, the path and lines of the open section, the closed sections. */
  ghost predicate Progress(title: string, lines: seq<string>, marks: seq<Option<Heading>>, n: nat,
                           stack: seq<Heading>, current: Section, sections: seq<Section>)
    requires n <= |lines| == |marks|
  {
    var heads := HeadingLines(marks, n);
    && stack == Visible(HeadingsAt(marks, heads))
    && current == SectionAt(title, lines, marks, heads, n, |heads|)
    && sections == Kept(title, lines, marks, heads, n, |heads|)
  }

  lemma ProgressStart(title: string, lines: seq<string>, marks: seq<Option<Heading>>)
    requires |lines| == |marks|
    ensures Progress(title, lines, marks, 0, [], Section([title], []), [])
  {
    assert HeadingsAt(marks, HeadingLines(marks, 0)) == [];
    assert HeadingLines(marks, 0)[..0] == [];
    assert [title] + Texts([]) == [title];
  }

  lemma OpenSectionGrows(title: string, lines: seq<string>, marks: seq<Option<Heading>>, n: nat,
                         stack: seq<Heading>, current: Section, sections: seq<Section>)
    requires n < |lines| == |marks| && Progress(title, lines, marks, n, stack, current, sections)
    requires marks[n].None?
    ensures Progress(title, lines, marks, n + 1, stack, current.(lines := current.lines + [lines[n]]), sections)
  {
    hide Visible, SectionAt, Kept;
    var heads := HeadingLines(marks, n);
    SectionGrows(title, lines, marks, heads, n, |heads|);
    KeptGrows(title, lines, marks, heads, n, |heads|);
  }

  lemma SectionCloses(title: string, lines: seq<string>, marks: seq<Option<Heading>>, n: nat,
                      stack: seq<Heading>, current: Section, sections: seq<Section>, next: seq<Heading>)
    requires n < |lines| == |marks| && Progress(title, lines, marks, n, stack, current, sections)
    requires marks[n].Some? && next == Visible(HeadingsAt(marks, HeadingLines(marks, n)) + [marks[n].value])
    ensures Progress(title, lines, marks, n + 1, next, Section([title] + Texts(next), [Trim(lines[n])]),
                     if BlankLines(current.lines) then sections else sections + [current])
  {
    hide Visible, BlankLines, Texts, Trim, Kept, SectionAt, HeadsOk, HeadingsAt;
    var heads := HeadingLines(marks, n);
    var more := HeadingLines(marks, n + 1);
    assert more == heads + [n];
    HeadingLinesOk(marks, n);
    HeadingLinesOk(marks, n + 1);
    SectionGrows(title, lines, marks, heads, n, |heads|);
    KeptGrows(title, lines, marks, heads, n, |heads|);
    KeptLast(title, lines, marks, more, n + 1, |heads| + 1);
    LastSection(title, lines, marks, more, n);
    HeadingsGrow(marks, heads, n);
  }

  lemma HeadingLinesOk(marks: seq<Option<Heading>>, n: nat)
    requires n <= |marks|
    ensures HeadsOk(marks, HeadingLines(marks, n), n)
  {
  }

  lemma HeadingsGrow(marks: seq<Option<Heading>>, heads: seq<nat>, n: nat)
    requires n < |marks| && marks[n].Some? && HeadsOk(marks, heads, n)
    ensures HeadingsAt(marks, heads + [n]) == HeadingsAt(marks, heads) + [marks[n].value]
  {
  }

  lemma KeptLast(title: string, lines: seq<string>, marks: seq<Option<Heading>>, heads: seq<nat>, n: nat, k: nat)
    requires |lines| == |marks| && HeadsOk(marks, heads, n) && 0 < k <= |heads| + 1
    ensures var section := SectionAt(title, lines, marks, heads, n, k - 1);
            var before := Kept(title, lines, marks, heads, n, k - 1);
            Kept(title, lines, marks, heads, n, k) == if BlankLines(section.lines) then before else before + [section]
  {
  }

  lemma LastSection(title: string, lines: seq<string>, marks: seq<Option<Heading>>, heads: seq<nat>, n: nat)
    requires n < |lines| == |marks| && HeadsOk(marks, heads, n + 1) && heads != [] && heads[|heads| - 1] == n
    ensures SectionAt(title, lines, marks, heads, n + 1, |heads|) ==
            Section(PathTo(title, HeadingsAt(marks, heads)), [Trim(lines[n])])
  {
    assert heads[..|heads|] == heads;
    assert lines[n + 1..n + 1] == [];
  }

  lemma StackIs(title: string, lines: seq<string>, marks: seq<Option<Heading>>, n: nat,
                stack: seq<Heading>, current: Section, sections: seq<Section>)
    requires n <= |lines| == |marks| && Progress(title, lines, marks, n, stack, current, sections)
    ensures stack == Visible(HeadingsAt(marks, HeadingLines(marks, n)))
  {
  }

  lemma RunEnds(title: string, lines: seq<string>, stack: seq<Heading>, current: Section, sections: seq<Section>)
    requires Progress(title, lines, Marks(lines), |lines|, stack, current, sections)
    ensures var kept := if BlankLines(current.lines) then sections else sections + [current];
            Sections(title, lines) == if kept == [] then [Section([title], lines)] else kept
  {
    hide SectionAt, BlankLines, Visible;
  }

  method ExtractSections(title: string, lines: seq<string>) returns (sections: seq<Section>)
    ensures sections == Sections(title, lines)
  {
    hide ParseHeading, Visible, BlankLines, Progress, Texts, Trim, HeadingsAt;
    var stack: seq<Heading> := [];
    var currentLines: seq<string> := [];
    var path := [title];
    sections := [];
    ghost var marks := Marks(lines);
    ProgressStart(title, lines, marks);
    for n := 0 to |lines|
      invariant Progress(title, lines, marks, n, stack, Section(path, currentLines), sections)
    {
      var heading := ParseHeading(lines[n]);
      assert marks[n] == heading;
      ghost var before, current := stack, Section(path, currentLines);
      ghost var closed := sections;
      if heading.Some? {
        if !BlankLines(currentLines) {
          sections := sections + [Section(path, currentLines)];
        }
        assert before == Visible(HeadingsAt(marks, HeadingLines(marks, n))) by
            { StackIs(title, lines, marks, n, before, current, closed); }
        stack := PushHeading(stack, heading.value, HeadingsAt(marks, HeadingLines(marks, n)));
        path := [title] + Texts(stack);
        currentLines := [Trim(lines[n])];
        SectionCloses(title, lines, marks, n, before, current, closed, stack);
      } else {
        currentLines := currentLines + [lines[n]];
        OpenSectionGrows(title, lines, marks, n, before, current, closed);
      }
    }
    RunEnds(title, lines, stack, Section(path, currentLines), sections);
    if !BlankLines(currentLines) {
      sections := sections + [Section(path, currentLines)];
    }
    if sections == [] {
      sections := [Section([title], lines)];
    }
  }
}
