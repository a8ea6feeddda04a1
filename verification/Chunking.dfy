/** Chunking a canonical note: sections, chunk texts, linked chunk records. */
module Chunking {
  import opened Blocks
  import opened Domain
  import opened HeadingText
  import opened Headings
  import opened Text

  // ----- Seeds -----

  datatype Seed = Seed(headingPath: seq<string>, rawText: string)

  function SeedsOfSection(section: Section, target: int): (seeds: seq<Seed>)
    ensures |seeds| > 0
  {
    var texts := SectionTexts(section.lines, target);
    seq(|texts|, i requires 0 <= i < |texts| => Seed(section.headingPath, texts[i]))
  }

  function SeedsOf(sections: seq<Section>, target: int): (seeds: seq<Seed>)
    ensures |seeds| >= |sections|
  {
    if sections == [] then [] else SeedsOfSection(sections[0], target) + SeedsOf(sections[1..], target)
  }

  function Lines(body: string): seq<string> {
    Split(Crlf(body))
  }

  /** `extractSectionSeeds` */
  function Seeds(title: string, body: string, target: int): (seeds: seq<Seed>)
    ensures seeds != []
  {
    SeedsOf(Sections(title, Lines(body)), target)
  }

  method ExtractSectionSeeds(title: string, body: string, target: int) returns (seeds: seq<Seed>)
    ensures seeds == Seeds(title, body, target)
  {
    hide Sections, SectionTexts, Lines;
    var sections := ExtractSections(title, Lines(body));
    seeds := [];
    for i := 0 to |sections|
      invariant seeds + SeedsOf(sections[i..], target) == SeedsOf(sections, target)
    {
      var texts := SplitLargeSection(sections[i].lines, target);
      assert sections[i..][0] == sections[i] && sections[i..][1..] == sections[i + 1..];
      seeds := seeds + seq(|texts|, k requires 0 <= k < |texts| => Seed(sections[i].headingPath, texts[k]));
    }
    assert sections[|sections|..] == [];
  }

  // ----- Conservation -----

  function RawTexts(seeds: seq<Seed>): (texts: seq<string>)
    ensures |texts| == |seeds|
  {
    seq(|seeds|, i requires 0 <= i < |seeds| => seeds[i].rawText)
  }

  function LinesOf(sections: seq<Section>): seq<string> {
    if sections == [] then [] else sections[0].lines + LinesOf(sections[1..])
  }

  lemma {:induction false} SeedsKeepInk(sections: seq<Section>, target: int)
    ensures InkOf(RawTexts(SeedsOf(sections, target))) == InkOf(LinesOf(sections))
  {
    hide SectionTexts, Ink;
    if sections != [] {
      var first, rest := SeedsOfSection(sections[0], target), SeedsOf(sections[1..], target);
      SeedsKeepInk(sections[1..], target);
      assert RawTexts(first) == SectionTexts(sections[0].lines, target);
      assert RawTexts(first + rest) == RawTexts(first) + RawTexts(rest);
      InkOfAppend(RawTexts(first), RawTexts(rest));
      SplitKeepsInk(sections[0].lines, target);
      InkOfAppend(sections[0].lines, LinesOf(sections[1..]));
    }
  }

  lemma {:induction false} LinesOfAppend(a: seq<Section>, section: Section)
    ensures LinesOf(a + [section]) == LinesOf(a) + section.lines
  {
    if a == [] {
      assert [section][1..] == [];
      assert section.lines + [] == section.lines;
    } else {
      assert (a + [section])[0] == a[0] && (a + [section])[1..] == a[1..] + [section];
      LinesOfAppend(a[1..], section);
    }
  }

  function StopOf(heads: seq<nat>, n: nat, k: nat): nat
    requires k <= |heads| + 1
  {
    if k == 0 then 0 else if k <= |heads| then heads[k - 1] else n
  }

  lemma SectionInk(title: string, lines: seq<string>, marks: seq<Option<Heading>>, heads: seq<nat>, n: nat, i: nat)
    requires |lines| == |marks| && HeadsOk(marks, heads, n) && i <= |heads|
    ensures StopOf(heads, n, i) <= StopOf(heads, n, i + 1) <= |lines|
    ensures InkOf(SectionAt(title, lines, marks, heads, n, i).lines) ==
            InkOf(lines[StopOf(heads, n, i)..StopOf(heads, n, i + 1)])
  {
    hide Ink, PathTo;
    var start, stop := StopOf(heads, n, i), StopOf(heads, n, i + 1);
    if i > 0 {
      assert lines[start..stop] == [lines[start]] + lines[start + 1..stop];
      InkOfAppend([lines[start]], lines[start + 1..stop]);
      InkOfAppend([Trim(lines[start])], lines[start + 1..stop]);
      InkOfOne(lines[start]);
      InkOfOne(Trim(lines[start]));
      InkOfTrim(lines[start]);
    }
  }

  lemma BlankSectionInk(lines: seq<string>)
    requires BlankLines(lines)
    ensures InkOf(lines) == ""
  {
    NewlinesAreBlank();
    InkOfJoin(lines, "\n");
    InkOfTrim(Join(lines, "\n"));
    InkOfBlank("");
  }

  lemma {:induction false} KeptInk(title: string, lines: seq<string>, marks: seq<Option<Heading>>, heads: seq<nat>,
                                   n: nat, k: nat)
    requires |lines| == |marks| && HeadsOk(marks, heads, n) && k <= |heads| + 1
    ensures StopOf(heads, n, k) <= |lines|
    ensures InkOf(LinesOf(Kept(title, lines, marks, heads, n, k))) == InkOf(lines[..StopOf(heads, n, k)])
  {
    hide InkOf, SectionAt, BlankLines, HeadsOk, Kept, LinesOf, StopOf;
    StopIsWithin(marks, heads, n, k);
    if k == 0 {
      NothingKept(title, lines, marks, heads, n);
    } else {
      KeptInk(title, lines, marks, heads, n, k - 1);
      KeptLast(title, lines, marks, heads, n, k);
      SectionInk(title, lines, marks, heads, n, k - 1);
      var section := SectionAt(title, lines, marks, heads, n, k - 1);
      var before := Kept(title, lines, marks, heads, n, k - 1);
      InkUpTo(lines, StopOf(heads, n, k - 1), StopOf(heads, n, k));
      if BlankLines(section.lines) {
        BlankSectionInk(section.lines);
      } else {
        LinesOfAppend(before, section);
        InkOfAppend(LinesOf(before), section.lines);
      }
    }
  }

  lemma StopIsWithin(marks: seq<Option<Heading>>, heads: seq<nat>, n: nat, k: nat)
    requires HeadsOk(marks, heads, n) && k <= |heads| + 1
    ensures StopOf(heads, n, k) <= |marks|
    ensures k > 0 ==> StopOf(heads, n, k - 1) <= StopOf(heads, n, k)
  {
  }

  lemma NothingKept(title: string, lines: seq<string>, marks: seq<Option<Heading>>, heads: seq<nat>, n: nat)
    requires |lines| == |marks| && HeadsOk(marks, heads, n)
    ensures LinesOf(Kept(title, lines, marks, heads, n, 0)) == [] && StopOf(heads, n, 0) == 0
  {
  }

  lemma InkUpTo(lines: seq<string>, start: nat, stop: nat)
    requires start <= stop <= |lines|
    ensures InkOf(lines[..stop]) == InkOf(lines[..start]) + InkOf(lines[start..stop])
  {
    hide InkOf;
    assert lines[..stop] == lines[..start] + lines[start..stop];
    InkOfAppend(lines[..start], lines[start..stop]);
  }

  lemma SectionsKeepInk(title: string, lines: seq<string>)
    ensures InkOf(LinesOf(Sections(title, lines))) == InkOf(lines)
  {
    hide Kept, Ink, InkOf, LinesOf, Marks, HeadingLines, HeadsOk;
    var marks := Marks(lines);
    var heads := HeadingLines(marks, |lines|);
    HeadingLinesOk(marks, |lines|);
    KeptInk(title, lines, marks, heads, |lines|, |heads| + 1);
    assert lines[..|lines|] == lines;
    WholeLines(title, lines);
  }

  lemma WholeLines(title: string, lines: seq<string>)
    ensures LinesOf([Section([title], lines)]) == lines
  {
    var whole := [Section([title], lines)];
    assert whole[1..] == [];
    assert LinesOf(whole) == lines + [] == lines;
  }

  lemma {:induction false} InkOfCrlf(s: string)
    ensures Ink(Crlf(s)) == Ink(s)
    decreases |s|
  {
    if s == "" {
    } else if |s| >= 2 && s[0] == '\r' && s[1] == '\n' {
      InkOfCrlf(s[2..]);
      assert s[1..][1..] == s[2..];
      assert ("\n" + Crlf(s[2..]))[1..] == Crlf(s[2..]);
    } else {
      InkOfCrlf(s[1..]);
      assert ([s[0]] + Crlf(s[1..]))[1..] == Crlf(s[1..]);
    }
  }

  lemma InkOfCons(x: string, rest: seq<string>)
    ensures InkOf([x] + rest) == Ink(x) + InkOf(rest)
  {
    InkOfAppend([x], rest);
    InkOfOne(x);
  }

  lemma {:induction false} InkOfSplit(s: string)
    ensures InkOf(Split(s)) == Ink(s)
  {
    hide Crlf, Ink, InkOf;
    if s == "" {
      InkOfOne("");
    } else {
      var rest := Split(s[1..]);
      InkOfSplit(s[1..]);
      InkAppend([s[0]], s[1..]);
      assert [s[0]] + s[1..] == s;
      if s[0] == '\n' {
        InkOfCons("", rest);
        NewlinesAreBlank();
        InkOfBlank("");
      } else {
        InkOfCons([s[0]] + rest[0], rest[1..]);
        InkAppend([s[0]], rest[0]);
        InkOfCons(rest[0], rest[1..]);
        assert rest == [rest[0]] + rest[1..];
      }
    }
  }

  /** Chunking keeps every visible character of the body, in order, none lost and none repeated. */
  lemma ChunksKeepInk(title: string, body: string, target: int)
    ensures InkOf(RawTexts(Seeds(title, body, target))) == Ink(body)
  {
    hide Sections, Ink, Split, Crlf;
    SeedsKeepInk(Sections(title, Lines(body)), target);
    SectionsKeepInk(title, Lines(body));
    InkOfSplit(Crlf(body));
    InkOfCrlf(body);
  }

  // ----- Where a chunk comes from -----

  /** In which section the j-th seed lies. */
  function SectionOfSeed(sections: seq<Section>, target: int, j: nat): (m: nat)
    requires j < |SeedsOf(sections, target)|
    ensures m < |sections|
  {
    var first := |SeedsOfSection(sections[0], target)|;
    if j < first then 0 else 1 + SectionOfSeed(sections[1..], target, j - first)
  }

  lemma {:induction false} SectionsOfSeedsInOrder(sections: seq<Section>, target: int, j: nat, l: nat)
    requires j <= l < |SeedsOf(sections, target)|
    ensures SectionOfSeed(sections, target, j) <= SectionOfSeed(sections, target, l)
  {
    hide SeedsOfSection;
    var first := |SeedsOfSection(sections[0], target)|;
    if j >= first {
      SectionsOfSeedsInOrder(sections[1..], target, j - first, l - first);
    }
  }

  lemma InkOfPart(texts: seq<string>, n: nat)
    requires n <= |texts|
    ensures InkOf(texts[..n]) <= InkOf(texts)
  {
    InkOfAppend(texts[..n], texts[n..]);
    assert texts[..n] + texts[n..] == texts;
  }

  lemma FirstSectionInk(section: Section, target: int)
    ensures InkOf(RawTexts(SeedsOfSection(section, target))) == InkOf(section.lines)
    ensures InkOf(LinesOf([section])) == InkOf(section.lines)
  {
    hide SectionTexts, Ink, InkOf;
    assert RawTexts(SeedsOfSection(section, target)) == SectionTexts(section.lines, target);
    SplitKeepsInk(section.lines, target);
    assert [section][1..] == [] && section.lines + [] == section.lines;
  }

  /** A seed carries the path and a text of its section, and its ink lies within that section. */
  lemma {:induction false} SeedInSection(sections: seq<Section>, target: int, j: nat)
    requires j < |SeedsOf(sections, target)|
    ensures var seeds, m := SeedsOf(sections, target), SectionOfSeed(sections, target, j);
            && seeds[j].headingPath == sections[m].headingPath &&
                 seeds[j].rawText in SectionTexts(sections[m].lines, target)
            && InkOf(LinesOf(sections[..m])) <= InkOf(RawTexts(seeds[..j]))
            && InkOf(RawTexts(seeds[..j + 1])) <= InkOf(LinesOf(sections[..m + 1]))
  {
    hide SectionTexts, InkOf;
    var seeds, first := SeedsOf(sections, target), SeedsOfSection(sections[0], target);
    var rest := SeedsOf(sections[1..], target);
    FirstSectionInk(sections[0], target);
    if j < |first| {
      assert seeds[..j + 1] == first[..j + 1];
      assert RawTexts(first[..j + 1]) == RawTexts(first)[..j + 1];
      InkOfPart(RawTexts(first), j + 1);
      assert sections[..1] == [sections[0]];
      assert first[j].rawText == SectionTexts(sections[0].lines, target)[j];
      NoInk();
    } else {
      var k := j - |first|;
      SeedInSection(sections[1..], target, k);
      var m := SectionOfSeed(sections[1..], target, k);
      LaterInk(sections, first, rest, seeds[..j], k, m);
      LaterInk(sections, first, rest, seeds[..j + 1], k + 1, m + 1);
    }
  }

  lemma NoInk()
    ensures InkOf([]) == "" && LinesOf([]) == []
  {
  }

  /** Ink of the first seeds and the first sections, after one whole section. */
  lemma LaterInk(sections: seq<Section>, first: seq<Seed>, rest: seq<Seed>, part: seq<Seed>, k: nat, m: nat)
    requires sections != [] && m < |sections| && k <= |rest| && part == first + rest[..k]
    requires InkOf(RawTexts(first)) == InkOf(sections[0].lines)
    ensures InkOf(RawTexts(part)) == InkOf(sections[0].lines) + InkOf(RawTexts(rest[..k]))
    ensures InkOf(LinesOf(sections[..m + 1])) == InkOf(sections[0].lines) + InkOf(LinesOf(sections[1..][..m]))
  {
    hide InkOf;
    assert RawTexts(part) == RawTexts(first) + RawTexts(rest[..k]);
    InkOfAppend(RawTexts(first), RawTexts(rest[..k]));
    assert sections[..m + 1][1..] == sections[1..][..m];
    InkOfAppend(sections[0].lines, LinesOf(sections[1..][..m]));
  }

  /** The m-th of these kept sections is the i-th section, and those before it are the kept ones of the text before
      it. */
  ghost predicate KeptAt(title: string, lines: seq<string>, marks: seq<Option<Heading>>, heads: seq<nat>, n: nat,
                         kept: seq<Section>, m: nat, i: nat)
    requires |lines| == |marks| && HeadsOk(marks, heads, n)
  {
    && m < |kept| && i <= |heads|
    && kept[m] == SectionAt(title, lines, marks, heads, n, i)
    && kept[..m] == Kept(title, lines, marks, heads, n, i)
    && kept[..m + 1] == Kept(title, lines, marks, heads, n, i + 1)
  }

  lemma {:induction false} KeptPlaces(title: string, lines: seq<string>, marks: seq<Option<Heading>>, heads: seq<nat>,
                                      n: nat, k: nat)
    returns (at: seq<nat>)
    requires |lines| == |marks| && HeadsOk(marks, heads, n) && k <= |heads| + 1
    ensures var kept := Kept(title, lines, marks, heads, n, k);
            && |at| == |kept| && (forall m :: 0 <= m < |at| ==> at[m] < k)
            && (forall m, l :: 0 <= m < l < |at| ==> at[m] < at[l])
            && (forall m :: 0 <= m < |at| ==> KeptAt(title, lines, marks, heads, n, kept, m, at[m]))
  {
    hide SectionAt, BlankLines, HeadsOk, KeptAt;
    if k == 0 {
      at := [];
    } else {
      var before := KeptPlaces(title, lines, marks, heads, n, k - 1);
      var kept, prior := Kept(title, lines, marks, heads, n, k), Kept(title, lines, marks, heads, n, k - 1);
      if kept == prior {
        at := before;
      } else {
        at := before + [k - 1];
        forall m | 0 <= m < |at| ensures KeptAt(title, lines, marks, heads, n, kept, m, at[m]) {
          KeptGrowsTo(title, lines, marks, heads, n, k, m, at[m]);
        }
      }
    }
  }

  lemma KeptGrowsTo(title: string, lines: seq<string>, marks: seq<Option<Heading>>, heads: seq<nat>, n: nat, k: nat,
                    m: nat, i: nat)
    requires |lines| == |marks| && HeadsOk(marks, heads, n) && 0 < k <= |heads| + 1
    requires var kept, prior := Kept(title, lines, marks, heads, n, k), Kept(title, lines, marks, heads, n, k - 1);
             kept != prior && (if m == |prior| then i == k - 1 else KeptAt(title, lines, marks, heads, n, prior, m, i))
    ensures KeptAt(title, lines, marks, heads, n, Kept(title, lines, marks, heads, n, k), m, i)
  {
    hide SectionAt, BlankLines, HeadsOk;
    var kept, prior := Kept(title, lines, marks, heads, n, k), Kept(title, lines, marks, heads, n, k - 1);
    assert kept[..|prior|] == prior;
    if m == |prior| {
      assert kept[..m + 1] == kept;
    } else {
      assert kept[..m] == prior[..m] && kept[..m + 1] == prior[..m + 1];
    }
  }

  lemma {:induction false} VisibleHasInk(s: string, i: nat)
    requires i < |s| && !IsSpace(s[i])
    ensures Ink(s) != ""
  {
    if i > 0 {
      VisibleHasInk(s[1..], i - 1);
    }
  }

  /** A section that a heading opens is never blank. */
  lemma HeadedSectionIsKept(title: string, lines: seq<string>, i: nat)
    requires 1 <= i <= HeadingCount(lines)
    ensures !BlankLines(NthSection(title, lines, i).lines)
  {
    hide Ink, PathTo, ParseHeading, IsSpace, FirstHeadings;
    var heads := HeadingLines(Marks(lines), |lines|);
    var line := lines[heads[i - 1]];
    var section := NthSection(title, lines, i);
    assert Marks(lines)[heads[i - 1]].Some?;
    var r := HeadingHasReading(line);
    HashIsVisible();
    VisibleHasInk(line, r.w);
    InkOfTrim(line);
    InkOfCons(Trim(line), section.lines[1..]);
    assert section.lines == [Trim(line)] + section.lines[1..];
    if BlankLines(section.lines) {
      BlankSectionInk(section.lines);
      assert false;
    }
  }

  /** Where the i-th section starts; one more is the end of the last. */
  function StartOf(lines: seq<string>, i: nat): (k: nat)
    requires i <= HeadingCount(lines) + 1
    ensures k <= |lines|
  {
    hide ParseHeading;
    HeadingLinesOk(Marks(lines), |lines|);
    StopOf(HeadingLines(Marks(lines), |lines|), |lines|, i)
  }

  /** The m-th section kept is the i-th of the text, with the same ink before it and up to its end. */
  ghost predicate StandsAt(title: string, lines: seq<string>, m: nat, i: nat) {
    var sections := Sections(title, lines);
    && m < |sections| && i <= HeadingCount(lines) && sections[m] == NthSection(title, lines, i)
    && InkOf(LinesOf(sections[..m])) == InkOf(lines[..StartOf(lines, i)])
    && InkOf(LinesOf(sections[..m + 1])) == InkOf(lines[..StartOf(lines, i + 1)])
  }

  lemma KeptStands(title: string, lines: seq<string>, m: nat, i: nat)
    requires var marks := Marks(lines);
             var heads := HeadingLines(marks, |lines|);
             && HeadsOk(marks, heads, |lines|)
             && KeptAt(title, lines, marks, heads, |lines|, Kept(title, lines, marks, heads, |lines|, |heads| + 1), m,
                  i)
    ensures StandsAt(title, lines, m, i)
  {
    hide SectionAt, BlankLines, Marks, HeadingLines, PathTo, Kept, InkOf, LinesOf, HeadsOk, ParseHeading;
    var marks := Marks(lines);
    var heads := HeadingLines(marks, |lines|);
    KeptInk(title, lines, marks, heads, |lines|, i);
    KeptInk(title, lines, marks, heads, |lines|, i + 1);
  }

  lemma WholeStands(title: string, lines: seq<string>)
    requires Sections(title, lines) == [Section([title], lines)] && HeadingLines(Marks(lines), |lines|) == []
    ensures StandsAt(title, lines, 0, 0)
  {
    hide SectionAt, BlankLines, Marks, PathTo, Kept, InkOf, LinesOf, Sections, ParseHeading;
    WholeSection(title, lines, Marks(lines));
    WholeLines(title, lines);
    NoInk();
    var whole := [Section([title], lines)];
    assert whole[..0] == [] && whole[..1] == whole && lines[..0] == [] && lines[..|lines|] == lines;
  }

  /** The numbers of the sections that are kept. */
  lemma SectionPlaces(title: string, lines: seq<string>) returns (at: seq<nat>)
    ensures |at| == |Sections(title, lines)|
    ensures forall m, l :: 0 <= m < l < |at| ==> at[m] < at[l]
    ensures forall m :: 0 <= m < |at| ==> StandsAt(title, lines, m, at[m])
  {
    hide SectionAt, BlankLines, Marks, HeadingLines, Kept, StandsAt, HeadsOk, KeptAt;
    var marks := Marks(lines);
    var heads := HeadingLines(marks, |lines|);
    HeadingLinesOk(marks, |lines|);
    if Kept(title, lines, marks, heads, |lines|, |heads| + 1) != [] {
      at := KeptPlaces(title, lines, marks, heads, |lines|, |heads| + 1);
      forall m | 0 <= m < |at| ensures StandsAt(title, lines, m, at[m]) {
        KeptStands(title, lines, m, at[m]);
      }
    } else {
      at := [0];
      if heads != [] {
        HeadedSectionIsKept(title, lines, |heads|);
        KeptLast(title, lines, marks, heads, |lines|, |heads| + 1);
        assert false;
      }
      WholeStands(title, lines);
    }
  }

  lemma WholeSection(title: string, lines: seq<string>, marks: seq<Option<Heading>>)
    requires |lines| == |marks|
    ensures SectionAt(title, lines, marks, [], |lines|, 0) == Section([title], lines)
  {
    assert HeadingsAt(marks, [][..0]) == [];
    assert Visible([]) == [];
    assert [title] + Texts([]) == [title];
    assert lines[..|lines|] == lines;
  }

  /** The j-th chunk belongs to the i-th section: its path is the title followed by exactly those headings, as they are
      read off the lines up to the section's end, that no later one of the same or a higher rank has closed; its text
      is part of the section, and its ink comes after all that precedes the section and before all that follows it. */
  ghost predicate BelongsTo(title: string, body: string, target: int, j: nat, i: nat)
    requires j < |Seeds(title, body, target)|
  {
    var seeds, lines := Seeds(title, body, target), Lines(body);
    && i <= HeadingCount(lines)
    && seeds[j].headingPath == PathTo(title, FirstHeadings(lines, i))
    && AreHeadings(lines[..StartOf(lines, i + 1)], FirstHeadings(lines, i))
    && seeds[j].rawText in SectionTexts(NthSection(title, lines, i).lines, target)
    && InkOf(lines[..StartOf(lines, i)]) <= InkOf(RawTexts(seeds[..j]))
    && InkOf(RawTexts(seeds[..j + 1])) <= InkOf(lines[..StartOf(lines, i + 1)])
  }

  lemma HeadingsBeforeEnd(lines: seq<string>, i: nat)
    requires i <= HeadingCount(lines)
    ensures AreHeadings(lines[..StartOf(lines, i + 1)], FirstHeadings(lines, i))
  {
    hide ParseHeading, AreHeadings, FirstHeadings;
    FirstHeadingsAreShown(lines, i, StartOf(lines, i + 1));
  }

  lemma SeedBelongs(title: string, body: string, target: int, j: nat, i: nat)
    requires j < |Seeds(title, body, target)|
    requires StandsAt(title, Lines(body), SectionOfSeed(Sections(title, Lines(body)), target, j), i)
    ensures BelongsTo(title, body, target, j, i)
  {
    hide SectionTexts, Sections, Lines, HeadingCount, FirstHeadings, PathTo, InkOf, LinesOf, SeedsOf, StartOf,
         SectionOfSeed, AreHeadings;
    SeedInSection(Sections(title, Lines(body)), target, j);
    HeadingsBeforeEnd(Lines(body), i);
  }

  /** The chunks belong to sections of the body in the order in which they stand there. */
  lemma ChunkHeadingPath(title: string, body: string, target: int) returns (at: seq<nat>)
    ensures |at| == |Seeds(title, body, target)|
    ensures forall j :: 0 <= j < |at| ==> BelongsTo(title, body, target, j, at[j])
    ensures forall j, l :: 0 <= j <= l < |at| ==> at[j] <= at[l]
  {
    hide SectionTexts, Sections, Lines, HeadingCount, FirstHeadings, PathTo, InkOf, LinesOf, SeedsOf, StartOf,
         SectionOfSeed, AreHeadings, BelongsTo;
    var sections := Sections(title, Lines(body));
    var places := SectionPlaces(title, Lines(body));
    var seeds := Seeds(title, body, target);
    at := seq(|seeds|, j requires 0 <= j < |seeds| => places[SectionOfSeed(sections, target, j)]);
    forall j | 0 <= j < |at| ensures BelongsTo(title, body, target, j, at[j]) {
      assert StandsAt(title, Lines(body), SectionOfSeed(sections, target, j), at[j]);
      SeedBelongs(title, body, target, j, at[j]);
    }
    forall j, l | 0 <= j <= l < |at| ensures at[j] <= at[l] {
      SectionsOfSeedsInOrder(sections, target, j, l);
    }
  }

  // ----- Chunk records -----

  /** `a < b` on strings. */
  predicate Before(a: string, b: string) {
    b != "" && (a == "" || a[0] < b[0] || (a[0] == b[0] && Before(a[1..], b[1..])))
  }

  /** `classifyStaleness`; age gives the days since a date, 0 when it is no date. */
  function ClassifyStaleness(fm: Frontmatter, today: string, age: string -> int): Staleness {
    if fm.status == STATUS_SUPERSEDED then Superseded
    else if !fm.currentState then Stale
    else if fm.validFrom.Some? && fm.validFrom.value != "" && Before(today, fm.validFrom.value) then Stale
    else if fm.validUntil.Some? && fm.validUntil.value != "" && Before(fm.validUntil.value, today) then Stale
    else if age(fm.updated) > 180 then Stale
    else Current
  }

  function EstimateTokens(text: string): nat {
    if |text| == 0 then 1 else (|text| + 3) / 4
  }

  function IdOf(noteId: string, seed: Seed, index: nat): ChunkId {
    ChunkId(noteId, seed.headingPath, index, seed.rawText)
  }

  function UnlinkedChunk(note: Note, seed: Seed, index: nat, today: string, age: string -> int): Chunk {
    var fm := note.frontmatter;
    var n := |seed.headingPath|;
    Chunk(IdOf(note.noteId, seed, index), note.noteId, note.corpusId, fm.noteType, note.path, seed.headingPath,
          if n > 2 then Some(seed.headingPath[n - 2]) else None, None, None, seed.rawText, fm.scope, fm.tags,
          ClassifyStaleness(fm, today, age), fm.validFrom, fm.validUntil, EstimateTokens(seed.rawText), fm.updated)
  }

  function Linked(chunks: seq<Chunk>): (linked: seq<Chunk>)
    ensures |linked| == |chunks|
  {
    seq(|chunks|, i requires 0 <= i < |chunks| =>
      chunks[i].(prev := if i > 0 then Some(chunks[i - 1].id) else None,
                 next := if i + 1 < |chunks| then Some(chunks[i + 1].id) else None))
  }

  function Unlinked(note: Note, seeds: seq<Seed>, today: string, age: string -> int): (chunks: seq<Chunk>)
    ensures |chunks| == |seeds|
  {
    seq(|seeds|, i requires 0 <= i < |seeds| => UnlinkedChunk(note, seeds[i], i, today, age))
  }

  function ChunksOf(note: Note, target: int, today: string, age: string -> int): (chunks: seq<Chunk>)
    ensures chunks != []
  {
    Linked(Unlinked(note, Seeds(note.frontmatter.title, note.body, target), today, age))
  }

  method ChunkCanonicalNote(note: Note, target: int, today: string, age: string -> int) returns (chunks: seq<Chunk>)
    ensures chunks == ChunksOf(note, target, today, age)
  {
    hide Seeds;
    var seeds := ExtractSectionSeeds(note.frontmatter.title, note.body, target);
    chunks := Linked(Unlinked(note, seeds, today, age));
  }

  /** The chunks of a note are linked to their neighbours in both directions and have distinct ids. */
  lemma ChunksAreLinked(note: Note, target: int, today: string, age: string -> int)
    ensures IsLinked(ChunksOf(note, target, today, age))
  {
    hide Seeds;
  }

  /** Records that name their predecessor and successor, each with its own id. */
  ghost predicate IsLinked(chunks: seq<Chunk>) {
    && (forall i, j :: 0 <= i < j < |chunks| ==> chunks[i].id != chunks[j].id)
    && (forall i :: 0 <= i < |chunks| ==> LinkedAt(chunks, i))
  }

  predicate LinkedAt(chunks: seq<Chunk>, i: nat)
    requires i < |chunks|
  {
    && chunks[i].prev == (if i > 0 then Some(chunks[i - 1].id) else None)
    && chunks[i].next == (if i + 1 < |chunks| then Some(chunks[i + 1].id) else None)
  }

  /** The chunker meets what the stores and the promotion theorems ask of one. */
  lemma ChunkerIsGood(target: int, today: string, age: string -> int)
    ensures GoodChunker(note => ChunksOf(note, target, today, age))
  {
    hide Seeds;
    forall note: Note ensures ChunksOfNote(note, ChunksOf(note, target, today, age)) {
      ChunksAreLinked(note, target, today, age);
    }
  }
}
