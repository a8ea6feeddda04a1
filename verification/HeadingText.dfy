/** The text of a heading, read off its line. */
module HeadingText {
  import opened Headings
  import opened Text

  /** The text ends in white space and a run of hashes, and `t` is what stands before them. */
  ghost predicate Closes(s: string, t: string, j: nat) {
    && 0 < |t| < j < |s| && t <= s && !IsSpace(t[|t| - 1])
    && Blank(s, |t|, j) && forall i :: j <= i < |s| ==> s[i] == '#'
  }

  ghost predicate Closed(s: string, t: string) {
    exists j: nat :: Closes(s, t, j)
  }

  /** What a heading shows of the text between its outer white space: all of it, unless hashes set off by white space
      close it. */
  ghost predicate Shown(s: string, t: string) {
    Closed(s, t) || (t == s && forall u :: !Closed(s, u))
  }

  lemma DropHashesIs(s: string, j: nat)
    requires 0 < j <= |s| && s[j - 1] != '#' && forall i :: j <= i < |s| ==> s[i] == '#'
    ensures DropHashes(s) == s[..j]
  {
  }

  lemma TrimEndIs(s: string, m: nat)
    requires 0 < m <= |s| && !IsSpace(s[m - 1]) && Blank(s, m, |s|)
    ensures TrimEnd(s) == s[..m]
  {
    hide IsSpace;
    if m < |s| {
      TrimEndIs(s[..|s| - 1], m);
    }
  }

  lemma ClosedIsDropped(s: string, t: string, j: nat)
    requires s != "" && !IsSpace(s[0]) && Closes(s, t, j)
    ensures CleanHeading(s) == t
  {
    hide TrimEnd, TrimStart, DropHashes;
    assert IsSpace(s[j - 1]) && s[j - 1] != '#' by { assert Blank(s, |t|, j); }
    DropHashesIs(s, j);
    var d := s[..j];
    assert d[0] == s[0];
    TrimStartKeeps(d);
    TrimEndIs(d, |t|);
  }

  lemma TrimStartKeeps(s: string)
    requires s != "" && !IsSpace(s[0])
    ensures TrimStart(s) == s
  {
  }

  /** The last visible character of a text that does not begin with white space. */
  lemma LastVisible(s: string, j: nat) returns (m: nat)
    requires 0 < j <= |s| && !IsSpace(s[0])
    ensures 0 < m <= j && !IsSpace(s[m - 1]) && Blank(s, m, j)
  {
    hide IsSpace;
    if IsSpace(s[j - 1]) {
      m := LastVisible(s, j - 1);
    } else {
      m := j;
    }
  }

  lemma UnclosedIsKept(s: string)
    requires s != "" && Trimmed(s) && forall u :: !Closed(s, u)
    ensures CleanHeading(s) == s
  {
    hide DropHashes, Closed;
    var d := DropHashes(s);
    TrimOfTrimmed(s);
    if d != "" && IsSpace(d[|d| - 1]) {
      assert d[0] == s[0];
      var m := LastVisible(s, |d|);
      CloseIsFound(s, s[..m], |d|);
      assert false;
    }
  }

  lemma CloseIsFound(s: string, t: string, j: nat)
    requires Closes(s, t, j)
    ensures Closed(s, t)
  {
  }

  lemma CleanHeadingIff(s: string, t: string)
    requires s != "" && Trimmed(s)
    ensures CleanHeading(s) == t <==> Shown(s, t)
  {
    hide CleanHeading, Closes, IsSpace;
    if u :| Closed(s, u) {
      var j: nat :| Closes(s, u, j);
      ClosedIsDropped(s, u, j);
      if Closed(s, t) {
        var i: nat :| Closes(s, t, i);
        ClosedIsDropped(s, t, i);
      }
    } else {
      UnclosedIsKept(s);
    }
  }

  // ----- The whole line -----

  /** Nothing but white space follows the hashes. */
  predicate Bare(line: string, r: Reading)
    requires r.h <= |line|
  {
    Blank(line, r.h, |line|)
  }

  /** The reading of a heading line that takes its text from the first visible character to the last. */
  ghost predicate Shows(line: string, r: Reading, text: string) {
    && Matches(line, r)
    && if Bare(line, r) then text == ""
       else !IsSpace(line[r.k]) && !IsSpace(line[r.n - 1]) && Shown(line[r.k..r.n], text)
  }

  /** Where the parser stands after white space, hashes and white space. */
  lemma Positions(line: string, r: Reading)
    requires Matches(line, r)
    ensures SpaceEnd(line, 0) == r.w && HashEnd(line, r.w) == r.h < SpaceEnd(line, r.h)
    ensures !Bare(line, r) && !IsSpace(line[r.k]) ==> SpaceEnd(line, r.h) == r.k
    ensures Bare(line, r) ==> SpaceEnd(line, r.h) == |line| && |TrimEnd(line)| == r.h
    ensures !Bare(line, r) && !IsSpace(line[r.n - 1]) ==> |TrimEnd(line)| == r.n
  {
    hide IsSpace, IsLineTerminator, TrimEnd, SpaceEnd, HashEnd;
    HashIsVisible();
    SpaceEndIs(line, 0, r.w);
    assert IsSpace(line[r.h]) && line[r.h] != '#';
    HashEndIs(line, r.w, r.h);
    var k := SpaceEnd(line, r.h);
    if Bare(line, r) {
      TrimEndIs(line, r.h);
    } else {
      if !IsSpace(line[r.k]) {
        SpaceEndIs(line, r.h, r.k);
      }
      if !IsSpace(line[r.n - 1]) {
        TrimEndIs(line, r.n);
      }
    }
  }

  lemma ReadingShows(line: string, r: Reading, text: string)
    requires Shows(line, r, text)
    ensures ParseHeading(line) == Some(Heading(r.h - r.w, text))
  {
    hide IsSpace, IsLineTerminator, CleanHeading, TrimEnd, SpaceEnd, HashEnd, Shown, Blank;
    Positions(line, r);
    if Bare(line, r) {
      assert !IsLineTerminator(line[r.k]);
    } else {
      var visible := line[r.k..r.n];
      assert visible[0] == line[r.k] && visible[|visible| - 1] == line[r.n - 1];
      CleanHeadingIff(visible, text);
      assert !HasLineTerminator(visible);
    }
  }

  lemma HeadingIsShown(line: string) returns (r: Reading)
    requires ParseHeading(line).Some?
    ensures r.h - r.w == ParseHeading(line).value.level && Shows(line, r, ParseHeading(line).value.text)
  {
    hide IsSpace, IsLineTerminator, CleanHeading, TrimEnd, SpaceEnd, HashEnd, Shown;
    TrimEndShape(line);
    var w := SpaceEnd(line, 0);
    var h := HashEnd(line, w);
    var k, n := SpaceEnd(line, h), |TrimEnd(line)|;
    if k < n {
      r := Reading(w, h, k, n);
      var visible := line[k..n];
      assert visible[0] == line[k] && visible[|visible| - 1] == line[n - 1];
      CleanHeadingIff(visible, ParseHeading(line).value.text);
      forall i | k <= i < n ensures !IsLineTerminator(line[i]) {
        assert line[i] == visible[i - k];
      }
    } else {
      var i :| h < i < |line| && !IsLineTerminator(line[i]);
      r := Reading(w, h, i, i + 1);
    }
  }

  ghost predicate IsShown(line: string, h: Heading) {
    exists r: Reading :: r.h - r.w == h.level && Shows(line, r, h.text)
  }

  /** A line is a heading of this level and text exactly when it can be read so: hashes at its end belong to the text
      unless white space sets them off. */
  lemma HeadingTextIff(line: string, h: Heading)
    ensures ParseHeading(line) == Some(h) <==> IsShown(line, h)
  {
    hide ParseHeading, Shows;
    if ParseHeading(line) == Some(h) {
      var r := HeadingIsShown(line);
    }
    if r: Reading :| r.h - r.w == h.level && Shows(line, r, h.text) {
      ReadingShows(line, r, h.text);
    }
  }

  // ----- All headings of a text -----

  /** The headings stand at these lines, in order, and no other line can be read as one. */
  ghost predicate StandAt(lines: seq<string>, hs: seq<Heading>, at: seq<nat>) {
    && |at| == |hs|
    && (forall k :: 0 <= k < |at| ==> at[k] < |lines| && IsShown(lines[at[k]], hs[k]))
    && (forall k, l :: 0 <= k < l < |at| ==> at[k] < at[l])
    && (forall p, h :: 0 <= p < |lines| && p !in at ==> !IsShown(lines[p], h))
  }

  ghost predicate AreHeadings(lines: seq<string>, hs: seq<Heading>) {
    exists at: seq<nat> :: StandAt(lines, hs, at)
  }

  lemma HeadingLinesFound(marks: seq<Option<Heading>>, n: nat, p: nat)
    requires p < n <= |marks| && marks[p].Some?
    ensures p in HeadingLines(marks, n)
  {
  }

  lemma HeadingLinesBefore(marks: seq<Option<Heading>>, i: nat, p: nat)
    requires i <= |HeadingLines(marks, |marks|)| && p < |marks| && marks[p].Some?
    requires i < |HeadingLines(marks, |marks|)| ==> p < HeadingLines(marks, |marks|)[i]
    ensures p in HeadingLines(marks, |marks|)[..i]
  {
    var heads := HeadingLines(marks, |marks|);
    HeadingLinesFound(marks, |marks|, p);
    var k :| 0 <= k < |heads| && heads[k] == p;
    assert k < i;
    assert heads[..i][k] == p;
  }

  /** The first i headings are those of the lines before the next one. */
  lemma FirstHeadingsAreShown(lines: seq<string>, i: nat, stop: nat)
    requires i <= HeadingCount(lines)
    requires var heads := HeadingLines(Marks(lines), |lines|); stop == if i < |heads| then heads[i] else |lines|
    ensures AreHeadings(lines[..stop], FirstHeadings(lines, i))
  {
    hide ParseHeading, IsShown;
    var heads := HeadingLines(Marks(lines), |lines|);
    var at := heads[..i];
    var hs := FirstHeadings(lines, i);
    forall k | 0 <= k < |at| ensures at[k] < stop && IsShown(lines[at[k]], hs[k]) {
      HeadingTextIff(lines[at[k]], hs[k]);
    }
    forall p, h | 0 <= p < stop && p !in at ensures !IsShown(lines[p], h) {
      HeadingTextIff(lines[p], h);
      if Marks(lines)[p].Some? {
        HeadingLinesBefore(Marks(lines), i, p);
      }
    }
    assert StandAt(lines[..stop], hs, at);
  }
}
