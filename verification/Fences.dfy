/** Fenced code in a note: when chunking keeps it in one block. */
module Fences {
  import opened Blocks
  import opened Chunking
  import opened Headings
  import opened Text

  // ----- In one section -----

  /** Lines p to q open with a fence, close with the next fence, and p is not itself inside one. */
  predicate Fenced(lines: seq<string>, p: nat, q: nat) {
    && p < q < |lines| && IsFence(lines[p]) && IsFence(lines[q])
    && (forall k :: p < k < q ==> !IsFence(lines[k]))
    && !FenceOpen(lines[..p], false)
  }

  /** Lines s to e make one block: what stands before and after is divided on its own. */
  predicate OneBlock(lines: seq<string>, s: nat, e: nat) {
    && s <= e <= |lines|
    && Partition(lines) == Partition(lines[..s]) + Flush(lines[s..e]) + Partition(lines[e..])
  }

  lemma {:induction false} FenceOpenAppend(a: seq<string>, b: seq<string>, inFence: bool)
    ensures FenceOpen(a + b, inFence) == FenceOpen(b, FenceOpen(a, inFence))
    decreases |a|
  {
    hide IsFence;
    if a == [] {
      assert a + b == b;
    } else {
      assert (a + b)[0] == a[0] && (a + b)[1..] == a[1..] + b;
      FenceOpenAppend(a[1..], b, if IsFence(a[0]) then !inFence else inFence);
    }
  }

  lemma NothingToFlush()
    ensures Partition([]) == []
  {
    assert Join([], "\n") == "";
    TrimOfTrimmed("");
  }

  /** A blank line outside a fence may be counted to either side. */
  lemma BlankBelongsNowhere(a: seq<string>, line: string, b: seq<string>)
    requires IsBlank(line) && !FenceOpen(a, false)
    ensures Partition(a + [line]) == Partition(a) && Partition([line] + b) == Partition(b)
    ensures Partition(a + [line] + b) == Partition(a) + Partition(b)
  {
    hide IsBlank, Partition;
    NothingToFlush();
    IsBlankIff(line);
    BlankLineSeparates(a, line, []);
    assert a + [line] + [] == a + [line];
    assert !FenceOpen([], false);
    BlankLineSeparates([], line, b);
    assert [] + [line] + b == [line] + b;
    BlankLineSeparates(a, line, b);
  }

  /** Where the block starts that holds line p: after the last blank line outside a fence before it. */
  lemma {:induction false} BlockStart(lines: seq<string>, p: nat) returns (s: nat)
    requires p <= |lines| && !FenceOpen(lines[..p], false)
    ensures s <= p && !FenceOpen(lines[..s], false)
    ensures Partition(lines) == Partition(lines[..s]) + Partition(lines[s..])
    ensures forall i :: s <= i < p && IsBlank(lines[i]) ==> FenceOpen(lines[..i], false)
    decreases p
  {
    hide IsBlank, Partition, IsFence;
    if forall i :: 0 <= i < p && IsBlank(lines[i]) ==> FenceOpen(lines[..i], false) {
      s := 0;
      NothingToFlush();
      assert lines[..0] == [] && lines[0..] == lines;
      assert !FenceOpen([], false);
    } else {
      var i := LastBlank(lines, p);
      s := i + 1;
      assert lines == lines[..i] + [lines[i]] + lines[s..] && lines[..s] == lines[..i] + [lines[i]];
      BlankBelongsNowhere(lines[..i], lines[i], lines[s..]);
      FenceOpenAppend(lines[..i], [lines[i]], false);
      BlankKeepsFence(lines[i], false);
    }
  }

  lemma BlankKeepsFence(line: string, inFence: bool)
    requires IsBlank(line)
    ensures FenceOpen([line], inFence) == inFence
  {
    BlankIsNoFence(line);
    assert [line][1..] == [];
  }

  /** The last blank line outside a fence before p. */
  lemma {:induction false} LastBlank(lines: seq<string>, p: nat) returns (i: nat)
    requires p <= |lines| && exists k :: 0 <= k < p && IsBlank(lines[k]) && !FenceOpen(lines[..k], false)
    ensures i < p && IsBlank(lines[i]) && !FenceOpen(lines[..i], false)
    ensures forall k :: i < k < p && IsBlank(lines[k]) ==> FenceOpen(lines[..k], false)
    decreases p
  {
    hide IsBlank, FenceOpen;
    if IsBlank(lines[p - 1]) && !FenceOpen(lines[..p - 1], false) {
      i := p - 1;
    } else {
      i := LastBlank(lines, p - 1);
    }
  }

  /** Where a block ends that starts here: before the next blank line outside a fence. */
  lemma {:induction false} BlockEnd(lines: seq<string>, from: nat) returns (e: nat)
    requires from <= |lines|
    requires forall i :: 0 <= i < from && IsBlank(lines[i]) ==> FenceOpen(lines[..i], false)
    ensures from <= e <= |lines|
    ensures forall i :: 0 <= i < e && IsBlank(lines[i]) ==> FenceOpen(lines[..i], false)
    ensures e < |lines| ==> IsBlank(lines[e]) && !FenceOpen(lines[..e], false)
    decreases |lines| - from
  {
    hide IsBlank, FenceOpen;
    if from == |lines| || (IsBlank(lines[from]) && !FenceOpen(lines[..from], false)) {
      e := from;
    } else {
      e := BlockEnd(lines, from + 1);
    }
  }

  /** Between the two fences everything is inside. */
  lemma {:induction false} InsideIsOpen(lines: seq<string>, p: nat, q: nat, k: nat)
    requires Fenced(lines, p, q) && p < k <= q
    ensures FenceOpen(lines[..k], false)
    decreases k
  {
    hide IsFence;
    assert lines[..k] == lines[..k - 1] + [lines[k - 1]];
    FenceOpenAppend(lines[..k - 1], [lines[k - 1]], false);
    assert [lines[k - 1]][1..] == [];
    if k - 1 > p {
      InsideIsOpen(lines, p, q, k - 1);
    }
  }

  /** Within one section, fenced lines always lie in one block. */
  lemma {:induction false} FencedIsOneBlock(lines: seq<string>, p: nat, q: nat) returns (s: nat, e: nat)
    requires Fenced(lines, p, q)
    ensures s <= p && q < e && OneBlock(lines, s, e)
  {
    hide IsBlank, Partition, IsFence, FenceOpen, Flush;
    s := BlockStart(lines, p);
    var rest := lines[s..];
    forall i | 0 <= i < q + 1 - s && IsBlank(rest[i]) ensures FenceOpen(rest[..i], false) {
      assert lines[..s + i] == lines[..s] + rest[..i];
      FenceOpenAppend(lines[..s], rest[..i], false);
      InsideOrBefore(lines, p, q, s, s + i);
    }
    var n := BlockEnd(rest, q + 1 - s);
    e := s + n;
    FenceStaysWhole(rest[..n]) by {
      forall i | 0 <= i < n && IsBlank(rest[..n][i]) ensures FenceOpen(rest[..n][..i], false) {
        assert rest[..n][..i] == rest[..i];
      }
    }
    assert rest[..n] == lines[s..e];
    RestIsDivided(rest, n);
    assert rest[n..] == lines[e..];
  }

  lemma InsideOrBefore(lines: seq<string>, p: nat, q: nat, s: nat, k: nat)
    requires Fenced(lines, p, q) && s <= p && s <= k <= q && IsBlank(lines[k])
    requires forall i :: s <= i < p && IsBlank(lines[i]) ==> FenceOpen(lines[..i], false)
    ensures FenceOpen(lines[..k], false)
  {
    hide IsBlank, IsFence, FenceOpen;
    if k == p {
      BlankIsNoFence(lines[p]);
    } else if k > p {
      InsideIsOpen(lines, p, q, k);
    }
  }

  lemma RestIsDivided(rest: seq<string>, n: nat)
    requires n <= |rest| && (n < |rest| ==> IsBlank(rest[n]) && !FenceOpen(rest[..n], false))
    ensures Partition(rest) == Partition(rest[..n]) + Partition(rest[n..])
  {
    hide IsBlank, Partition, FenceOpen;
    if n == |rest| {
      NothingToFlush();
      assert rest[..n] == rest && rest[n..] == [];
    } else {
      assert rest == rest[..n] + [rest[n]] + rest[n + 1..] && rest[n..] == [rest[n]] + rest[n + 1..];
      BlankBelongsNowhere(rest[..n], rest[n], rest[n + 1..]);
    }
  }

  // ----- In a whole note -----

  ghost predicate InOneBlock(lines: seq<string>, p: nat, q: nat) {
    exists s: nat, e: nat :: s <= p && q < e && OneBlock(lines, s, e)
  }

  /** Lines p and q of the note lie in one block of the i-th section. */
  ghost predicate SharesBlock(title: string, lines: seq<string>, i: nat, p: nat, q: nat)
    requires i <= HeadingCount(lines)
  {
    hide ParseHeading, Marks, HeadingLines, FenceOpen;
    && StartOf(lines, i) <= p <= q < StartOf(lines, i + 1)
    && InOneBlock(NthSection(title, lines, i).lines, p - StartOf(lines, i), q - StartOf(lines, i))
  }

  /** The lines of the i-th section: those of the note, but for the white space around its heading. */
  lemma SectionLines(title: string, lines: seq<string>, i: nat)
    requires i <= HeadingCount(lines)
    ensures var section, start, stop := NthSection(title, lines, i).lines, StartOf(lines, i), StartOf(lines, i + 1);
            && start <= stop && |section| == stop - start
            && (forall k :: 0 <= k < |section| && (i > 0 ==> k > 0) ==> section[k] == lines[start + k])
            && (i > 0 ==> start < stop && section[0] == Trim(lines[start]) && ParseHeading(lines[start]).Some?)
  {
    hide ParseHeading, PathTo, Trim;
    HeadingLinesOk(Marks(lines), |lines|);
    var heads := HeadingLines(Marks(lines), |lines|);
    if i > 0 {
      assert Marks(lines)[heads[i - 1]].Some?;
    }
  }

  /** A heading is no fence, trimmed or not. */
  lemma HeadingIsNoFence(line: string)
    requires ParseHeading(line).Some?
    ensures !IsFence(line) && !IsFence(Trim(line))
  {
    hide IsSpace, ParseHeading, TrimStart, TrimEnd;
    var r := HeadingHasReading(line);
    HashStarts(line, r.w);
    TrimStartShape(line);
    TrimEndShape(TrimStart(line));
    TrimShape(line);
    TrimOfTrimmed(Trim(line));
  }

  lemma HashStarts(line: string, w: nat)
    requires w < |line| && line[w] == '#' && forall i :: 0 <= i < w ==> IsSpace(line[i])
    ensures TrimStart(line) != "" && TrimStart(line)[0] == '#' && Trim(line) != "" && Trim(line)[0] == '#'
  {
    HashIsVisible();
    TrimStartDropsSpaces(line[..w], line[w..]);
    assert line[..w] + line[w..] == line;
    TrimEndShape(line[w..]);
    assert forall c :: c in line[..w] ==> IsSpace(c);
  }

  lemma {:induction false} HeadingIsListed(marks: seq<Option<Heading>>, n: nat, k: nat)
    requires k < n <= |marks| && marks[k].Some?
    ensures exists j :: 0 <= j < |HeadingLines(marks, n)| && HeadingLines(marks, n)[j] == k
  {
    var heads := HeadingLines(marks, n);
    if k == n - 1 {
      assert heads[|heads| - 1] == k;
    } else {
      HeadingIsListed(marks, n - 1, k);
      var before := HeadingLines(marks, n - 1);
      var j :| 0 <= j < |before| && before[j] == k;
      assert heads[j] == k;
    }
  }

  /** A section ends before the next heading. */
  lemma NextHeading(lines: seq<string>, i: nat, p: nat, q: nat)
    requires i <= HeadingCount(lines) && StartOf(lines, i) <= p < StartOf(lines, i + 1) && p < q < |lines|
    ensures q < StartOf(lines, i + 1) <==> forall k :: p < k <= q ==> ParseHeading(lines[k]).None?
  {
    hide ParseHeading;
    var marks := Marks(lines);
    var heads := HeadingLines(marks, |lines|);
    HeadingLinesOk(marks, |lines|);
    if k :| p < k <= q && ParseHeading(lines[k]).Some? {
      HeadingIsListed(marks, |lines|, k);
      var j :| 0 <= j < |heads| && heads[j] == k;
      assert j >= i;
    }
    if q >= StartOf(lines, i + 1) {
      assert marks[heads[i]].Some?;
    }
  }

  /** A fenced piece of a section is kept in one block exactly when none of its lines is taken for a heading: headings
      are looked for first and without regard to fences, so that a comment line such as `# build` inside one cuts it.
     */
  lemma {:induction false} FencedCodeStaysWholeIff(title: string, lines: seq<string>, i: nat, p: nat, q: nat)
    requires i <= HeadingCount(lines) && StartOf(lines, i) <= p < StartOf(lines, i + 1)
    requires p < q < |lines| && IsFence(lines[p]) && IsFence(lines[q]) && forall k :: p < k < q ==> !IsFence(lines[k])
    requires p - StartOf(lines, i) <= |NthSection(title, lines, i).lines|
    requires !FenceOpen(NthSection(title, lines, i).lines[..p - StartOf(lines, i)], false)
    ensures SharesBlock(title, lines, i, p, q) <==> forall k :: p < k < q ==> ParseHeading(lines[k]).None?
  {
    hide ParseHeading, StartOf, NthSection, HeadingCount, IsFence, OneBlock, FenceOpen;
    NextHeading(lines, i, p, q);
    if ParseHeading(lines[q]).Some? {
      HeadingIsNoFence(lines[q]);
    }
    if q < StartOf(lines, i + 1) {
      SectionLines(title, lines, i);
      var section, start := NthSection(title, lines, i).lines, StartOf(lines, i);
      if i > 0 && p == start {
        HeadingIsNoFence(lines[p]);
      }
      assert Fenced(section, p - start, q - start);
      var s, e := FencedIsOneBlock(section, p - start, q - start);
      assert OneBlock(section, s, e);
    }
  }
}
