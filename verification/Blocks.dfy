/** Paragraphs and fenced code, packed into chunk texts. */
module Blocks {
  import opened Text

  // ----- The characters that must survive -----

  /** The visible characters of a text, in order. */
  function Ink(s: string): string {
    if s == "" then ""
    else if IsSpace(s[0]) then Ink(s[1..])
    else [s[0]] + Ink(s[1..])
  }

  function InkOf(items: seq<string>): string {
    if items == [] then "" else Ink(items[0]) + InkOf(items[1..])
  }

  lemma {:induction false} InkAppend(a: string, b: string)
    ensures Ink(a + b) == Ink(a) + Ink(b)
  {
    if a == "" {
      assert a + b == b;
    } else {
      assert (a + b)[0] == a[0] && (a + b)[1..] == a[1..] + b;
      InkAppend(a[1..], b);
    }
  }

  lemma {:induction false} InkOfAppend(a: seq<string>, b: seq<string>)
    ensures InkOf(a + b) == InkOf(a) + InkOf(b)
  {
    if a == [] {
      assert a + b == b;
    } else {
      assert (a + b)[0] == a[0] && (a + b)[1..] == a[1..] + b;
      InkOfAppend(a[1..], b);
    }
  }

  lemma InkOfOne(s: string)
    ensures InkOf([s]) == Ink(s)
  {
    assert [s][1..] == [];
  }

  lemma {:induction false} InkOfBlank(s: string)
    requires forall i :: 0 <= i < |s| ==> IsSpace(s[i])
    ensures Ink(s) == ""
  {
    if s != "" {
      InkOfBlank(s[1..]);
    }
  }

  lemma InkOfTrim(s: string)
    ensures Ink(Trim(s)) == Ink(s)
  {
    hide TrimStart, TrimEnd;
    TrimStartShape(s);
    TrimEndShape(TrimStart(s));
    var t := TrimStart(s);
    var lead := s[..|s| - |t|];
    assert s == lead + t;
    InkOfBlank(lead);
    InkAppend(lead, t);
    var u := TrimEnd(t);
    assert t == u + t[|u|..];
    InkOfBlank(t[|u|..]);
    InkAppend(u, t[|u|..]);
  }

  lemma {:induction false} InkOfJoin(items: seq<string>, separator: string)
    requires Ink(separator) == ""
    ensures Ink(Join(items, separator)) == InkOf(items)
  {
    hide Ink;
    if items == [] {
      InkOfBlank("");
    } else if |items| == 1 {
      InkOfOne(items[0]);
      assert items == [items[0]];
    } else {
      InkOfJoin(items[1..], separator);
      InkAppend(items[0] + separator, Join(items[1..], separator));
      InkAppend(items[0], separator);
    }
  }

  lemma NewlinesAreBlank()
    ensures Ink("\n") == "" && Ink("\n\n") == ""
  {
    InkOfBlank("\n");
    InkOfBlank("\n\n");
  }

  // ----- Blocks -----

  predicate IsFence(line: string) {
    StartsWith(TrimStart(line), "```")
  }

  predicate IsBlank(line: string) {
    Trim(line) == ""
  }

  /** Texts that begin and end with a visible character. */
  predicate Visibles(texts: seq<string>) {
    forall i :: 0 <= i < |texts| ==> texts[i] != "" && Trimmed(texts[i])
  }

  function Flush(lines: seq<string>): (blocks: seq<string>)
    ensures Visibles(blocks)
  {
    var value := Trim(Join(lines, "\n"));
    TrimShape(Join(lines, "\n"));
    if value == "" then [] else [value]
  }

  /** `partitionIntoBlocks` from the middle of its loop. */
  function PartitionFrom(lines: seq<string>, current: seq<string>, inFence: bool): seq<string>
    decreases |lines|
  {
    if lines == [] then Flush(current)
    else if IsFence(lines[0]) then PartitionFrom(lines[1..], current + [lines[0]], !inFence)
    else if !inFence && IsBlank(lines[0]) then Flush(current) + PartitionFrom(lines[1..], [], inFence)
    else PartitionFrom(lines[1..], current + [lines[0]], inFence)
  }

  function Partition(lines: seq<string>): seq<string> {
    PartitionFrom(lines, [], false)
  }

  method PartitionIntoBlocks(lines: seq<string>) returns (blocks: seq<string>)
    ensures blocks == Partition(lines)
  {
    hide IsFence, IsBlank, Flush;
    var currentLines: seq<string> := [];
    var inCodeFence := false;
    blocks := [];
    assert lines[0..] == lines;
    for i := 0 to |lines|
      invariant blocks + PartitionFrom(lines[i..], currentLines, inCodeFence) == Partition(lines)
    {
      var line := lines[i];
      assert lines[i..][0] == line && lines[i..][1..] == lines[i + 1..];
      if IsFence(line) {
        inCodeFence := !inCodeFence;
        currentLines := currentLines + [line];
      } else if !inCodeFence && IsBlank(line) {
        blocks := blocks + Flush(currentLines);
        currentLines := [];
      } else {
        currentLines := currentLines + [line];
      }
    }
    assert lines[|lines|..] == [];
    blocks := blocks + Flush(currentLines);
  }

  /** Whether the lines leave a code fence open. */
  function FenceOpen(lines: seq<string>, inFence: bool): bool {
    if lines == [] then inFence
    else FenceOpen(lines[1..], if IsFence(lines[0]) then !inFence else inFence)
  }

  lemma BlankIsNoFence(line: string)
    requires IsBlank(line)
    ensures !IsFence(line)
  {
    hide TrimStart, TrimEnd, IsSpace;
    TrimStartShape(line);
    TrimEndShape(TrimStart(line));
    NoBacktickSpace();
  }

  lemma NoBacktickSpace()
    ensures !IsSpace('`')
  {
  }

  lemma {:induction false} SplitsAtBlank(a: seq<string>, line: string, b: seq<string>, current: seq<string>,
                                        inFence: bool)
    requires IsBlank(line) && !FenceOpen(a, inFence)
    ensures PartitionFrom(a + [line] + b, current, inFence) == PartitionFrom(a, current, inFence) + Partition(b)
    decreases |a|
  {
    hide IsFence, IsBlank, Flush;
    var all := a + [line] + b;
    if a == [] {
      BlankIsNoFence(line);
      assert all[0] == line && all[1..] == b;
    } else {
      assert all[0] == a[0] && all[1..] == a[1..] + [line] + b;
      if IsFence(a[0]) {
        SplitsAtBlank(a[1..], line, b, current + [a[0]], !inFence);
      } else if !inFence && IsBlank(a[0]) {
        SplitsAtBlank(a[1..], line, b, [], inFence);
      } else {
        SplitsAtBlank(a[1..], line, b, current + [a[0]], inFence);
      }
    }
  }

  lemma IsBlankIff(line: string)
    ensures IsBlank(line) <==> forall i :: 0 <= i < |line| ==> IsSpace(line[i])
  {
    hide IsSpace, TrimStart, TrimEnd;
    TrimShape(line);
    TrimStartShape(line);
    TrimEndShape(TrimStart(line));
    if forall i :: 0 <= i < |line| ==> IsSpace(line[i]) {
      assert TrimStart(line) == "";
    }
  }

  /** A line of nothing but white space separates blocks unless it stands inside a code fence. */
  lemma BlankLineSeparates(a: seq<string>, line: string, b: seq<string>)
    requires (forall i :: 0 <= i < |line| ==> IsSpace(line[i])) && !FenceOpen(a, false)
    ensures Partition(a + [line] + b) == Partition(a) + Partition(b)
  {
    IsBlankIff(line);
    SplitsAtBlank(a, line, b, [], false);
  }

  lemma {:induction false} StaysWhole(lines: seq<string>, current: seq<string>, inFence: bool)
    requires forall i :: 0 <= i < |lines| && IsBlank(lines[i]) ==> FenceOpen(lines[..i], inFence)
    ensures PartitionFrom(lines, current, inFence) == Flush(current + lines)
    decreases |lines|
  {
    hide IsFence, IsBlank, Flush;
    if lines == [] {
      assert current + lines == current;
    } else {
      var open := if IsFence(lines[0]) then !inFence else inFence;
      forall i | 0 <= i < |lines| - 1 && IsBlank(lines[1..][i]) ensures FenceOpen(lines[1..][..i], open) {
        assert lines[1..][i] == lines[i + 1];
        assert lines[..i + 1][1..] == lines[1..][..i] && lines[..i + 1][0] == lines[0];
      }
      if IsBlank(lines[0]) {
        BlankIsNoFence(lines[0]);
        assert lines[..0] == [];
      }
      StaysWhole(lines[1..], current + [lines[0]], open);
      assert current + [lines[0]] + lines[1..] == current + lines;
    }
  }

  /** Lines whose only blank ones stand inside a code fence make one block. */
  lemma FenceStaysWhole(lines: seq<string>)
    requires forall i :: 0 <= i < |lines| && IsBlank(lines[i]) ==> FenceOpen(lines[..i], false)
    ensures Partition(lines) == Flush(lines)
  {
    StaysWhole(lines, [], false);
    assert [] + lines == lines;
  }

  lemma InkOfFlush(lines: seq<string>)
    ensures InkOf(Flush(lines)) == InkOf(lines)
  {
    var text := Join(lines, "\n");
    NewlinesAreBlank();
    InkOfJoin(lines, "\n");
    InkOfTrim(text);
    InkOfOne(Trim(text));
    InkOfBlank("");
  }

  lemma {:induction false} InkOfPartition(lines: seq<string>, current: seq<string>, inFence: bool)
    ensures InkOf(PartitionFrom(lines, current, inFence)) == InkOf(current) + InkOf(lines)
    decreases |lines|
  {
    hide IsFence, IsBlank, Flush, Ink;
    if lines == [] {
      InkOfFlush(current);
    } else {
      InkOfAppend(current, [lines[0]]);
      InkOfOne(lines[0]);
      if IsFence(lines[0]) {
        InkOfPartition(lines[1..], current + [lines[0]], !inFence);
      } else if !inFence && IsBlank(lines[0]) {
        InkOfPartition(lines[1..], [], inFence);
        InkOfAppend(Flush(current), PartitionFrom(lines[1..], [], inFence));
        InkOfFlush(current);
        BlankHasNoInk(lines[0]);
      } else {
        InkOfPartition(lines[1..], current + [lines[0]], inFence);
      }
    }
  }

  lemma BlankHasNoInk(line: string)
    requires IsBlank(line)
    ensures Ink(line) == ""
  {
    InkOfTrim(line);
    InkOfBlank("");
  }

  lemma {:induction false} BlocksAreVisible(lines: seq<string>, current: seq<string>, inFence: bool)
    ensures Visibles(PartitionFrom(lines, current, inFence))
    decreases |lines|
  {
    hide IsFence, IsBlank, Trimmed;
    if lines != [] {
      BlocksAreVisible(lines[1..], current + [lines[0]], !inFence);
      BlocksAreVisible(lines[1..], current + [lines[0]], inFence);
      BlocksAreVisible(lines[1..], [], inFence);
    }
  }

  // ----- Packing -----

  function Glue(group: seq<string>): string {
    Join(group, "\n\n")
  }

  /** The greedy grouping, with a group already begun. */
  function PackFrom(current: seq<string>, blocks: seq<string>, target: int): (groups: seq<seq<string>>)
    requires current != []
    ensures groups != [] && current <= groups[0]
    decreases |blocks|
  {
    if blocks == [] then [current]
    else if |Glue(current + [blocks[0]])| <= target then PackFrom(current + [blocks[0]], blocks[1..], target)
    else [current] + PackFrom([blocks[0]], blocks[1..], target)
  }

  function Pack(blocks: seq<string>, target: int): seq<seq<string>> {
    if blocks == [] then [] else PackFrom([blocks[0]], blocks[1..], target)
  }

  function Flatten(groups: seq<seq<string>>): seq<string> {
    if groups == [] then [] else groups[0] + Flatten(groups[1..])
  }

  /** Nothing is lost or reordered, every group fits or is a single block, and no group could have taken
      the first block of the next. */
  ghost predicate Greedy(groups: seq<seq<string>>, blocks: seq<string>, target: int) {
    && Flatten(groups) == blocks
    && (forall i :: 0 <= i < |groups| ==> groups[i] != [] && (|Glue(groups[i])| <= target || |groups[i]| == 1))
    && (forall i :: 0 < i < |groups| ==> groups[i] != [] && |Glue(groups[i - 1] + [groups[i][0]])| > target)
  }

  lemma {:induction false} PackFromIsGreedy(current: seq<string>, blocks: seq<string>, target: int)
    requires current != [] && (|Glue(current)| <= target || |current| == 1)
    ensures Greedy(PackFrom(current, blocks, target), current + blocks, target)
    decreases |blocks|
  {
    hide Glue;
    if blocks == [] {
      assert [current][1..] == [];
      assert Flatten([current]) == current + [];
      assert current + blocks == current + [];
    } else {
      assert current + [blocks[0]] + blocks[1..] == current + blocks;
      if |Glue(current + [blocks[0]])| <= target {
        PackFromIsGreedy(current + [blocks[0]], blocks[1..], target);
      } else {
        var rest := PackFrom([blocks[0]], blocks[1..], target);
        PackFromIsGreedy([blocks[0]], blocks[1..], target);
        var groups := [current] + rest;
        assert groups[1..] == rest;
        assert [blocks[0]] + blocks[1..] == blocks;
        assert groups[1][0] == blocks[0];
      }
    }
  }

  lemma PackIsGreedy(blocks: seq<string>, target: int)
    ensures Greedy(Pack(blocks, target), blocks, target)
  {
    if blocks != [] {
      PackFromIsGreedy([blocks[0]], blocks[1..], target);
      assert [blocks[0]] + blocks[1..] == blocks;
    }
  }

  function GlueAll(groups: seq<seq<string>>): (texts: seq<string>)
    ensures |texts| == |groups|
  {
    seq(|groups|, i requires 0 <= i < |groups| => Trim(Glue(groups[i])))
  }

  /** `splitLargeSection` */
  function SectionTexts(lines: seq<string>, target: int): (texts: seq<string>)
    ensures texts != []
  {
    var groups := Pack(Partition(lines), target);
    if groups == [] then [Trim(Join(lines, "\n"))] else GlueAll(groups)
  }

  lemma GlueMore(group: seq<string>, block: string)
    requires group != []
    ensures Glue(group + [block]) == Glue(group) + "\n\n" + block
  {
    if |group| == 1 {
      assert (group + [block])[1..] == [block] && (group + [block])[0] == group[0];
      GlueOne(block);
    } else {
      assert (group + [block])[1..] == group[1..] + [block];
      GlueMore(group[1..], block);
      assert group[0] + "\n\n" + (Glue(group[1..]) + "\n\n" + block) ==
          group[0] + "\n\n" + Glue(group[1..]) + "\n\n" + block;
    }
  }

  lemma GlueIsVisible(group: seq<string>)
    requires group != [] && Visibles(group)
    ensures Glue(group) != "" && Trimmed(Glue(group)) && Trim(Glue(group)) == Glue(group)
  {
    if |group| > 1 {
      GlueIsVisible(group[1..]);
      var text := Glue(group);
      assert text[0] == group[0][0];
      assert text[|text| - 1] == Glue(group[1..])[|Glue(group[1..])| - 1];
    }
    TrimOfTrimmed(Glue(group));
  }

  lemma GlueOne(block: string)
    ensures Glue([block]) == block
  {
  }

  method SplitLargeSection(lines: seq<string>, target: int) returns (chunks: seq<string>)
    ensures chunks == SectionTexts(lines, target)
  {
    hide Glue, Trim, Trimmed, Partition, Join;
    var blocks := PartitionIntoBlocks(lines);
    assert Visibles(blocks) by { BlocksAreVisible(lines, [], false); PartitionIs(lines); }
    var current := "";
    chunks := [];
    ghost var group: seq<string> := [];
    ghost var closed: seq<seq<string>> := [];
    for i := 0 to |blocks|
      invariant i == 0 ==> current == "" && closed == []
      invariant i > 0 ==> group != [] && Visibles(group) && current == Glue(group) && current != ""
      invariant i > 0 ==> Pack(blocks, target) == closed + PackFrom(group, blocks[i..], target)
      invariant chunks == GlueAll(closed)
    {
      var block := blocks[i];
      var candidate := if current != "" then current + "\n\n" + block else block;
      GlueOne(block);
      ghost var rest := blocks[i..];
      assert rest[0] == block && rest[1..] == blocks[i + 1..];
      if i > 0 {
        GlueMore(group, block);
      }
      if |candidate| <= target || current == "" {
        current := candidate;
        group := if i == 0 then [block] else group + [block];
      } else {
        chunks := chunks + [Trim(current)];
        closed := closed + [group];
        assert GlueAll(closed) == chunks;
        current := block;
        group := [block];
      }
      GlueIsVisible(group);
    }
    if |blocks| > 0 {
      assert blocks[|blocks|..] == [];
      GlueIsVisible(group);
      assert GlueAll(closed + [group]) == chunks + [Trim(current)];
    } else {
      assert Trim("") == "" by { TrimOfTrimmed(""); EmptyIsTrimmed(); }
    }
    if Trim(current) != "" {
      chunks := chunks + [Trim(current)];
    }
    if chunks == [] {
      chunks := [Trim(Join(lines, "\n"))];
    }
  }

  lemma EmptyIsTrimmed()
    ensures Trimmed("")
  {
  }

  lemma PartitionIs(lines: seq<string>)
    ensures Partition(lines) == PartitionFrom(lines, [], false)
  {
  }

  /** Splitting a section keeps its visible characters, in order. */
  lemma SplitKeepsInk(lines: seq<string>, target: int)
    ensures InkOf(SectionTexts(lines, target)) == InkOf(lines)
  {
    hide Pack, Partition, Glue, Trim;
    var groups := Pack(Partition(lines), target);
    PackIsGreedy(Partition(lines), target);
    PartitionIs(lines);
    InkOfPartition(lines, [], false);
    if groups == [] {
      NewlinesAreBlank();
      InkOfJoin(lines, "\n");
      InkOfTrim(Join(lines, "\n"));
      InkOfOne(Trim(Join(lines, "\n")));
    } else {
      InkOfGlued(groups);
    }
  }

  lemma {:induction false} InkOfGlued(groups: seq<seq<string>>)
    ensures InkOf(GlueAll(groups)) == InkOf(Flatten(groups))
  {
    hide Trim, Join, Ink;
    if groups != [] {
      var text := Glue(groups[0]);
      InkOfGlued(groups[1..]);
      assert GlueAll(groups)[1..] == GlueAll(groups[1..]);
      NewlinesAreBlank();
      InkOfJoin(groups[0], "\n\n");
      InkOfTrim(text);
      InkOfAppend(groups[0], Flatten(groups[1..]));
    }
  }

  /** The texts of a section are its blocks, packed greedily. */
  lemma SplitIsGreedy(lines: seq<string>, target: int)
    ensures var groups := Pack(Partition(lines), target);
            && Greedy(groups, Partition(lines), target)
            && (groups != [] ==>
                  && |SectionTexts(lines, target)| == |groups|
                  && forall i :: 0 <= i < |groups| ==> SectionTexts(lines, target)[i] == Glue(groups[i]))
  {
    hide Pack, Partition, Glue, Trim, Trimmed;
    var blocks := Partition(lines);
    var groups := Pack(blocks, target);
    PackIsGreedy(blocks, target);
    PartitionIs(lines);
    BlocksAreVisible(lines, [], false);
    forall i | 0 <= i < |groups| ensures Trim(Glue(groups[i])) == Glue(groups[i]) {
      GroupIsVisible(groups, i);
      GlueIsVisible(groups[i]);
    }
  }

  lemma GroupIsVisible(groups: seq<seq<string>>, i: nat)
    requires i < |groups| && Visibles(Flatten(groups))
    ensures Visibles(groups[i])
  {
    hide Trimmed;
    var rest := Flatten(groups[1..]);
    var all := Flatten(groups);
    assert all == groups[0] + rest;
    if i == 0 {
      forall k | 0 <= k < |groups[0]| ensures groups[0][k] != "" && Trimmed(groups[0][k]) {
        assert all[k] == groups[0][k];
      }
    } else {
      forall k | 0 <= k < |rest| ensures rest[k] != "" && Trimmed(rest[k]) {
        assert all[|groups[0]| + k] == rest[k];
      }
      GroupIsVisible(groups[1..], i - 1);
    }
  }
}
