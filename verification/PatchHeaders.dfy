/** What the headers of a patch say: the names in its manifest and the lines it changes. */
module PatchHeaders {
  import opened PatchFiles
  import opened PatchTool
  import opened Text

  lemma StartsNot(s: string, prefix: string, k: nat)
    requires k < |prefix| && k < |s| && s[k] != prefix[k]
    ensures !StartsWith(s, prefix)
  {
  }

  lemma StartsCons(c: char, s: string, prefix: string)
    ensures StartsWith([c] + s, [c] + prefix) <==> StartsWith(s, prefix)
  {
    if StartsWith([c] + s, [c] + prefix) {
      assert ([c] + s)[1..|prefix| + 1] == s[..|prefix|];
    }
  }

  // ----- One header line -----

  /** Blanks that stay in one column: white space but no tab. */
  predicate Padding(s: string) {
    forall i :: 0 <= i < |s| ==> IsPySpace(s[i]) && s[i] != '\t'
  }

  predicate IsTail(s: string) {
    s == "" || s[0] == '\t'
  }

  /** A name that a header can carry after the given prefix. */
  predicate IsName(prefix: string, name: string) {
    && name != "" && name != "/dev/null" && '\t' !in name
    && !IsPySpace((prefix + name)[0]) && !IsPySpace(name[|name| - 1])
    && (prefix == "b/" || (prefix == "" && !StartsWith(name, "b/")))
  }

  /** A line that names a file: the mark, the name with or without git's prefix, and a column that does not matter. */
  ghost predicate Names(line: string, name: string) {
    exists before, prefix, after, tail ::
      && line == "+++ " + before + prefix + name + after + tail
      && Padding(before) && IsName(prefix, name) && Padding(after) && IsTail(tail)
  }

  lemma LStripDrops(before: string, s: string)
    requires Padding(before) && s != "" && !IsPySpace(s[0])
    ensures LStrip(before + s) == s
  {
    if before == "" {
      assert before + s == s;
    } else {
      assert (before + s)[1..] == before[1..] + s;
      LStripDrops(before[1..], s);
    }
  }

  lemma RStripDrops(s: string, after: string)
    requires Padding(after) && s != "" && !IsPySpace(s[|s| - 1])
    ensures RStrip(s + after) == s
  {
    if after == "" {
      assert s + after == s;
    } else {
      assert (s + after)[..|s + after| - 1] == s + after[..|after| - 1];
      RStripDrops(s, after[..|after| - 1]);
    }
  }

  lemma BeforeTabIs(s: string, tail: string)
    requires '\t' !in s && IsTail(tail)
    ensures BeforeTab(s + tail) == s
  {
    if s == "" {
      assert s + tail == tail;
    } else {
      assert (s + tail)[1..] == s[1..] + tail;
      BeforeTabIs(s[1..], tail);
    }
  }

  lemma BeforeTabSplits(s: string) returns (tail: string)
    ensures s == BeforeTab(s) + tail && IsTail(tail)
  {
    if s == "" || s[0] == '\t' {
      tail := s;
    } else {
      tail := BeforeTabSplits(s[1..]);
    }
  }

  lemma LStripSplits(s: string) returns (before: string)
    requires '\t' !in s
    ensures s == before + LStrip(s) && Padding(before)
  {
    before := "";
    if s != "" && IsPySpace(s[0]) {
      var more := LStripSplits(s[1..]);
      before := [s[0]] + more;
    }
  }

  lemma RStripSplits(s: string) returns (after: string)
    requires '\t' !in s
    ensures s == RStrip(s) + after && Padding(after)
  {
    after := "";
    if s != "" && IsPySpace(s[|s| - 1]) {
      var more := RStripSplits(s[..|s| - 1]);
      after := more + [s[|s| - 1]];
    }
  }

  lemma Regroup(before: string, prefix: string, name: string, after: string, tail: string)
    ensures "+++ " + (before + ((prefix + name) + after) + tail) == "+++ " + before + prefix + name + after + tail
  {
  }

  lemma NamedIsPrinted(line: string, name: string)
    requires HeaderFile(line) == Some(name)
    ensures Names(line, name)
  {
    hide IsPySpace, LStrip, RStrip, BeforeTab;
    var column := BeforeTab(line[4..]);
    var raw := RStrip(LStrip(column));
    var prefix := if StartsWith(raw, "b/") then "b/" else "";
    assert raw == prefix + name;
    var tail := BeforeTabSplits(line[4..]);
    var before := LStripSplits(column);
    assert '\t' !in LStrip(column) by {
      assert forall c :: c in LStrip(column) ==> c in column;
    }
    var after := RStripSplits(LStrip(column));
    assert IsName(prefix, name) by { NameIsName(column, raw, prefix, name); }
    hide IsName, Padding, IsTail;
    assert line == "+++ " + line[4..];
    Regroup(before, prefix, name, after, tail);
  }

  lemma NameIsName(column: string, raw: string, prefix: string, name: string)
    requires '\t' !in LStrip(column) && raw == RStrip(LStrip(column)) == prefix + name
    requires prefix == if StartsWith(raw, "b/") then "b/" else ""
    requires name != "" && name != "/dev/null"
    ensures IsName(prefix, name)
  {
    hide IsPySpace, LStrip, RStrip;
    assert raw[0] == LStrip(column)[0] && raw[|raw| - 1] == name[|name| - 1];
    assert '\t' !in name by {
      assert forall c :: c in name ==> c in raw && c in LStrip(column);
    }
    assert prefix == "" ==> raw == name;
  }

  lemma PrintedIsNamed(line: string, before: string, prefix: string, name: string, after: string, tail: string)
    requires line == "+++ " + before + prefix + name + after + tail
    requires Padding(before) && IsName(prefix, name) && Padding(after) && IsTail(tail)
    ensures HeaderFile(line) == Some(name)
  {
    hide IsPySpace, LStrip, RStrip, BeforeTab;
    var raw := prefix + name;
    assert line[4..] == (before + raw + after) + tail;
    BeforeTabIs(before + raw + after, tail);
    assert before + raw + after == before + (raw + after);
    LStripDrops(before, raw + after);
    RStripDrops(raw, after);
    if prefix == "b/" {
      assert raw[..2] == "b/" && raw[2..] == name;
    } else {
      assert raw == name;
    }
  }

  /** A header names exactly the file that is printed in it: git's prefix, the column after the first tab and outer
      white space do not belong to the name, and neither a deletion nor any other line names a file. */
  lemma HeaderNamesIff(line: string, name: string)
    ensures HeaderFile(line) == Some(name) <==> Names(line, name)
  {
    hide HeaderFile, IsName, Padding, IsTail;
    if HeaderFile(line) == Some(name) {
      NamedIsPrinted(line, name);
    }
    if Names(line, name) {
      var before, prefix, after, tail :|
        && line == "+++ " + before + prefix + name + after + tail
        && Padding(before) && IsName(prefix, name) && Padding(after) && IsTail(tail);
      PrintedIsNamed(line, before, prefix, name, after, tail);
    }
  }

  /** git's headers with their prefix, headers without, deletions and lines that are no headers. */
  lemma HeaderRoundTrip(name: string, tail: string)
    requires IsTail(tail)
    ensures IsName("b/", name) ==> HeaderFile("+++ b/" + name + tail) == Some(name)
    ensures IsName("", name) ==> HeaderFile("+++ " + name + tail) == Some(name)
    ensures HeaderFile("+++ /dev/null" + tail) == None
    ensures forall line :: !StartsWith(line, "+++ ") ==> HeaderFile(line) == None
  {
    hide IsPySpace, IsName, LStrip, RStrip, BeforeTab, IsTail;
    if IsName("b/", name) {
      assert "+++ b/" + name + tail == "+++ " + "" + "b/" + name + "" + tail;
      PrintedIsNamed("+++ b/" + name + tail, "", "b/", name, "", tail);
    }
    if IsName("", name) {
      assert "+++ " + name + tail == "+++ " + "" + "" + name + "" + tail;
      PrintedIsNamed("+++ " + name + tail, "", "", name, "", tail);
    }
    DeletionNamesNothing(tail);
  }

  lemma DeletionNamesNothing(tail: string)
    requires IsTail(tail)
    ensures HeaderFile("+++ /dev/null" + tail) == None
  {
    hide LStrip, RStrip, BeforeTab;
    var line := "+++ /dev/null" + tail;
    assert line[..4] == "+++ " && line[4..] == "/dev/null" + tail;
    BeforeTabIs("/dev/null", tail);
    assert "" + "/dev/null" == "/dev/null" && "/dev/null" + "" == "/dev/null";
    LStripDrops("", "/dev/null");
    RStripDrops("/dev/null", "");
  }

  // ----- All headers -----

  ghost predicate PrintedFirst(lines: seq<string>, i: nat, path: string) {
    && i < |lines| && Names(lines[i], path)
    && forall j :: 0 <= j < i ==> !Names(lines[j], path)
  }

  ghost predicate PrintedIn(lines: seq<string>, path: string) {
    exists i :: 0 <= i < |lines| && Names(lines[i], path)
  }

  ghost predicate PrintedBefore(lines: seq<string>, i: nat, one: string, j: nat, other: string) {
    PrintedFirst(lines, i, one) && PrintedFirst(lines, j, other) ==> i < j
  }

  /** The manifest holds the names printed in the headers of a patch, each once, in the order of first appearance. */
  lemma ManifestIsPrinted(lines: seq<string>)
    ensures forall path :: path in Manifest(lines) <==> PrintedIn(lines, path)
    ensures forall k, l :: 0 <= k < l < |Manifest(lines)| ==> Manifest(lines)[k] != Manifest(lines)[l]
    ensures forall k, l, i: nat, j: nat :: 0 <= k < l < |Manifest(lines)| && i < |lines| && j < |lines| ==>
              PrintedBefore(lines, i, Manifest(lines)[k], j, Manifest(lines)[l])
  {
    hide HeaderFile, Names, Manifest;
    var paths := Manifest(lines);
    ManifestIsFirstAppearances(lines);
    forall line, name ensures HeaderFile(line) == Some(name) <==> Names(line, name) {
      HeaderNamesIff(line, name);
    }
    forall path ensures path in paths <==> PrintedIn(lines, path) {
      if path in paths {
        var k :| 0 <= k < |paths| && paths[k] == path;
        assert Named(lines, |lines|, paths[k]);
        var i: nat :| i < |lines| && FirstAt(lines, i, path);
        assert Names(lines[i], path);
      }
      if PrintedIn(lines, path) {
        var i :| 0 <= i < |lines| && Names(lines[i], path);
        assert HeaderFile(lines[i]) == Some(path);
      }
    }
    forall k, l, i: nat, j: nat | 0 <= k < l < |paths| && i < |lines| && j < |lines|
      ensures PrintedBefore(lines, i, paths[k], j, paths[l])
    {
      assert InOrder(lines, i, paths[k], j, paths[l]);
    }
  }

  // ----- Lines of a text -----

  /** What ends a line before the given text; a carriage return takes a line feed that follows. */
  predicate IsLineEnd(end: string, rest: string) {
    end == "\r\n" || (|end| == 1 && EndsLine(end[0]) && (end == "\r" ==> !StartsWith(rest, "\n")))
  }

  predicate OneLine(line: string) {
    forall i :: 0 <= i < |line| ==> !EndsLine(line[i])
  }

  lemma LineLengthIs(line: string, rest: string)
    requires OneLine(line) && (rest != "" ==> EndsLine(rest[0]))
    ensures LineLength(line + rest) == |line|
  {
    hide EndsLine;
    if line == "" {
      assert line + rest == rest;
    } else {
      assert (line + rest)[0] == line[0] && (line + rest)[1..] == line[1..] + rest;
      LineLengthIs(line[1..], rest);
    }
  }

  /** Splitting takes one line off the text, whatever ends it, and keeps a last line without an end. */
  lemma SplitTakesOneLine(line: string, end: string, rest: string)
    requires OneLine(line)
    ensures IsLineEnd(end, rest) ==> SplitLines(line + end + rest) == [line] + SplitLines(rest)
    ensures SplitLines(line) == if line == "" then [] else [line]
  {
    hide LineLength, EndsLine;
    assert line + "" == line;
    LineLengthIs(line, "");
    if IsLineEnd(end, rest) {
      assert EndsLine('\r') by { ReturnEndsLine(); }
      var text := line + (end + rest);
      assert line + end + rest == text && text[|line|..] == end + rest && text[..|line|] == line;
      LineLengthIs(line, end + rest);
      assert text[|line| + |end|..] == rest;
      if end != "\r\n" {
        assert (end + rest)[0] == end[0];
        StartsCons(end[0], rest, "\n");
        assert end[0] != '\r' ==> !StartsWith(end + rest, "\r\n");
        assert end == [end[0]] && ['\r'] + "\n" == "\r\n";
      } else {
        assert (end + rest)[..2] == "\r\n";
      }
    }
  }

  lemma ReturnEndsLine()
    ensures EndsLine('\r')
  {
  }

  // ----- A patch as git prints it -----

  datatype Line = Context(text: string) | Added(text: string) | Removed(text: string)

  datatype FileDiff = FileDiff(name: string, deleted: bool, lines: seq<Line>)

  function PrintLine(line: Line): string {
    match line
    case Context(text) => " " + text
    case Added(text) => "+" + text
    case Removed(text) => "-" + text
  }

  function PrintLines(lines: seq<Line>): seq<string> {
    if lines == [] then [] else [PrintLine(lines[0])] + PrintLines(lines[1..])
  }

  function PrintHeader(file: FileDiff): seq<string> {
    ["diff --git a/" + file.name + " b/" + file.name, "--- a/" + file.name,
     "+++ " + (if file.deleted then "/dev/null" else "b/" + file.name), "@@"]
  }

  function PrintDiff(files: seq<FileDiff>): seq<string> {
    if files == [] then [] else PrintHeader(files[0]) + PrintLines(files[0].lines) + PrintDiff(files[1..])
  }

  /** An added line whose text continues its plus sign to a header. */
  ghost predicate LooksLikeHeader(line: Line, path: string) {
    line.Added? && Names("+" + line.text, path)
  }

  /** The file stays, or some added line looks like its header. */
  ghost predicate InDiff(files: seq<FileDiff>, path: string) {
    exists i :: 0 <= i < |files| && InFile(files[i], path)
  }

  ghost predicate InFile(file: FileDiff, path: string) {
    || (!file.deleted && file.name == path)
    || exists j :: 0 <= j < |file.lines| && LooksLikeHeader(file.lines[j], path)
  }

  /** How many lines of the diff the tool counts: added and removed ones, except those that continue their sign. */
  function Changes(files: seq<FileDiff>): nat {
    if files == [] then 0 else ChangesIn(files[0].lines) + Changes(files[1..])
  }

  function ChangesIn(lines: seq<Line>): nat {
    if lines == [] then 0
    else
      (match lines[0]
       case Context(_) => 0
       case Added(text) => if StartsWith(text, "++") then 0 else 1
       case Removed(text) => if StartsWith(text, "--") then 0 else 1) + ChangesIn(lines[1..])
  }

  lemma PrintedAppend(a: seq<string>, b: seq<string>, path: string)
    ensures PrintedIn(a + b, path) <==> PrintedIn(a, path) || PrintedIn(b, path)
  {
    hide Names;
    if PrintedIn(a, path) {
      var i :| 0 <= i < |a| && Names(a[i], path);
      assert Names((a + b)[i], path);
    }
    if PrintedIn(b, path) {
      var i :| 0 <= i < |b| && Names(b[i], path);
      assert Names((a + b)[|a| + i], path);
    }
  }

  lemma NoHeader(line: string, path: string)
    requires !StartsWith(line, "+++ ")
    ensures !Names(line, path)
  {
    HeaderNamesIff(line, path);
  }

  lemma PrintedLines(lines: seq<Line>, path: string)
    ensures PrintedIn(PrintLines(lines), path) <==>
            exists j :: 0 <= j < |lines| && LooksLikeHeader(lines[j], path)
  {
    hide Names;
    if lines != [] {
      PrintedLines(lines[1..], path);
      PrintedAppend([PrintLine(lines[0])], PrintLines(lines[1..]), path);
      PrintedLine(lines[0], path);
      hide LooksLikeHeader, PrintedIn;
      assert forall j :: 0 <= j < |lines| - 1 ==> lines[1..][j] == lines[j + 1];
      if j :| 0 <= j < |lines| && LooksLikeHeader(lines[j], path) {
        assert j > 0 ==> LooksLikeHeader(lines[1..][j - 1], path);
      }
    }
  }

  lemma PrintedLine(line: Line, path: string)
    ensures PrintedIn([PrintLine(line)], path) <==> LooksLikeHeader(line, path)
  {
    hide Names;
    var first := PrintLine(line);
    if !line.Added? {
      StartsNot(first, "+++ ", 0);
      NoHeader(first, path);
    }
    assert PrintedIn([first], path) <==> Names([first][0], path);
  }

  lemma PrintedHeader(file: FileDiff, path: string)
    requires IsName("b/", file.name)
    ensures PrintedIn(PrintHeader(file), path) <==> !file.deleted && file.name == path
  {
    hide Names, HeaderFile, IsName;
    var lines := PrintHeader(file);
    forall i | 0 <= i < 4 && i != 2 ensures !Names(lines[i], path) {
      StartsNot(lines[i], "+++ ", 0);
      NoHeader(lines[i], path);
    }
    HeaderNamesIff(lines[2], path);
    HeaderRoundTrip(file.name, "");
    assert "+++ b/" + file.name + "" == "+++ " + ("b/" + file.name) == "+++ b/" + file.name;
    assert "+++ /dev/null" + "" == "+++ " + "/dev/null";
    assert PrintedIn(lines, path) <==> Names(lines[2], path);
  }

  lemma {:induction false} PrintedDiff(files: seq<FileDiff>, path: string)
    requires forall i :: 0 <= i < |files| ==> IsName("b/", files[i].name)
    ensures PrintedIn(PrintDiff(files), path) <==> InDiff(files, path)
  {
    hide Names, IsName, PrintHeader, PrintLines;
    if files != [] {
      var file, rest := files[0], files[1..];
      PrintedDiff(rest, path);
      PrintedHeader(file, path);
      PrintedLines(file.lines, path);
      PrintedAppend(PrintHeader(file), PrintLines(file.lines), path);
      PrintedAppend(PrintHeader(file) + PrintLines(file.lines), PrintDiff(rest), path);
      if InDiff(rest, path) {
        var i :| 0 <= i < |rest| && InFile(rest[i], path);
        assert InFile(files[i + 1], path);
      }
      if i :| 0 <= i < |files| && InFile(files[i], path) {
        assert i > 0 ==> InFile(rest[i - 1], path);
      }
    }
  }

  lemma ChangedAppend(a: seq<string>, b: seq<string>)
    ensures ChangedLines(a + b) == ChangedLines(a) + ChangedLines(b)
  {
    if a == [] {
      assert a + b == b;
    } else {
      assert (a + b)[1..] == a[1..] + b;
      ChangedAppend(a[1..], b);
    }
  }

  lemma ChangeOfLine(line: Line)
    ensures IsChange(PrintLine(line)) <==>
            (line.Added? && !StartsWith(line.text, "++")) || (line.Removed? && !StartsWith(line.text, "--"))
  {
    hide StartsWith;
    var first := PrintLine(line);
    StartsCons('+', line.text, "++");
    StartsCons('-', line.text, "--");
    assert ['+'] + "++" == "+++" && ['-'] + "--" == "---";
    assert StartsWith(first, "+") <==> line.Added? by { StartsIff(first, '+'); }
    assert StartsWith(first, "-") <==> line.Removed? by { StartsIff(first, '-'); }
  }

  lemma StartsIff(s: string, c: char)
    requires s != ""
    ensures StartsWith(s, [c]) <==> s[0] == c
  {
  }

  lemma {:induction false} ChangedInLines(lines: seq<Line>)
    ensures ChangedLines(PrintLines(lines)) == ChangesIn(lines)
  {
    if lines != [] {
      ChangedInLines(lines[1..]);
      ChangeOfLine(lines[0]);
      assert PrintLines(lines)[1..] == PrintLines(lines[1..]);
    }
  }

  lemma {:induction false} ChangedInDiff(files: seq<FileDiff>)
    ensures ChangedLines(PrintDiff(files)) == Changes(files)
  {
    if files != [] {
      var header, lines := PrintHeader(files[0]), PrintLines(files[0].lines);
      ChangedInDiff(files[1..]);
      ChangedInLines(files[0].lines);
      ChangedAppend(header + lines, PrintDiff(files[1..]));
      ChangedAppend(header, lines);
      HeaderChangesNothing(files[0]);
    }
  }

  lemma HeaderChangesNothing(file: FileDiff)
    ensures ChangedLines(PrintHeader(file)) == 0
  {
    var lines := PrintHeader(file);
    assert StartsWith(lines[1], "---") && StartsWith(lines[2], "+++") && lines[0][0] == 'd' && lines[3] == "@@";
    hide StartsWith;
    StartsIff(lines[0], '+');
    StartsIff(lines[0], '-');
    StartsIff(lines[1], '+');
    StartsIff(lines[2], '-');
    StartsIff(lines[3], '+');
    StartsIff(lines[3], '-');
    assert forall i :: 0 <= i < 4 ==> !IsChange(lines[i]);
    assert lines == [lines[0]] + ([lines[1]] + ([lines[2]] + [lines[3]]));
    ChangedAppend([lines[0]], [lines[1]] + ([lines[2]] + [lines[3]]));
    ChangedAppend([lines[1]], [lines[2]] + [lines[3]]);
    ChangedAppend([lines[2]], [lines[3]]);
    assert forall i :: 0 <= i < 4 ==> ChangedLines([lines[i]]) == ChangedLines([lines[i]][1..]);
  }

  /** The patch as one text. */
  function PatchText(lines: seq<string>): string {
    if lines == [] then "" else lines[0] + "\n" + PatchText(lines[1..])
  }

  lemma {:induction false} SplitOfPrinted(lines: seq<string>)
    requires forall i :: 0 <= i < |lines| ==> OneLine(lines[i])
    ensures SplitLines(PatchText(lines)) == lines
  {
    hide SplitLines, EndsLine, OneLine;
    if lines == [] {
      assert SplitLines("") == [] by { SplitTakesOneLine("", "\n", "") by { EmptyIsOneLine(); } }
    } else {
      SplitOfPrinted(lines[1..]);
      SplitTakesOneLine(lines[0], "\n", PatchText(lines[1..]));
      assert IsLineEnd("\n", PatchText(lines[1..])) by { FeedEndsLine(); }
    }
  }

  lemma EmptyIsOneLine()
    ensures OneLine("")
  {
  }

  lemma FeedEndsLine()
    ensures EndsLine('\n')
  {
  }

  /** What the tool reads from a patch that git prints: the files that stay, in order, and those that an added line
      seems to name, but no deleted file; and every added or removed line that does not continue its sign. */
  lemma GitPatchIsRead(files: seq<FileDiff>)
    requires forall i :: 0 <= i < |files| ==> IsName("b/", files[i].name)
    requires forall i :: 0 <= i < |PrintDiff(files)| ==> OneLine(PrintDiff(files)[i])
    ensures var lines := SplitLines(PatchText(PrintDiff(files)));
            && (forall path :: path in Manifest(lines) <==> InDiff(files, path))
            && ChangedLines(lines) == Changes(files)
  {
    hide Manifest, IsName, PrintDiff, ChangedLines, PrintedIn, InDiff, SplitLines, PatchText, OneLine;
    SplitOfPrinted(PrintDiff(files));
    ManifestIsPrinted(PrintDiff(files));
    ChangedInDiff(files);
    forall path ensures PrintedIn(PrintDiff(files), path) <==> InDiff(files, path) {
      PrintedDiff(files, path);
    }
  }
}
