/** What reading a written note gives back. */
module FrontmatterRoundTrip {
  import opened Domain
  import opened FrontmatterCodec
  import opened Text

  // ----- Keys -----

  predicate IsKey(key: string) {
    key != "" && forall i :: 0 <= i < |key| ==> IsWordChar(key[i])
  }

  lemma KeysAreWords(k: nat)
    requires k < |KEYS|
    ensures IsKey(KEYS[k])
  {
  }

  /** Lengths and one character tell the keys apart. */
  lemma KeysDiffer(i: nat, j: nat)
    requires i < j < |KEYS|
    ensures KEYS[i] != KEYS[j]
  {
  }

  // ----- Single lines -----

  /** Text that starts and ends with a visible character. */
  predicate Visible(s: string) {
    s != "" && !IsSpace(s[0]) && !IsSpace(s[|s| - 1])
  }

  lemma KeyLength(key: string, more: string)
    requires IsKey(key) && more != "" && !IsWordChar(more[0])
    ensures WordLength(key + more) == |key|
  {
    hide IsWordChar, WordLength;
    var line := key + more;
    forall i | 0 <= i < |key| ensures IsWordChar(line[i]) {
      assert line[i] == key[i];
    }
    assert line[|key|] == more[0];
  }

  lemma MatchKeyValue(key: string, v: string)
    requires IsKey(key) && Visible(v)
    ensures MatchKey(key + ": " + v) == if HasLineTerminator(v) then None else Some(KeyValue(key, v))
  {
    hide IsSpace, HasLineTerminator, WordLength;
    var line := key + ": " + v;
    assert line == key + (": " + v);
    KeyLength(key, ": " + v);
    assert line[..|key|] == key && line[|key|] == ':';
    assert line[|key| + 1..] == " " + v;
    assert TrimStart(" " + v) == v by { SpaceIsSpace(); TrimStartDropsSpaces(" ", v); TrimOfTrimmed(v); }
  }

  lemma SpaceIsSpace()
    ensures IsSpace(' ') && !IsSpace('-') && !IsSpace('\"')
  {
  }

  lemma MatchBareKey(key: string)
    requires IsKey(key)
    ensures MatchKey(key + ":") == Some(KeyValue(key, ""))
  {
    KeyLength(key, ":");
    assert (key + ":")[..|key|] == key && (key + ":")[|key| + 1..] == "";
  }

  lemma KeyLineIsNoItem(key: string, more: string)
    requires IsKey(key)
    ensures !IsItem(key + more) && Trim(key + more) != ""
  {
    var line := key + more;
    assert line[0] == key[0];
    assert !IsSpace(line[0]) && line[0] != '-';
    assert TrimStart(line) == line;
    TrimEndKeeps([line[0]], line[1..]);
    assert [line[0]] + line[1..] == line;
    hide TrimEnd;
  }

  lemma QuoteIsVisible(s: string)
    ensures Visible(Quote(s)) && Trim(Quote(s)) == Quote(s) && Quote(s)[0] == '\"'
    ensures HasLineTerminator(Quote(s)) <==> Separates(s)
    ensures forall i :: 0 <= i < |Quote(s)| ==> Quote(s)[i] >= ' '
  {
    EscapeShape(s);
    InQuotes(Escape(s));
  }

  lemma InQuotes(e: string)
    requires forall i :: 0 <= i < |e| ==> e[i] >= ' '
    ensures var q := "\"" + e + "\"";
            && Visible(q) && Trim(q) == q && q[0] == '\"'
            && (HasLineTerminator(q) <==> Separates(e))
            && forall i :: 0 <= i < |q| ==> q[i] >= ' '
  {
    hide Separates, HasLineTerminator, Trim, TrimStart, TrimEnd, IsSpace;
    var q := "\"" + e + "\"";
    assert q[0] == '\"' && q[|q| - 1] == '\"';
    SpaceIsSpace();
    TrimOfTrimmed(q);
    SeparatesAppend("\"", e);
    SeparatesAppend("\"" + e, "\"");
    QuoteIsNoSeparator();
    assert forall i :: 0 < i < |q| - 1 ==> q[i] == e[i - 1];
    PrintableTerminators(q);
  }

  lemma QuoteIsNoSeparator()
    ensures !Separates("\"")
  {
  }

  lemma PrintableTerminators(q: string)
    requires forall i :: 0 <= i < |q| ==> q[i] >= ' '
    ensures HasLineTerminator(q) <==> Separates(q)
  {
    if Separates(q) {
      var i :| 0 <= i < |q| && IsSeparator(q[i]);
      assert IsLineTerminator(q[i]);
    }
    if HasLineTerminator(q) {
      var i :| 0 <= i < |q| && IsLineTerminator(q[i]);
      assert IsSeparator(q[i]);
    }
  }

  lemma ReadScalar(s: string)
    ensures ScalarValue(Trim(Quote(s))) == Scalar(Escape(s))
  {
    QuoteIsVisible(s);
    StringSurvivesIff(s);
    hide Quote;
    assert Quote(s)[0] == '\"';
  }

  lemma ItemShape(q: string)
    requires Visible(q)
    ensures TrimStart("  - " + q) == "- " + q && Trim(" " + q) == q
  {
    hide IsSpace;
    SpaceIsSpace();
    assert "  - " + q == "  " + ("- " + q);
    TrimStartDropsSpaces("  ", "- " + q);
    assert ("- " + q)[0] == '-';
    TrimStartDropsSpaces(" ", q);
    TrimOfTrimmed(q);
  }

  lemma ReadItem(s: string)
    ensures IsItem("  - " + Quote(s)) && ItemText("  - " + Quote(s)) == Escape(s)
  {
    hide Quote, IsSpace, TrimStart, Trim, Unquote;
    var q := Quote(s);
    SpaceIsSpace();
    QuoteIsVisible(s);
    ItemShape(q);
    assert ("- " + q)[0] == '-' && ("- " + q)[1..] == " " + q;
    StringSurvivesIff(s);
  }

  // ----- Fields -----

  function EscapeAll(items: seq<string>): (r: seq<string>)
    ensures |r| == |items|
  {
    seq(|items|, i requires 0 <= i < |items| => Escape(items[i]))
  }

  /** What a written field is read as: every character that was escaped on writing stays escaped. */
  function ReadBack(field: Option<Value>): Option<Value> {
    match field
    case Some(Scalar(s)) => Some(Scalar(Escape(s)))
    case Some(List(items)) => Some(List(EscapeAll(items)))
    case _ => field
  }

  /** A line separator in a scalar makes its line unreadable; list items may hold one. */
  predicate Unreadable(field: Option<Value>) {
    field.Some? && field.value.Scalar? && Separates(field.value.text)
  }

  function Stored(values: map<string, Value>, key: string, field: Option<Value>): map<string, Value> {
    match ReadBack(field)
    case None => values
    case Some(v) => values[key := v]
  }

  lemma ReadPlainLine(key: string, v: string, rest: seq<string>, values: map<string, Value>)
    requires IsKey(key) && Visible(v)
    ensures ReadLines([key + ": " + v] + rest, values) ==
              if HasLineTerminator(v) then Unsupported(key + ": " + v)
              else ReadLines(rest, values[key := ScalarValue(Trim(v))])
  {
    hide Trim, MatchKey, ScalarValue, HasLineTerminator;
    var lines := [key + ": " + v] + rest;
    assert key + ": " + v == key + (": " + v);
    KeyLineIsNoItem(key, ": " + v);
    MatchKeyValue(key, v);
    assert lines[1..] == rest;
  }

  lemma ReadListLines(key: string, items: seq<string>, rest: seq<string>, values: map<string, Value>)
    requires IsKey(key) && (rest != [] ==> !IsItem(rest[0]))
    ensures ReadLines([key + ":"] + ItemLines(items) + rest, values) ==
              ReadLines(rest, values[key := List(EscapeAll(items))])
  {
    hide Trim, MatchKey, IsItem, ItemText, Quote;
    var lines := [key + ":"] + ItemLines(items) + rest;
    var after := ItemLines(items) + rest;
    assert lines[1..] == after;
    KeyLineIsNoItem(key, ":");
    MatchBareKey(key);
    forall i | 0 <= i < |items| ensures IsItem(after[i]) && ItemText(after[i]) == Escape(items[i]) {
      ReadItem(items[i]);
      assert after[i] == ItemLines(items)[i];
    }
    assert rest != [] ==> after[|items|] == rest[0];
    ItemCountIs(after, |items|);
    assert ItemsOf(after, |items|) == EscapeAll(items);
    assert after[|items|..] == rest;
  }

  lemma ReadField(key: string, field: Option<Value>, rest: seq<string>, values: map<string, Value>)
    requires IsKey(key) && (rest != [] ==> !IsItem(rest[0]))
    ensures Unreadable(field) ==> ReadLines(FieldLines(key, field) + rest, values).Unsupported?
    ensures !Unreadable(field) ==>
              ReadLines(FieldLines(key, field) + rest, values) == ReadLines(rest, Stored(values, key, field))
  {
    hide ReadLines, IsItem, IsKey, Quote, Trim;
    match field
    case None =>
      assert FieldLines(key, field) + rest == rest;
    case Some(Flag(b)) =>
      FlagLines(b);
      ReadPlainLine(key, if b then "true" else "false", rest, values);
    case Some(Scalar(s)) =>
      QuoteIsVisible(s);
      ReadPlainLine(key, Quote(s), rest, values);
      ReadScalar(s);
    case Some(List(items)) =>
      if items == [] {
        EmptyListLine();
        ReadPlainLine(key, "[]", rest, values);
        assert key + ": []" == key + ": " + "[]";
        assert EscapeAll(items) == [];
      } else {
        ReadListLines(key, items, rest, values);
      }
  }

  lemma FlagLines(b: bool)
    ensures var v := if b then "true" else "false";
            Visible(v) && !HasLineTerminator(v) && ScalarValue(Trim(v)) == Flag(b)
  {
    TrimOfTrimmed("true");
    TrimOfTrimmed("false");
  }

  lemma EmptyListLine()
    ensures Visible("[]") && !HasLineTerminator("[]") && ScalarValue(Trim("[]")) == List([])
  {
    TrimOfTrimmed("[]");
  }

  // ----- The block -----

  lemma FieldStartsWithKey(key: string, field: Option<Value>)
    requires IsKey(key) && field.Some?
    ensures FieldLines(key, field) != [] && !IsItem(FieldLines(key, field)[0])
  {
    hide IsItem, IsKey, Quote, Trim;
    match field.value
    case Flag(b) =>
      var v := if b then "true" else "false";
      KeyLineIsNoItem(key, ": " + v);
      assert key + (": " + v) == key + ": " + v;
    case Scalar(s) =>
      KeyLineIsNoItem(key, ": " + Quote(s));
      assert key + (": " + Quote(s)) == key + ": " + Quote(s);
    case List(items) =>
      KeyLineIsNoItem(key, ":");
      KeyLineIsNoItem(key, ": []");
  }

  lemma LinesStartWithKey(fields: seq<Option<Value>>, k: nat)
    requires |fields| == |KEYS| && k <= |KEYS|
    ensures LinesFrom(fields, k) != [] ==> !IsItem(LinesFrom(fields, k)[0])
    decreases |KEYS| - k
  {
    hide IsItem, IsKey;
    if k < |KEYS| {
      LinesStartWithKey(fields, k + 1);
      KeysAreWords(k);
      if fields[k].Some? {
        FieldStartsWithKey(KEYS[k], fields[k]);
      } else {
        assert FieldLines(KEYS[k], fields[k]) + LinesFrom(fields, k + 1) == LinesFrom(fields, k + 1);
      }
    }
  }

  function StoredFrom(values: map<string, Value>, fields: seq<Option<Value>>, k: nat): map<string, Value>
    requires |fields| == |KEYS| && k <= |KEYS|
    decreases |KEYS| - k
  {
    if k == |KEYS| then values else StoredFrom(Stored(values, KEYS[k], fields[k]), fields, k + 1)
  }

  predicate AnyUnreadable(fields: seq<Option<Value>>, k: nat) {
    exists i :: k <= i < |fields| && Unreadable(fields[i])
  }

  lemma {:induction false} ReadFields(fields: seq<Option<Value>>, k: nat, values: map<string, Value>)
    requires |fields| == |KEYS| && k <= |KEYS|
    ensures AnyUnreadable(fields, k) ==> ReadLines(LinesFrom(fields, k), values).Unsupported?
    ensures !AnyUnreadable(fields, k) ==> ReadLines(LinesFrom(fields, k), values) == Ok(StoredFrom(values, fields, k))
    decreases |KEYS| - k
  {
    hide ReadLines, IsItem, IsKey, FieldLines, Unreadable, Stored;
    if k == |KEYS| {
      NoMoreLines(values);
    } else {
      LinesStartWithKey(fields, k + 1);
      KeysAreWords(k);
      ReadField(KEYS[k], fields[k], LinesFrom(fields, k + 1), values);
      ReadFields(fields, k + 1, Stored(values, KEYS[k], fields[k]));
    }
  }

  lemma {:induction false} StoredAt(values: map<string, Value>, fields: seq<Option<Value>>, k: nat, i: nat)
    requires |fields| == |KEYS| && k <= |KEYS| && i < |KEYS|
    requires i >= k ==> KEYS[i] !in values
    ensures Get(StoredFrom(values, fields, k), KEYS[i]) == if i >= k then ReadBack(fields[i]) else Get(values, KEYS[i])
    decreases |KEYS| - k
  {
    if k < |KEYS| {
      if k < i {
        KeysDiffer(k, i);
      } else if i < k {
        KeysDiffer(i, k);
      }
      if k == i {
        StoredKeeps(Stored(values, KEYS[k], fields[k]), fields, k + 1, i);
      } else {
        StoredAt(Stored(values, KEYS[k], fields[k]), fields, k + 1, i);
      }
    }
  }

  lemma {:induction false} StoredKeeps(values: map<string, Value>, fields: seq<Option<Value>>, k: nat, i: nat)
    requires |fields| == |KEYS| && i < k <= |KEYS|
    ensures Get(StoredFrom(values, fields, k), KEYS[i]) == Get(values, KEYS[i])
    decreases |KEYS| - k
  {
    if k < |KEYS| {
      KeysDiffer(i, k);
      StoredKeeps(Stored(values, KEYS[k], fields[k]), fields, k + 1, i);
    }
  }

  // ----- White space and line ends -----

  predicate Blank(s: string) {
    forall i :: 0 <= i < |s| ==> IsSpace(s[i])
  }

  lemma {:induction false} TrimIgnoresEnd(t: string, blank: string)
    requires Blank(blank)
    ensures Trim(t + blank) == Trim(t)
  {
    if t == "" {
      assert t + blank == blank + "";
      assert forall c :: c in blank ==> IsSpace(c);
      TrimStartDropsSpaces(blank, "");
      assert blank + "" == blank && TrimStart("") == "";
    } else if IsSpace(t[0]) {
      assert (t + blank)[1..] == t[1..] + blank;
      TrimIgnoresEnd(t[1..], blank);
    } else {
      assert (t + blank)[0] == t[0];
      TrimEndDropsSpaces(t, blank);
    }
  }

  lemma TrimBetween(before: string, s: string, after: string)
    requires Blank(before) && Blank(after)
    ensures Trim(before + s + after) == Trim(s)
  {
    TrimIgnoresEnd(before + s, after);
    assert forall c :: c in before ==> IsSpace(c);
    TrimStartDropsSpaces(before, s);
  }

  lemma TrimOfTrimEnd(s: string)
    ensures Trim(TrimEnd(s)) == Trim(s)
  {
    TrimEndShape(s);
    var t := TrimEnd(s);
    var blank := s[|t|..];
    assert s == t + blank;
    forall i | 0 <= i < |blank| ensures IsSpace(blank[i]) {
      assert blank[i] == s[|t| + i];
    }
    TrimIgnoresEnd(t, blank);
  }

  lemma {:induction false} TrimEndKeeps(p: string, w: string)
    requires p != "" && !IsSpace(p[|p| - 1])
    ensures TrimEnd(p + w) == p + TrimEnd(w)
  {
    if w == "" {
      assert p + w == p;
    } else {
      assert (p + w)[|p + w| - 1] == w[|w| - 1];
      if IsSpace(w[|w| - 1]) {
        assert (p + w)[..|p + w| - 1] == p + w[..|w| - 1];
        TrimEndKeeps(p, w[..|w| - 1]);
      }
    }
  }

  lemma {:induction false} CrlfFree(a: string, b: string)
    requires '\r' !in a
    ensures Crlf(a + b) == a + Crlf(b)
  {
    if a == "" {
      assert a + b == b;
    } else {
      assert (a + b)[0] == a[0] && a[0] in a;
      assert (a + b)[1..] == a[1..] + b;
      CrlfFree(a[1..], b);
    }
  }

  predicate StartsCrlf(s: string) {
    |s| >= 2 && s[0] == '\r' && s[1] == '\n'
  }

  lemma CrlfStep(s: string)
    requires s != ""
    ensures Crlf(s) == if StartsCrlf(s) then "\n" + Crlf(s[2..]) else [s[0]] + Crlf(s[1..])
  {
  }

  lemma {:induction false} CrlfBeforeNewline(s: string)
    requires s != "" ==> s[|s| - 1] != '\r'
    ensures Crlf(s + "\n") == Crlf(s) + "\n"
    decreases |s|
  {
    hide Crlf;
    var t := s + "\n";
    CrlfStep(t);
    if s == "" {
      assert t[1..] == "" && [t[0]] == "\n";
      CrlfEmpty();
    } else {
      CrlfStep(s);
      assert t[0] == s[0];
      if StartsCrlf(s) {
        assert t[2..] == s[2..] + "\n";
        CrlfBeforeNewline(s[2..]);
      } else {
        assert |s| == 1 ==> !StartsCrlf(t);
        assert t[1..] == s[1..] + "\n";
        CrlfBeforeNewline(s[1..]);
      }
    }
  }

  lemma CrlfEmpty()
    ensures Crlf("") == ""
  {
  }

  // ----- Lines -----

  predicate OneLine(s: string) {
    forall i :: 0 <= i < |s| ==> s[i] != '\n'
  }

  lemma {:induction false} SplitLine(line: string, rest: string)
    requires OneLine(line)
    ensures Split(line) == [line]
    ensures Split(line + "\n" + rest) == [line] + Split(rest)
  {
    var text := line + "\n" + rest;
    if line == "" {
      assert text == "\n" + rest;
      assert text[1..] == rest;
    } else {
      assert text[1..] == line[1..] + "\n" + rest;
      SplitLine(line[1..], rest);
      assert [line[0]] + line[1..] == line;
    }
  }

  lemma {:induction false} SplitJoin(lines: seq<string>)
    requires lines != [] && forall i :: 0 <= i < |lines| ==> OneLine(lines[i])
    ensures Split(Join(lines, "\n")) == lines
  {
    hide Split, OneLine;
    if |lines| == 1 {
      SplitLine(lines[0], "");
    } else {
      SplitJoin(lines[1..]);
      SplitLine(lines[0], Join(lines[1..], "\n"));
      assert [lines[0]] + lines[1..] == lines;
    }
  }

  lemma {:induction false} JoinAppend(a: seq<string>, b: seq<string>)
    requires a != [] && b != []
    ensures Join(a + b, "\n") == Join(a, "\n") + "\n" + Join(b, "\n")
  {
    if |a| == 1 {
      assert (a + b)[1..] == b;
    } else {
      JoinAppend(a[1..], b);
      assert (a + b)[1..] == a[1..] + b;
      assert (a + b)[0] == a[0];
      assert a[0] + "\n" + (Join(a[1..], "\n") + "\n" + Join(b, "\n")) ==
          a[0] + "\n" + Join(a[1..], "\n") + "\n" + Join(b, "\n");
    }
  }

  lemma {:induction false} FenceSkips(line: string, rest: string)
    requires OneLine(line)
    ensures FenceAt(line + rest) == match FenceAt(rest) case None => None case Some(k) => Some(k + |line|)
  {
    if line == "" {
      assert line + rest == rest;
    } else {
      assert (line + rest)[1..] == line[1..] + rest;
      assert (line + rest)[0] == line[0];
      FenceSkips(line[1..], rest);
    }
  }

  /** Lines as the writer prints them: no line breaks, and none that could be taken for a fence. */
  predicate BlockLine(line: string) {
    line != "" && line[0] != '-' && forall i :: 0 <= i < |line| ==> line[i] >= ' '
  }

  lemma FenceAfterLine(next: string)
    requires next != "" && next[0] != '-'
    ensures FenceAt("\n" + next) == match FenceAt(next) case None => None case Some(k) => Some(k + 1)
  {
    var text := "\n" + next;
    assert text[1..] == next;
    assert text[1] != '-';
  }

  lemma {:induction false} FenceAfterBlock(lines: seq<string>, w: string)
    requires lines != [] && forall i :: 0 <= i < |lines| ==> BlockLine(lines[i])
    ensures FenceAt(Join(lines, "\n") + "\n---" + w) == Some(|Join(lines, "\n")|)
    ensures Join(lines, "\n") != "" && Join(lines, "\n")[0] != '-'
  {
    hide FenceAt;
    var fence := "\n---" + w;
    assert BlockLine(lines[0]);
    if |lines| == 1 {
      FenceSkips(lines[0], fence);
      assert lines[0] + "\n---" + w == lines[0] + fence;
      FenceHere(w);
    } else {
      var tail := Join(lines[1..], "\n");
      FenceAfterBlock(lines[1..], w);
      assert BlockLine(lines[1]);
      FenceAfterLine(tail + "\n---" + w);
      FenceSkips(lines[0], "\n" + (tail + "\n---" + w));
      assert lines[0] + "\n" + tail + "\n---" + w == lines[0] + ("\n" + (tail + "\n---" + w));
    }
  }

  lemma FenceHere(w: string)
    ensures FenceAt("\n---" + w) == Some(0)
  {
    assert ("\n---" + w)[..4] == "\n---";
  }

  lemma FieldBlockLines(key: string, field: Option<Value>)
    requires IsKey(key)
    ensures forall i :: 0 <= i < |FieldLines(key, field)| ==> BlockLine(FieldLines(key, field)[i])
  {
    hide Quote, IsKey, BlockLine;
    match field
    case None =>
    case Some(Flag(b)) =>
      KeyedLine(key, if b then ": true" else ": false");
      assert key + ": " + (if b then "true" else "false") == key + if b then ": true" else ": false";
    case Some(Scalar(s)) =>
      QuotedLine(": ", s);
      KeyedLine(key, ": " + Quote(s));
      assert key + ": " + Quote(s) == key + (": " + Quote(s));
    case Some(List(items)) =>
      KeyedLine(key, ": []");
      KeyedLine(key, ":");
      forall i | 0 <= i < |items| ensures BlockLine(ItemLines(items)[i]) {
        ItemBlockLine(items[i]);
      }
  }

  lemma ItemBlockLine(s: string)
    ensures BlockLine("  - " + Quote(s))
  {
    QuotedLine("  - ", s);
  }

  predicate Printable(s: string) {
    forall i :: 0 <= i < |s| ==> s[i] >= ' '
  }

  lemma KeyedLine(key: string, more: string)
    requires IsKey(key) && Printable(more)
    ensures BlockLine(key + more)
  {
    assert IsWordChar(key[0]);
    forall i | 0 <= i < |key + more| ensures (key + more)[i] >= ' ' {
      assert i < |key| ==> IsWordChar(key[i]);
    }
  }

  lemma QuotedLine(lead: string, s: string)
    requires Printable(lead)
    ensures Printable(lead + Quote(s))
  {
    QuoteIsVisible(s);
  }

  lemma {:induction false} BlockLines(fields: seq<Option<Value>>, k: nat)
    requires |fields| == |KEYS| && k <= |KEYS|
    ensures forall i :: 0 <= i < |LinesFrom(fields, k)| ==> BlockLine(LinesFrom(fields, k)[i])
    decreases |KEYS| - k
  {
    hide BlockLine, FieldLines, IsKey;
    if k < |KEYS| {
      KeysAreWords(k);
      FieldBlockLines(KEYS[k], fields[k]);
      BlockLines(fields, k + 1);
    }
  }

  // ----- Whole notes -----

  function Block(fm: Frontmatter): string {
    Join(LinesFrom(FieldsOf(fm), 0), "\n")
  }

  lemma BlockShape(fm: Frontmatter)
    ensures var lines := LinesFrom(FieldsOf(fm), 0);
            lines != [] && forall i :: 0 <= i < |lines| ==> BlockLine(lines[i])
  {
    var fields := FieldsOf(fm);
    BlockLines(fields, 0);
    assert LinesFrom(fields, 0) == FieldLines(KEYS[0], fields[0]) + LinesFrom(fields, 1);
  }

  lemma SerializedShape(fm: Frontmatter, body: string)
    ensures SerializeMarkdownNote(fm, body) ==
            "---\n" + Block(fm) + "\n---\n\n" + NormalizeLineEndings(body) + "\n"
  {
    hide NormalizeLineEndings, FieldsOf, LinesFrom, Join;
    BlockShape(fm);
    var lines, nb := LinesFrom(FieldsOf(fm), 0), NormalizeLineEndings(body);
    JoinAppend(["---"] + lines, ["---", "", nb, ""]);
    JoinAppend(["---"], lines);
    JoinOne("---");
    TailShape(nb);
  }

  lemma JoinOne(line: string)
    ensures Join([line], "\n") == line
  {
  }

  lemma TailShape(nb: string)
    ensures Join(["---", "", nb, ""], "\n") == "---\n\n" + nb + "\n"
  {
    hide Join;
    JoinAppend(["---"], ["", nb, ""]);
    JoinAppend([""], [nb, ""]);
    JoinAppend([nb], [""]);
    JoinOne("---");
    JoinOne("");
    JoinOne(nb);
    assert ["---"] + ["", nb, ""] == ["---", "", nb, ""];
    assert [""] + [nb, ""] == ["", nb, ""];
    assert [nb] + [""] == [nb, ""];
  }

  lemma {:induction false} JoinIsPrintable(lines: seq<string>)
    requires forall i :: 0 <= i < |lines| ==> BlockLine(lines[i])
    ensures '\r' !in Join(lines, "\n")
  {
    if lines != [] {
      assert BlockLine(lines[0]);
      assert '\r' !in lines[0];
      JoinIsPrintable(lines[1..]);
    }
  }

  lemma NormalizeTail(front: string, nb: string)
    requires front != "" && '\r' !in front + "\n\n" && !IsSpace(front[|front| - 1])
    requires nb != "" ==> nb[|nb| - 1] != '\r'
    ensures NormalizeLineEndings(front + "\n\n" + nb + "\n") == front + TrimEnd("\n\n" + Crlf(nb) + "\n")
  {
    hide Crlf, TrimEnd, IsSpace;
    var lead := front + "\n\n";
    assert lead + nb + "\n" == lead + (nb + "\n");
    CrlfFree(lead, nb + "\n");
    CrlfBeforeNewline(nb);
    Regroup(front, "\n\n", Crlf(nb), "\n");
    TrimEndKeeps(front, "\n\n" + Crlf(nb) + "\n");
  }

  lemma Regroup(a: string, b: string, c: string, d: string)
    ensures a + b + (c + d) == a + (b + c + d)
  {
  }

  /** The text of a stored note once its line ends have been normalised. */
  lemma NormalizedShape(fm: Frontmatter, body: string)
    ensures var nb := NormalizeLineEndings(body);
            NormalizeLineEndings(SerializeMarkdownNote(fm, body)) ==
              "---\n" + Block(fm) + "\n---" + TrimEnd("\n\n" + Crlf(nb) + "\n")
  {
    hide Crlf, TrimEnd, FieldsOf, NormalizeLineEndings, SerializeMarkdownNote, LinesFrom, Join;
    var nb := NormalizeLineEndings(body);
    var front := "---\n" + Block(fm) + "\n---";
    SerializedShape(fm, body);
    assert SerializeMarkdownNote(fm, body) == front + "\n\n" + nb + "\n";
    BlockShape(fm);
    JoinIsPrintable(LinesFrom(FieldsOf(fm), 0));
    NormalizedEnd(body);
    assert front[|front| - 1] == '-';
    SpaceIsSpace();
    NormalizeTail(front, nb);
  }

  lemma NormalizedEnd(body: string)
    ensures var nb := NormalizeLineEndings(body); nb != "" ==> !IsSpace(nb[|nb| - 1]) && nb[|nb| - 1] != '\r'
  {
    hide Crlf;
    TrimEndShape(Crlf(body));
  }

  lemma BodyOf(c: string)
    ensures var w := TrimEnd("\n\n" + c + "\n");
            Trim(if StartsWith(w, "\n") then w[1..] else w) == Trim(c)
  {
    hide Trim, TrimEnd;
    var full := "\n\n" + c + "\n";
    var w := TrimEnd(full);
    assert Blank("\n\n") && Blank("\n");
    TrimBetween("\n\n", c, "\n");
    TrimOfTrimEnd(full);
    if StartsWith(w, "\n") {
      assert w == "\n" + w[1..] + "";
      TrimBetween("\n", w[1..], "");
    }
  }

  function ReadBackAll(fields: seq<Option<Value>>): (r: seq<Option<Value>>)
    ensures |r| == |fields|
  {
    seq(|fields|, i requires 0 <= i < |fields| => ReadBack(fields[i]))
  }

  function Present(s: Option<string>): Option<string> {
    if s.Some? && s.value != "" then Some(Escape(s.value)) else None
  }

  /** What a stored frontmatter is read as. */
  function WrittenBack(fm: Frontmatter): Frontmatter {
    Frontmatter(
      Escape(fm.noteId), Escape(fm.title), Escape(fm.project), Escape(fm.noteType), Escape(fm.status),
      Escape(fm.updated), Escape(fm.summary), EscapeAll(fm.tags), Escape(fm.scope), Escape(fm.corpusId),
      fm.currentState, Present(fm.validFrom), Present(fm.validUntil),
      if fm.supersedes.Some? && fm.supersedes.value != [] then Some(EscapeAll(fm.supersedes.value)) else None,
      Present(fm.supersededBy))
  }

  lemma ReadOptional(s: Option<string>)
    ensures OptionalString(ReadBack(OptionalScalar(s))) == Present(s)
  {
    if s.Some? {
      EscapeIsIdentityIff(s.value);
    }
  }

  lemma FieldsReadBack(fm: Frontmatter)
    ensures FrontmatterOf(ReadBackAll(FieldsOf(fm))) == WrittenBack(fm)
  {
    hide Escape, EscapeAll, OptionalString;
    ReadOptional(fm.validFrom);
    ReadOptional(fm.validUntil);
    ReadOptional(fm.supersededBy);
    if fm.supersedes.Some? {
      assert |EscapeAll(fm.supersedes.value)| == |fm.supersedes.value|;
    }
  }

  lemma ParsedBlock(fm: Frontmatter)
    ensures var unreadable := AnyUnreadable(FieldsOf(fm), 0);
            && (unreadable ==> ParseBlock(Block(fm)).Unsupported?)
            && (!unreadable ==> ParseBlock(Block(fm)) == Ok(WrittenBack(fm)))
  {
    hide FieldsOf, ReadLines, AnyUnreadable, FrontmatterOf, WrittenBack;
    FieldsReadBack(fm);
    var fields := FieldsOf(fm);
    var lines := LinesFrom(fields, 0);
    BlockShape(fm);
    forall i | 0 <= i < |lines| ensures OneLine(lines[i]) {
      assert BlockLine(lines[i]);
    }
    SplitJoin(lines);
    ReadFields(fields, 0, map[]);
    if !AnyUnreadable(fields, 0) {
      LookupStored(fields);
    }
  }

  lemma LookupStored(fields: seq<Option<Value>>)
    requires |fields| == |KEYS|
    ensures Lookup(StoredFrom(map[], fields, 0)) == ReadBackAll(fields)
  {
    hide StoredFrom, ReadBack, Get;
    forall i | 0 <= i < |KEYS| ensures Get(StoredFrom(map[], fields, 0), KEYS[i]) == ReadBack(fields[i]) {
      StoredAt(map[], fields, 0, i);
    }
  }

  /** What reading a stored note gives, for every frontmatter and every body. */
  lemma ReadOfWritten(fm: Frontmatter, body: string)
    ensures var r := ParseMarkdownNote(SerializeMarkdownNote(fm, body));
            && (AnyUnreadable(FieldsOf(fm), 0) ==> r.Unsupported?)
            && (!AnyUnreadable(FieldsOf(fm), 0) ==>
                  r == Ok(ParsedNote(WrittenBack(fm), Trim(Crlf(NormalizeLineEndings(body))))))
  {
    hide Crlf, TrimEnd, Trim, FieldsOf, NormalizeLineEndings, FenceAt, ParseBlock, WrittenBack, AnyUnreadable,
         LinesFrom, Join, SerializeMarkdownNote;
    var nb := NormalizeLineEndings(body);
    var w := TrimEnd("\n\n" + Crlf(nb) + "\n");
    var block := Block(fm);
    var text := "---\n" + block + "\n---" + w;
    NormalizedShape(fm, body);
    assert NormalizeLineEndings(SerializeMarkdownNote(fm, body)) == text;
    BlockShape(fm);
    assert text[4..] == block + "\n---" + w;
    FenceAfterBlock(LinesFrom(FieldsOf(fm), 0), w);
    assert text[4..4 + |block|] == block;
    assert text[4 + |block| + 4..] == w;
    ParsedBlock(fm);
    BodyOf(Crlf(nb));
  }

  // ----- Round trips -----

  predicate NoneSeparates(strings: seq<string>) {
    forall i :: 0 <= i < |strings| ==> !Separates(strings[i])
  }

  /** No scalar holds a line separator. */
  predicate Readable(fm: Frontmatter) {
    && NoneSeparates([fm.noteId, fm.title, fm.project, fm.noteType, fm.status, fm.updated, fm.summary, fm.scope,
         fm.corpusId])
    && (fm.validFrom.Some? ==> !Separates(fm.validFrom.value))
    && (fm.validUntil.Some? ==> !Separates(fm.validUntil.value))
    && (fm.supersededBy.Some? ==> !Separates(fm.supersededBy.value))
  }

  predicate NoneEscapes(strings: seq<string>) {
    forall i :: 0 <= i < |strings| ==> !Escapes(strings[i])
  }

  /** No string holds a character that is escaped on writing. */
  predicate Unescaped(fm: Frontmatter) {
    && NoneEscapes([fm.noteId, fm.title, fm.project, fm.noteType, fm.status, fm.updated, fm.summary, fm.scope,
         fm.corpusId])
    && NoneEscapes(fm.tags)
    && (fm.validFrom.Some? ==> !Escapes(fm.validFrom.value))
    && (fm.validUntil.Some? ==> !Escapes(fm.validUntil.value))
    && (fm.supersedes.Some? ==> NoneEscapes(fm.supersedes.value))
    && (fm.supersededBy.Some? ==> !Escapes(fm.supersededBy.value))
  }

  /** Optional fields are absent rather than empty. */
  predicate NoEmptyOption(fm: Frontmatter) {
    fm.validFrom != Some("") && fm.validUntil != Some("") && fm.supersedes != Some([]) && fm.supersededBy != Some("")
  }

  lemma ReadableIff(fm: Frontmatter)
    ensures Readable(fm) <==> !AnyUnreadable(FieldsOf(fm), 0)
  {
    hide Separates;
    var plain := [fm.noteId, fm.title, fm.project, fm.noteType, fm.status, fm.updated, fm.summary, fm.scope,
        fm.corpusId];
    var fields := FieldsOf(fm);
    forall i | 0 <= i < 9 ensures fields[if i < 7 then i else i + 1] == Some(Scalar(plain[i])) {
    }
    if Readable(fm) {
      forall i | 0 <= i < |fields| ensures !Unreadable(fields[i]) {
        assert i < 7 ==> !Separates(plain[i]);
        assert 8 <= i < 10 ==> !Separates(plain[i - 1]);
      }
    } else {
      if !NoneSeparates(plain) {
        var i :| 0 <= i < 9 && Separates(plain[i]);
        assert Unreadable(fields[if i < 7 then i else i + 1]);
      }
      assert fm.validFrom.Some? && Separates(fm.validFrom.value) ==> Unreadable(fields[11]);
      assert fm.validUntil.Some? && Separates(fm.validUntil.value) ==> Unreadable(fields[12]);
      assert fm.supersededBy.Some? && Separates(fm.supersededBy.value) ==> Unreadable(fields[14]);
    }
  }

  lemma EscapeIsIdentityIff(s: string)
    ensures Escape(s) == s <==> !Escapes(s)
    ensures Escape(s) == "" <==> s == ""
  {
    EscapeShape(s);
  }

  lemma EscapeAllIsIdentityIff(items: seq<string>)
    ensures EscapeAll(items) == items <==> NoneEscapes(items)
  {
    hide Escape, Escapes;
    forall i | 0 <= i < |items| ensures EscapeAll(items)[i] == items[i] <==> !Escapes(items[i]) {
      EscapeIsIdentityIff(items[i]);
    }
    if NoneEscapes(items) {
      assert EscapeAll(items) == items;
    }
  }

  lemma PresentIsIdentityIff(s: Option<string>)
    ensures Present(s) == s <==> (s.Some? ==> s.value != "" && !Escapes(s.value))
  {
    if s.Some? {
      EscapeIsIdentityIff(s.value);
    }
  }

  lemma LiteralIff(fm: Frontmatter)
    ensures WrittenBack(fm) == fm <==> Unescaped(fm) && NoEmptyOption(fm)
  {
    hide Escapes, Escape, Present;
    var plain := [fm.noteId, fm.title, fm.project, fm.noteType, fm.status, fm.updated, fm.summary, fm.scope,
        fm.corpusId];
    EscapeAllIsIdentityIff(plain);
    var escaped := EscapeAll(plain);
    assert escaped == [Escape(fm.noteId), Escape(fm.title), Escape(fm.project), Escape(fm.noteType), Escape(fm.status),
                       Escape(fm.updated), Escape(fm.summary), Escape(fm.scope), Escape(fm.corpusId)];
    if escaped == plain {
      assert forall i :: 0 <= i < 9 ==> escaped[i] == plain[i];
    }
    EscapeAllIsIdentityIff(fm.tags);
    PresentIsIdentityIff(fm.validFrom);
    PresentIsIdentityIff(fm.validUntil);
    PresentIsIdentityIff(fm.supersededBy);
    if fm.supersedes.Some? {
      EscapeAllIsIdentityIff(fm.supersedes.value);
    }
  }

  /** A note is read back with exactly its own frontmatter if and only if no string needs escaping, no scalar holds
      a line separator, and no optional field is empty. The body comes back trimmed, with its line ends converted. */
  lemma RoundTripIff(fm: Frontmatter, body: string)
    ensures var r := ParseMarkdownNote(SerializeMarkdownNote(fm, body));
            && (r.Ok? <==> Readable(fm))
            && (r.Ok? ==> r.value.body == Trim(Crlf(NormalizeLineEndings(body))))
            && (r.Ok? && r.value.frontmatter == fm <==> Readable(fm) && Unescaped(fm) && NoEmptyOption(fm))
  {
    hide FieldsOf, AnyUnreadable, Readable, Unescaped, WrittenBack, NormalizeLineEndings, Crlf, Trim;
    ReadOfWritten(fm, body);
    ReadableIff(fm);
    LiteralIff(fm);
  }

  // ----- Rewriting -----

  predicate HasCrlf(s: string) {
    exists i :: 0 <= i < |s| - 1 && s[i] == '\r' && s[i + 1] == '\n'
  }

  lemma {:induction false} CrlfShape(s: string)
    ensures |Crlf(s)| <= |s|
    ensures HasCrlf(s) ==> |Crlf(s)| < |s|
    ensures !HasCrlf(s) ==> Crlf(s) == s
    decreases |s|
  {
    if s == "" {
    } else if StartsCrlf(s) {
      CrlfShape(s[2..]);
      assert s[0] == '\r' && s[0 + 1] == '\n';
    } else {
      CrlfShape(s[1..]);
      assert HasCrlf(s) <==> HasCrlf(s[1..]) by {
        if HasCrlf(s) {
          var i :| 0 <= i < |s| - 1 && s[i] == '\r' && s[i + 1] == '\n';
          assert s[1..][i - 1] == '\r' && s[1..][i - 1 + 1] == '\n';
        }
        if HasCrlf(s[1..]) {
          var i :| 0 <= i < |s| - 2 && s[1..][i] == '\r' && s[1..][i + 1] == '\n';
          assert s[i + 1] == '\r' && s[i + 1 + 1] == '\n';
        }
      }
    }
  }

  /** Reading a stored note and writing it again gives the same text if and only if the body, as stored,
      has no line ends left to convert and does not begin with white space. */
  lemma RewriteIsStableIff(fm: Frontmatter, body: string)
    requires Readable(fm) && Unescaped(fm) && NoEmptyOption(fm)
    ensures var text := SerializeMarkdownNote(fm, body);
            var read := ParseMarkdownNote(text);
            var stored := NormalizeLineEndings(body);
            read.Ok? && (SerializeMarkdownNote(read.value.frontmatter, read.value.body) == text <==>
                         !HasCrlf(stored) && (stored != "" ==> !IsSpace(stored[0])))
  {
    hide Readable, Unescaped, NoEmptyOption, Crlf, HasCrlf, TrimStart, TrimEnd, IsSpace, SerializeMarkdownNote,
         ParseMarkdownNote;
    RoundTripIff(fm, body);
    var stored := NormalizeLineEndings(body);
    var again := Trim(Crlf(stored));
    NormalizedEnd(body);
    StoredAgain(stored);
    SerializedShape(fm, body);
    SerializedShape(fm, again);
    var front := "---\n" + Block(fm) + "\n---\n\n";
    SameMiddle(front, stored, NormalizeLineEndings(again), "\n");
  }

  lemma SameMiddle(front: string, a: string, b: string, end: string)
    ensures front + a + end == front + b + end <==> a == b
  {
    if front + a + end == front + b + end {
      assert a == (front + a + end)[|front|..|front| + |a|];
      assert b == (front + b + end)[|front|..|front| + |b|];
    }
  }

  lemma StoredAgain(stored: string)
    requires stored != "" ==> !IsSpace(stored[|stored| - 1])
    ensures NormalizeLineEndings(Trim(Crlf(stored))) == stored <==>
            !HasCrlf(stored) && (stored != "" ==> !IsSpace(stored[0]))
  {
    hide Crlf, HasCrlf, TrimStart, TrimEnd, IsSpace;
    var c := Crlf(stored);
    CrlfShape(stored);
    CrlfShape(Trim(c));
    TrimShape(c);
    if !HasCrlf(stored) && (stored != "" ==> !IsSpace(stored[0])) {
      TrimOfTrimmed(stored);
    } else if !HasCrlf(stored) {
      assert !Trimmed(stored);
    }
  }

  lemma UnescapedIsKept(fm: Frontmatter)
    requires Unescaped(fm) && Readable(fm)
    ensures Unescaped(WrittenBack(fm)) && Readable(WrittenBack(fm)) && NoEmptyOption(WrittenBack(fm))
    ensures NoEmptyOption(fm) ==> WrittenBack(fm) == fm
    ensures WrittenBack(fm) == fm.(validFrom := NonEmpty(fm.validFrom), validUntil := NonEmpty(fm.validUntil),
                                   supersedes := if fm.supersedes == Some([]) then None else fm.supersedes,
                                   supersededBy := NonEmpty(fm.supersededBy))
  {
    hide Escapes, Separates, Escape;
    var bare := fm.(validFrom := NonEmpty(fm.validFrom), validUntil := NonEmpty(fm.validUntil),
                    supersedes := if fm.supersedes == Some([]) then None else fm.supersedes,
                    supersededBy := NonEmpty(fm.supersededBy));
    LiteralIff(bare);
    assert WrittenBack(bare) == WrittenBack(fm);
  }

  function NonEmpty(s: Option<string>): Option<string> {
    if s == Some("") then None else s
  }

  /** What decides, once a note without escapes has been read and written, whether later cycles reproduce the text. */
  lemma LaterRewritesDependOn(fm: Frontmatter, body: string)
    requires Readable(fm) && Unescaped(fm)
    ensures var read := ParseMarkdownNote(SerializeMarkdownNote(fm, body));
            read.Ok? &&
            var text := SerializeMarkdownNote(read.value.frontmatter, read.value.body);
            var reread := ParseMarkdownNote(text);
            reread.Ok? && (SerializeMarkdownNote(reread.value.frontmatter, reread.value.body) == text <==>
                           !HasCrlf(Crlf(Trim(Crlf(NormalizeLineEndings(body))))))
  {
    hide Readable, Unescaped, Crlf, HasCrlf, IsSpace, SerializeMarkdownNote, ParseMarkdownNote, Trim, FieldsOf,
         AnyUnreadable, WrittenBack, NoEmptyOption, NormalizeLineEndings;
    ReadOfWritten(fm, body);
    ReadableIff(fm);
    UnescapedIsKept(fm);
    var again := Trim(Crlf(NormalizeLineEndings(body)));
    TrimShape(Crlf(NormalizeLineEndings(body)));
    RewriteIsStableIff(WrittenBack(fm), again);
    TrimmedKeepsEnds(again);
  }

  /** A string that needs escaping grows with every cycle: what is read back needs escaping again. */
  lemma {:induction false} EscapesNeverSettle(s: string)
    requires Escapes(s)
    ensures Escapes(Escape(s)) && |Escape(Escape(s))| > |Escape(s)| > |s|
  {
    EscapeShape(s);
    BackslashStays(s);
    EscapeShape(Escape(s));
  }

  lemma {:induction false} BackslashStays(s: string)
    requires Escapes(s)
    ensures Escapes(Escape(s))
  {
    var e, rest := EscapeChar(s[0]), Escape(s[1..]);
    if NeedsEscape(s[0]) {
      assert (e + rest)[0] == '\\';
    } else {
      var i :| 0 <= i < |s| && NeedsEscape(s[i]);
      assert NeedsEscape(s[1..][i - 1]);
      BackslashStays(s[1..]);
      var j :| 0 <= j < |rest| && NeedsEscape(rest[j]);
      assert NeedsEscape((e + rest)[|e| + j]);
    }
  }

  /** Converting line ends does not expose white space at the ends of trimmed text. */
  lemma TrimmedKeepsEnds(s: string)
    requires Trimmed(s)
    ensures NormalizeLineEndings(s) == Crlf(s) && Trimmed(Crlf(s))
  {
    if s != "" {
      CrlfLast(s);
      CrlfStep(s);
      assert !StartsCrlf(s);
    }
    TrimOfTrimmed(Crlf(s));
  }

  lemma {:induction false} CrlfLast(s: string)
    requires s != "" && !IsSpace(s[|s| - 1])
    ensures Crlf(s) != "" && Crlf(s)[|Crlf(s)| - 1] == s[|s| - 1]
    decreases |s|
  {
    hide Crlf;
    CrlfStep(s);
    var n := if StartsCrlf(s) then 2 else 1;
    if |s| > n {
      CrlfLast(s[n..]);
    } else {
      assert IsSpace('\n');
      CrlfEmpty();
      assert s[n..] == "";
    }
  }
}
