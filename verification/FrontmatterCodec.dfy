/** Notes as markdown text: a frontmatter block between fences, then the body. */
module FrontmatterCodec {
  import opened Domain
  import opened Text

  datatype Value = Scalar(text: string) | Flag(on: bool) | List(items: seq<string>)

  datatype Result<T> = Ok(value: T) | Missing | Unsupported(line: string)

  datatype ParsedNote = ParsedNote(frontmatter: Frontmatter, body: string)

  const KEYS: seq<string> := [
    "noteId", "title", "project", "type", "status", "updated", "summary", "tags", "scope", "corpusId",
    "currentState", "validFrom", "validUntil", "supersedes", "supersededBy"]

  // ----- Strings -----

  function Hex(n: nat): char
    requires n < 16
  {
    "0123456789abcdef"[n]
  }

  /** One character as `JSON.stringify` writes it. */
  function EscapeChar(c: char): (e: string)
    ensures e == [c] <==> !NeedsEscape(c)
    ensures |e| >= 1 && (NeedsEscape(c) ==> |e| >= 2)
    ensures forall i :: 0 <= i < |e| ==> e[i] >= ' ' && (IsSeparator(e[i]) ==> !NeedsEscape(c))
  {
    if c == '\"' then "\\\""
    else if c == '\\' then "\\\\"
    else if c == '\U{08}' then "\\b"
    else if c == '\U{0C}' then "\\f"
    else if c == '\n' then "\\n"
    else if c == '\r' then "\\r"
    else if c == '\t' then "\\t"
    else if c < ' ' then "\\u00" + [Hex(c as int / 16), Hex(c as int % 16)]
    else [c]
  }

  predicate NeedsEscape(c: char) {
    c == '\"' || c == '\\' || c < ' '
  }

  /** Written as they are by `JSON.stringify`, but not matched by `.` when the line is read. */
  predicate IsSeparator(c: char) {
    c == '\U{2028}' || c == '\U{2029}'
  }

  function Escape(s: string): string {
    if s == "" then "" else EscapeChar(s[0]) + Escape(s[1..])
  }

  function Quote(s: string): string {
    "\"" + Escape(s) + "\""
  }

  /** Quotes are taken off; escapes are not undone. */
  function Unquote(s: string): string {
    if (StartsWith(s, "\"") && s[|s| - 1] == '\"') || (StartsWith(s, "'") && s[|s| - 1] == '\'') then
      if |s| >= 2 then s[1..|s| - 1] else ""
    else s
  }

  predicate Escapes(s: string) {
    exists i :: 0 <= i < |s| && NeedsEscape(s[i])
  }

  predicate Separates(s: string) {
    exists i :: 0 <= i < |s| && IsSeparator(s[i])
  }

  lemma NothingSeparates()
    ensures !Separates("") && !Escapes("")
  {
  }

  lemma {:induction false} EscapeShape(s: string)
    ensures forall i :: 0 <= i < |Escape(s)| ==> Escape(s)[i] >= ' '
    ensures Separates(Escape(s)) <==> Separates(s)
    ensures |Escape(s)| >= |s|
    ensures Escapes(s) ==> |Escape(s)| > |s|
    ensures !Escapes(s) ==> Escape(s) == s
  {
    hide EscapeChar, Escapes, Separates;
    if s == "" {
      NothingSeparates();
    } else {
      EscapeShape(s[1..]);
      var e, rest := EscapeChar(s[0]), Escape(s[1..]);
      EscapesCons(s);
      SeparatesAppend([s[0]], s[1..]);
      assert [s[0]] + s[1..] == s;
      SeparatesAppend(e, rest);
      EscapedCharSeparates(s[0]);
    }
  }

  lemma EscapesCons(s: string)
    requires s != ""
    ensures Escapes(s) <==> NeedsEscape(s[0]) || Escapes(s[1..])
  {
    hide NeedsEscape;
    if Escapes(s[1..]) {
      var i :| 0 <= i < |s| - 1 && NeedsEscape(s[1..][i]);
      assert NeedsEscape(s[i + 1]);
    }
    if Escapes(s) && !NeedsEscape(s[0]) {
      var i :| 0 <= i < |s| && NeedsEscape(s[i]);
      assert NeedsEscape(s[1..][i - 1]);
    }
  }

  lemma EscapedCharSeparates(c: char)
    ensures Separates(EscapeChar(c)) <==> Separates([c])
  {
    var e := EscapeChar(c);
    if IsSeparator(c) {
      assert e == [c];
    }
    if Separates(e) {
      var i :| 0 <= i < |e| && IsSeparator(e[i]);
      assert e == [c];
    }
    if Separates([c]) {
      var i :| 0 <= i < 1 && IsSeparator([c][i]);
    }
  }

  lemma SeparatesAppend(a: string, b: string)
    ensures Separates(a + b) <==> Separates(a) || Separates(b)
  {
    if Separates(a) {
      var i :| 0 <= i < |a| && IsSeparator(a[i]);
      assert IsSeparator((a + b)[i]);
    }
    if Separates(b) {
      var i :| 0 <= i < |b| && IsSeparator(b[i]);
      assert IsSeparator((a + b)[|a| + i]);
    }
    if Separates(a + b) {
      var i :| 0 <= i < |a + b| && IsSeparator((a + b)[i]);
      assert i >= |a| ==> IsSeparator(b[i - |a|]);
    }
  }

  /** What becomes of a quoted string when it is read back: exactly the strings that need no escape survive. */
  lemma StringSurvivesIff(s: string)
    ensures Unquote(Quote(s)) == Escape(s)
    ensures Unquote(Quote(s)) == s <==> !Escapes(s)
  {
    EscapeShape(s);
    assert Quote(s)[|Quote(s)| - 1] == '\"';
  }

  // ----- Printing -----

  function FieldsOf(fm: Frontmatter): (fields: seq<Option<Value>>)
    ensures |fields| == |KEYS|
  {
    [Some(Scalar(fm.noteId)), Some(Scalar(fm.title)), Some(Scalar(fm.project)), Some(Scalar(fm.noteType)),
     Some(Scalar(fm.status)), Some(Scalar(fm.updated)), Some(Scalar(fm.summary)), Some(List(fm.tags)),
     Some(Scalar(fm.scope)), Some(Scalar(fm.corpusId)), Some(Flag(fm.currentState)),
     OptionalScalar(fm.validFrom), OptionalScalar(fm.validUntil),
     if fm.supersedes.Some? then Some(List(fm.supersedes.value)) else None,
     OptionalScalar(fm.supersededBy)]
  }

  function OptionalScalar(s: Option<string>): Option<Value> {
    if s.Some? then Some(Scalar(s.value)) else None
  }

  function ItemLines(items: seq<string>): (lines: seq<string>)
    ensures |lines| == |items|
  {
    seq(|items|, i requires 0 <= i < |items| => "  - " + Quote(items[i]))
  }

  function FieldLines(key: string, field: Option<Value>): seq<string> {
    match field
    case None => []
    case Some(Flag(b)) => [key + ": " + if b then "true" else "false"]
    case Some(Scalar(s)) => [key + ": " + Quote(s)]
    case Some(List(items)) => if items == [] then [key + ": []"] else [key + ":"] + ItemLines(items)
  }

  /** The lines of the fields from the k-th on. */
  function LinesFrom(fields: seq<Option<Value>>, k: nat): seq<string>
    requires |fields| == |KEYS| && k <= |KEYS|
    decreases |KEYS| - k
  {
    if k == |KEYS| then [] else FieldLines(KEYS[k], fields[k]) + LinesFrom(fields, k + 1)
  }

  function NormalizeLineEndings(s: string): string {
    TrimEnd(Crlf(s))
  }

  function SerializeMarkdownNote(fm: Frontmatter, body: string): string {
    Join(["---"] + LinesFrom(FieldsOf(fm), 0) + ["---", "", NormalizeLineEndings(body), ""], "\n")
  }

  // ----- Parsing -----

  predicate IsWordChar(c: char) {
    'A' <= c <= 'Z' || 'a' <= c <= 'z' || '0' <= c <= '9' || c == '_'
  }

  function WordLength(s: string): (n: nat)
    ensures n <= |s| && forall i :: 0 <= i < n ==> IsWordChar(s[i])
    ensures n < |s| ==> !IsWordChar(s[n])
  {
    if s == "" || !IsWordChar(s[0]) then 0 else 1 + WordLength(s[1..])
  }

  datatype KeyValue = KeyValue(key: string, raw: string)

  /** `/^([A-Za-z0-9_]+):\s*(.*)$/` */
  function MatchKey(line: string): Option<KeyValue> {
    var n := WordLength(line);
    if n == 0 || n == |line| || line[n] != ':' then None
    else
      var raw := TrimStart(line[n + 1..]);
      if HasLineTerminator(raw) then None else Some(KeyValue(line[..n], raw))
  }

  /** `/^\s*-\s+/` */
  predicate IsItem(line: string) {
    var t := TrimStart(line);
    |t| >= 2 && t[0] == '-' && IsSpace(t[1])
  }

  function ItemText(line: string): string {
    Unquote(Trim(if IsItem(line) then TrimStart(line)[1..] else line))
  }

  /** How many of the first lines are items. */
  function ItemCount(lines: seq<string>): (n: nat)
    ensures n <= |lines|
  {
    if lines == [] || !IsItem(lines[0]) then 0 else 1 + ItemCount(lines[1..])
  }

  lemma {:induction false} ItemCountIs(lines: seq<string>, n: nat)
    requires n <= |lines| && (forall i :: 0 <= i < n ==> IsItem(lines[i])) && (n < |lines| ==> !IsItem(lines[n]))
    ensures ItemCount(lines) == n
  {
    hide IsItem;
    if n > 0 {
      ItemCountIs(lines[1..], n - 1);
    }
  }

  function ScalarValue(text: string): Value {
    if text == "true" then Flag(true)
    else if text == "false" then Flag(false)
    else if text == "[]" then List([])
    else Scalar(Unquote(text))
  }

  function ItemsOf(lines: seq<string>, n: nat): seq<string>
    requires n <= |lines|
  {
    seq(n, i requires 0 <= i < n => ItemText(lines[i]))
  }

  /** The values that a block of lines sets, on top of those already known. */
  function ReadLines(lines: seq<string>, values: map<string, Value>): Result<map<string, Value>>
    decreases |lines|
  {
    if lines == [] then Ok(values)
    else if Trim(lines[0]) == "" then ReadLines(lines[1..], values)
    else
      match MatchKey(lines[0])
      case None => Unsupported(lines[0])
      case Some(KeyValue(key, raw)) =>
        if raw == "" then
          var n := ItemCount(lines[1..]);
          ReadLines(lines[1..][n..], values[key := List(ItemsOf(lines[1..], n))])
        else
          ReadLines(lines[1..], values[key := ScalarValue(Trim(raw))])
  }

  function Get(values: map<string, Value>, key: string): Option<Value> {
    if key in values then Some(values[key]) else None
  }

  function AsString(v: Option<Value>): string {
    if v.Some? && v.value.Scalar? then v.value.text else ""
  }

  function OptionalString(v: Option<Value>): Option<string> {
    if AsString(v) != "" then Some(AsString(v)) else None
  }

  function AsStringArray(v: Option<Value>): seq<string> {
    if v.Some? && v.value.List? then v.value.items else []
  }

  function OptionalStringArray(v: Option<Value>): Option<seq<string>> {
    if AsStringArray(v) != [] then Some(AsStringArray(v)) else None
  }

  function FrontmatterOf(fields: seq<Option<Value>>): Frontmatter
    requires |fields| == |KEYS|
  {
    Frontmatter(
      AsString(fields[0]), AsString(fields[1]), AsString(fields[2]), AsString(fields[3]), AsString(fields[4]),
      AsString(fields[5]), AsString(fields[6]), AsStringArray(fields[7]), AsString(fields[8]), AsString(fields[9]),
      fields[10] == Some(Flag(true)), OptionalString(fields[11]), OptionalString(fields[12]),
      OptionalStringArray(fields[13]), OptionalString(fields[14]))
  }

  function Lookup(values: map<string, Value>): (fields: seq<Option<Value>>)
    ensures |fields| == |KEYS|
  {
    seq(|KEYS|, i requires 0 <= i < |KEYS| => Get(values, KEYS[i]))
  }

  function ParseBlock(block: string): Result<Frontmatter> {
    match ReadLines(Split(block), map[])
    case Ok(values) => Ok(FrontmatterOf(Lookup(values)))
    case Unsupported(line) => Unsupported(line)
    case Missing => Missing
  }

  /** Where the first line break before a closing fence stands. */
  function FenceAt(text: string): (k: Option<nat>)
    ensures k.Some? ==> k.value + 4 <= |text|
  {
    if text == "" then None
    else if StartsWith(text, "\n---") then Some(0)
    else
      match FenceAt(text[1..])
      case None => None
      case Some(k) => Some(k + 1)
  }

  /** `parseMarkdownNote`; its pattern takes the shortest block that a fence can close. */
  function ParseMarkdownNote(markdown: string): Result<ParsedNote> {
    var text := NormalizeLineEndings(markdown);
    if !StartsWith(text, "---\n") then Missing
    else
      match FenceAt(text[4..])
      case None => Missing
      case Some(k) =>
        var rest := text[4 + k + 4..];
        var body := if StartsWith(rest, "\n") then rest[1..] else rest;
        match ParseBlock(text[4..4 + k])
        case Ok(fm) => Ok(ParsedNote(fm, Trim(body)))
        case Unsupported(line) => Unsupported(line)
        case Missing => Missing
  }

  /** The inner loop: the list items that follow a key, and the index of the last of them. */
  method ReadItems(lines: seq<string>, index: nat) returns (items: seq<string>, last: nat)
    requires index < |lines|
    ensures last == index + ItemCount(lines[index + 1..])
    ensures items == ItemsOf(lines[index + 1..], last - index)
  {
    hide IsItem, ItemText;
    ghost var after := lines[index + 1..];
    items, last := [], index;
    while last + 1 < |lines| && IsItem(lines[last + 1])
      invariant index <= last < |lines|
      invariant forall i :: 0 <= i < last - index ==> IsItem(after[i])
      invariant items == ItemsOf(after, last - index)
    {
      assert after[last - index] == lines[last + 1];
      last := last + 1;
      items := items + [ItemText(lines[last])];
    }
    if last + 1 < |lines| {
      assert after[last - index] == lines[last + 1];
    }
    ItemCountIs(after, last - index);
  }

  /** One turn of the outer loop. */
  lemma ReadStep(lines: seq<string>, index: nat, values: map<string, Value>)
    requires index < |lines|
    ensures var found := MatchKey(lines[index]);
            ReadLines(lines[index..], values) ==
              if Trim(lines[index]) == "" then ReadLines(lines[index + 1..], values)
              else if found.None? then Unsupported(lines[index])
              else if found.value.raw == "" then
                var n := ItemCount(lines[index + 1..]);
                ReadLines(lines[index + 1 + n..], values[found.value.key := List(ItemsOf(lines[index + 1..], n))])
              else ReadLines(lines[index + 1..], values[found.value.key := ScalarValue(Trim(found.value.raw))])
  {
    hide *;
    var rest := lines[index..];
    ReadFirst(rest, values);
    assert rest[0] == lines[index] && rest[1..] == lines[index + 1..];
    DropDrop(lines, index + 1, ItemCount(lines[index + 1..]));
  }

  lemma DropDrop(lines: seq<string>, i: nat, n: nat)
    requires i + n <= |lines|
    ensures lines[i..][n..] == lines[i + n..]
  {
  }

  lemma ReadFirst(lines: seq<string>, values: map<string, Value>)
    requires lines != []
    ensures var found := MatchKey(lines[0]);
            ReadLines(lines, values) ==
              if Trim(lines[0]) == "" then ReadLines(lines[1..], values)
              else if found.None? then Unsupported(lines[0])
              else if found.value.raw == "" then
                var n := ItemCount(lines[1..]);
                ReadLines(lines[1..][n..], values[found.value.key := List(ItemsOf(lines[1..], n))])
              else ReadLines(lines[1..], values[found.value.key := ScalarValue(Trim(found.value.raw))])
  {
    hide Trim, MatchKey, ItemCount, ItemsOf, ScalarValue;
  }

  method ParseFrontmatterBlock(block: string) returns (r: Result<Frontmatter>)
    ensures r == ParseBlock(block)
  {
    hide *;
    var values: map<string, Value> := map[];
    var lines := Split(block);
    var index := 0;
    while index < |lines|
      invariant 0 <= index <= |lines|
      invariant ReadLines(lines[index..], values) == ReadLines(lines, map[])
    {
      var line := lines[index];
      ReadStep(lines, index, values);
      if Trim(line) == "" {
        index := index + 1;
        continue;
      }
      var found := MatchKey(line);
      if found.None? {
        LineIsUnsupported(block, line);
        return Unsupported(line);
      }
      var key, raw := found.value.key, found.value.raw;
      if raw == "" {
        var items, last := ReadItems(lines, index);
        values := values[key := List(items)];
        index := last;
      } else {
        values := values[key := ScalarValue(Trim(raw))];
      }
      index := index + 1;
    }
    assert lines[index..] == [];
    NoMoreLines(values);
    BlockIs(block, values);
    r := Ok(FrontmatterOf(Lookup(values)));
  }

  lemma BlockIs(block: string, values: map<string, Value>)
    requires ReadLines(Split(block), map[]) == Ok(values)
    ensures ParseBlock(block) == Ok(FrontmatterOf(Lookup(values)))
  {
  }

  lemma LineIsUnsupported(block: string, line: string)
    requires ReadLines(Split(block), map[]) == Unsupported(line)
    ensures ParseBlock(block) == Unsupported(line)
  {
  }

  lemma NoMoreLines(values: map<string, Value>)
    ensures ReadLines([], values) == Ok(values)
  {
  }
}
