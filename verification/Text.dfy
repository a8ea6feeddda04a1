/** Strings as the runtime sees them: white space, trimming and case folding. */
module Text {

  datatype Option<+T> = None | Some(value: T)

  /** The characters that `String.prototype.trim` and `\s` accept. */
  predicate IsSpace(c: char) {
    || '\t' <= c <= '\r'
    || c == ' ' || c == '\U{00A0}' || c == '\U{1680}'
    || '\U{2000}' <= c <= '\U{200A}'
    || c == '\U{2028}' || c == '\U{2029}' || c == '\U{202F}' || c == '\U{205F}'
    || c == '\U{3000}' || c == '\U{FEFF}'
  }

  /** The characters that `.` never matches and `^`, `$` stop at. */
  predicate IsLineTerminator(c: char) {
    c == '\n' || c == '\r' || c == '\U{2028}' || c == '\U{2029}'
  }

  predicate HasLineTerminator(s: string) {
    exists i :: 0 <= i < |s| && IsLineTerminator(s[i])
  }

  function TrimStart(s: string): (t: string)
    ensures |t| <= |s|
  {
    if s != [] && IsSpace(s[0]) then TrimStart(s[1..]) else s
  }

  function TrimEnd(s: string): (t: string)
    ensures |t| <= |s|
  {
    if s != [] && IsSpace(s[|s| - 1]) then TrimEnd(s[..|s| - 1]) else s
  }

  function Trim(s: string): string {
    TrimEnd(TrimStart(s))
  }

  lemma {:induction false} TrimStartShape(s: string)
    ensures var t := TrimStart(s);
            && |t| <= |s| && t == s[|s| - |t|..] && (t != [] ==> !IsSpace(t[0]))
            && forall i :: 0 <= i < |s| - |t| ==> IsSpace(s[i])
  {
    hide IsSpace;
    if s != [] && IsSpace(s[0]) {
      TrimStartShape(s[1..]);
      var t := TrimStart(s);
      assert t == TrimStart(s[1..]) && t == s[1..][|s| - 1 - |t|..];
      forall i | 0 <= i < |s| - |t| ensures IsSpace(s[i]) {
        assert i > 0 ==> s[i] == s[1..][i - 1];
      }
    }
  }

  lemma {:induction false} TrimEndShape(s: string)
    ensures var t := TrimEnd(s);
            && t <= s && (t != [] ==> !IsSpace(t[|t| - 1]))
            && forall i :: |t| <= i < |s| ==> IsSpace(s[i])
  {
    if s != [] && IsSpace(s[|s| - 1]) {
      TrimEndShape(s[..|s| - 1]);
    }
  }

  lemma TrimShape(s: string)
    ensures |Trim(s)| <= |TrimStart(s)| <= |s| && Trimmed(Trim(s))
    ensures Trim(s) == s <==> Trimmed(s)
    ensures |Trim(s)| == |s| <==> Trimmed(s)
  {
    TrimStartShape(s);
    TrimEndShape(TrimStart(s));
    if Trimmed(s) {
      TrimOfTrimmed(s);
    }
  }

  /** Text without outer white space. */
  predicate Trimmed(s: string) {
    s != [] ==> !IsSpace(s[0]) && !IsSpace(s[|s| - 1])
  }

  lemma TrimOfTrimmed(s: string)
    requires Trimmed(s)
    ensures TrimStart(s) == s && TrimEnd(s) == s && Trim(s) == s
  {
  }

  lemma TrimIdempotent(s: string)
    ensures Trim(Trim(s)) == Trim(s)
  {
    TrimShape(s);
    TrimOfTrimmed(Trim(s));
  }

  lemma TrimStartDropsSpaces(a: string, b: string)
    requires forall c :: c in a ==> IsSpace(c)
    ensures TrimStart(a + b) == TrimStart(b)
  {
    if a == [] {
      assert a + b == b;
    } else {
      assert (a + b)[0] == a[0] && a[0] in a;
      assert (a + b)[1..] == a[1..] + b;
      TrimStartDropsSpaces(a[1..], b);
    }
  }

  lemma TrimEndDropsSpaces(a: string, b: string)
    requires forall c :: c in b ==> IsSpace(c)
    ensures TrimEnd(a + b) == TrimEnd(a)
  {
    if b == [] {
      assert a + b == a;
    } else {
      assert (a + b)[|a + b| - 1] == b[|b| - 1] && b[|b| - 1] in b;
      assert (a + b)[..|a + b| - 1] == a + b[..|b| - 1];
      TrimEndDropsSpaces(a, b[..|b| - 1]);
    }
  }

  lemma TrimOfPadded(a: string, p: string, b: string)
    requires (forall c :: c in a ==> IsSpace(c)) && (forall c :: c in b ==> IsSpace(c)) && Trimmed(p)
    ensures Trim(a + p + b) == p
  {
    hide IsSpace;
    TrimOfTrimmed(p);
    assert a + p + b == a + (p + b);
    TrimStartDropsSpaces(a, p + b);
    if p == "" {
      assert p + b == b == b + "";
      TrimStartDropsSpaces(b, "");
    } else {
      assert (p + b)[0] == p[0];
    }
    TrimEndDropsSpaces(p, b);
  }

  function LowerChar(c: char): char {
    if 'A' <= c <= 'Z' then (c as int + 32) as char else c
  }

  function Lower(s: string): (t: string)
    ensures |t| == |s|
  {
    seq(|s|, i requires 0 <= i < |s| => LowerChar(s[i]))
  }

  /** `s.trim().toLowerCase()`, the form in which titles and scopes are compared. */
  function Folded(s: string): string {
    Lower(Trim(s))
  }

  /** `items.join(separator)`. */
  function Join(items: seq<string>, separator: string): string {
    if items == [] then ""
    else if |items| == 1 then items[0]
    else items[0] + separator + Join(items[1..], separator)
  }

  predicate StartsWith(s: string, prefix: string) {
    prefix <= s
  }

  /** `s.replace(/\r\n/g, "\n")`. */
  function Crlf(s: string): string {
    if s == "" then ""
    else if |s| >= 2 && s[0] == '\r' && s[1] == '\n' then "\n" + Crlf(s[2..])
    else [s[0]] + Crlf(s[1..])
  }

  /** `text.split("\n")`. */
  function Split(text: string): (lines: seq<string>)
    ensures |lines| >= 1
  {
    if text == "" then [""]
    else
      var rest := Split(text[1..]);
      if text[0] == '\n' then [""] + rest else [[text[0]] + rest[0]] + rest[1..]
  }

  /** Each value once, in order of first appearance. */
  function Unique(values: seq<string>): (out: seq<string>)
    ensures |out| <= |values|
    ensures forall i, j :: 0 <= i < j < |out| ==> out[i] != out[j]
    ensures forall v :: v in out <==> v in values
  {
    if values == [] then []
    else
      var last := values[|values| - 1];
      var before := Unique(values[..|values| - 1]);
      assert values == values[..|values| - 1] + [last];
      if last in before then before else before + [last]
  }

  /** Whatever comes earlier in the result has been seen earlier in the values. */
  lemma {:induction false} UniqueInOrder(values: seq<string>, i: nat, j: nat, q: nat)
    requires i < j < |Unique(values)| && q < |values| && values[q] == Unique(values)[j]
    ensures Unique(values)[i] in values[..q + 1]
  {
    var n := |values| - 1;
    var before := Unique(values[..n]);
    if q < n {
      assert values[..n][q] in values[..n];
      var k :| 0 <= k < |before| && before[k] == values[q];
      assert Unique(values)[k] == before[k] && k == j;
      UniqueInOrder(values[..n], i, j, q);
      assert values[..n][..q + 1] == values[..q + 1];
    } else {
      assert values[..q + 1] == values;
    }
  }

  /** `items.slice(0, n)` for a limit that is not negative, nothing for a negative one. */
  function FirstN<T>(items: seq<T>, n: int): (out: seq<T>)
    ensures out <= items && |out| == if n < 0 then 0 else if n < |items| then n else |items|
  {
    if n <= 0 then [] else if n >= |items| then items else items[..n]
  }

  /** `s.slice(0, end)`: a negative end counts from the back. */
  function SliceTo<T>(s: seq<T>, end: int): (t: seq<T>)
    ensures t <= s
    ensures end >= 0 ==> |t| == if end < |s| then end else |s|
  {
    if end >= |s| then s
    else if end >= 0 then s[..end]
    else if |s| + end > 0 then s[..|s| + end]
    else []
  }
}
