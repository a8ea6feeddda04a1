/** Carriage returns that pile up before a line feed: each cycle of writing and reading takes away some of them. */
module LineEnds {
  import opened Domain
  import opened FrontmatterCodec
  import opened FrontmatterRoundTrip
  import opened Text

  function Returns(k: nat): (s: string)
    ensures |s| == k && forall i :: 0 <= i < k ==> s[i] == '\r'
  {
    seq(k, _ => '\r')
  }

  predicate HasVisible(s: string) {
    exists i :: 0 <= i < |s| && !IsSpace(s[i])
  }

  /** This way of cutting the text shows k carriage returns right before a line feed, between visible characters. */
  predicate Shows(s: string, k: nat, a: string, b: string) {
    s == a + Returns(k) + "\n" + b && HasVisible(a) && HasVisible(b)
  }

  /** Between visible characters the text has a line feed with at least k carriage returns right before it. */
  ghost predicate HasReturns(s: string, k: nat) {
    exists a, b :: Shows(s, k, a, b)
  }

  predicate Straddles(a: string, b: string) {
    a != "" && b != "" && a[|a| - 1] == '\r' && b[0] == '\n'
  }

  lemma {:induction false} CrlfAppend(a: string, b: string)
    requires !Straddles(a, b)
    ensures Crlf(a + b) == Crlf(a) + Crlf(b)
    decreases |a|
  {
    hide Crlf, Straddles, Width, Head;
    if a == "" {
      assert a + b == b;
      CrlfEmpty();
    } else {
      FirstStep(a, b);
      FirstConverted(a + b);
      FirstConverted(a);
      var rest := a[Width(a)..];
      CrlfAppend(rest, b);
      assert Head(a) + (Crlf(rest) + Crlf(b)) == (Head(a) + Crlf(rest)) + Crlf(b);
    }
  }

  /** The length of the first line end or character, and what it is converted to. */
  function Width(s: string): (w: nat)
    requires s != ""
    ensures 1 <= w <= |s|
  {
    if StartsCrlf(s) then 2 else 1
  }

  function Head(s: string): string
    requires s != ""
  {
    if StartsCrlf(s) then "\n" else [s[0]]
  }

  lemma FirstConverted(s: string)
    requires s != ""
    ensures Crlf(s) == Head(s) + Crlf(s[Width(s)..])
  {
    CrlfStep(s);
  }

  /** They do not depend on what follows a clean cut. */
  lemma FirstStep(a: string, b: string)
    requires a != "" && !Straddles(a, b)
    ensures Head(a + b) == Head(a) && Width(a + b) == Width(a)
    ensures (a + b)[Width(a)..] == a[Width(a)..] + b && !Straddles(a[Width(a)..], b)
  {
    if |a| == 1 {
      assert a[|a| - 1] == a[0];
      assert b != "" ==> (a + b)[1] == b[0];
    } else {
      assert (a + b)[1] == a[1];
    }
  }

  lemma {:induction false} CrlfOfReturns(k: nat)
    ensures Crlf(Returns(k)) == Returns(k)
  {
    hide Crlf;
    if k == 0 {
      CrlfEmpty();
    } else {
      CrlfStep(Returns(k));
      assert Returns(k)[1..] == Returns(k - 1) && [Returns(k)[0]] + Returns(k - 1) == Returns(k);
      CrlfOfReturns(k - 1);
    }
  }

  lemma {:induction false} VisibleAfterCrlf(s: string)
    ensures HasVisible(Crlf(s)) <==> HasVisible(s)
    decreases |s|
  {
    hide Crlf, IsSpace;
    if s == "" {
      CrlfEmpty();
    } else {
      CrlfStep(s);
      LineBreaksAreSpace();
      if StartsCrlf(s) {
        VisibleAfterCrlf(s[2..]);
        assert s == [s[0], s[1]] + s[2..];
        VisibleAppend([s[0], s[1]], s[2..]);
        VisibleAppend("\n", Crlf(s[2..]));
      } else {
        VisibleAfterCrlf(s[1..]);
        assert s == [s[0]] + s[1..];
        VisibleAppend([s[0]], s[1..]);
        VisibleAppend([s[0]], Crlf(s[1..]));
      }
    }
  }

  lemma LineBreaksAreSpace()
    ensures IsSpace('\r') && IsSpace('\n')
  {
  }

  lemma VisibleAppend(a: string, b: string)
    ensures HasVisible(a + b) <==> HasVisible(a) || HasVisible(b)
  {
    hide IsSpace;
    if i :| 0 <= i < |a| && !IsSpace(a[i]) {
      assert !IsSpace((a + b)[i]);
    }
    if i :| 0 <= i < |b| && !IsSpace(b[i]) {
      assert !IsSpace((a + b)[|a| + i]);
    }
    if i :| 0 <= i < |a + b| && !IsSpace((a + b)[i]) {
      assert i >= |a| ==> !IsSpace(b[i - |a|]);
    }
  }

  /** Converting line ends takes one carriage return from before each line feed. */
  lemma ReturnsShrink(s: string, k: nat, a: string, b: string)
    requires Shows(s, k + 1, a, b)
    ensures Shows(Crlf(s), k, Crlf(a), Crlf(b))
  {
    hide Crlf, HasVisible;
    var tail := "\r\n" + b;
    assert Returns(k + 1) == Returns(k) + "\r";
    assert s == (a + Returns(k)) + tail;
    CrlfAppend(a + Returns(k), tail);
    CrlfAppend(a, Returns(k));
    CrlfOfReturns(k);
    CrlfStep(tail);
    assert tail[2..] == b;
    VisibleAfterCrlf(a);
    VisibleAfterCrlf(b);
    assert Crlf(a) + Returns(k) + ("\n" + Crlf(b)) == Crlf(a) + Returns(k) + "\n" + Crlf(b);
  }

  /** Every place in the converted text comes from a place between two characters of the text. */
  lemma {:induction false} CrlfSplit(s: string, n: nat) returns (m: nat)
    requires n <= |Crlf(s)|
    ensures m <= |s| && !Straddles(s[..m], s[m..])
    ensures Crlf(s[..m]) == Crlf(s)[..n] && Crlf(s[m..]) == Crlf(s)[n..]
    decreases |s|
  {
    hide Crlf, Straddles;
    CrlfEmpty();
    if n == 0 {
      m := 0;
      NothingStraddles(s);
      assert s[..0] == "" && s[0..] == s;
    } else if s != "" {
      CrlfStep(s);
      var w := if StartsCrlf(s) then 2 else 1;
      var rest := CrlfSplit(s[w..], n - 1);
      m := w + rest;
      assert s[m..] == s[w..][rest..] && s[..m][w..] == s[w..][..rest];
      SplitAfter(s, w, rest);
      CrlfStep(s[..m]);
    }
  }

  lemma NothingStraddles(s: string)
    ensures !Straddles("", s) && !Straddles(s, "")
  {
  }

  /** A split of what follows the first line end or character splits the whole. */
  lemma SplitAfter(s: string, w: nat, rest: nat)
    requires s != "" && w == (if StartsCrlf(s) then 2 else 1) && rest <= |s| - w
    requires !Straddles(s[w..][..rest], s[w..][rest..])
    ensures !Straddles(s[..w + rest], s[w + rest..])
    ensures StartsCrlf(s[..w + rest]) <==> StartsCrlf(s)
  {
    var m := w + rest;
    assert m < |s| ==> s[m..][0] == s[m] && (rest < |s| - w ==> s[w..][rest..][0] == s[m]);
    assert s[..m][m - 1] == s[m - 1];
    assert rest > 0 ==> s[w..][..rest][rest - 1] == s[m - 1];
  }

  /** Carriage returns that conversion leaves before a line feed had one more among them. */
  lemma {:induction false} ReturnsBefore(s: string, k: nat, b: string) returns (b0: string)
    requires Crlf(s) == Returns(k) + "\n" + b && k >= 1
    ensures s == Returns(k + 1) + "\n" + b0 && Crlf(b0) == b
    decreases k
  {
    hide Crlf;
    CrlfEmpty();
    CrlfStep(s);
    var t := s[1..];
    assert Crlf(s)[0] == '\r';
    assert !StartsCrlf(s) && s[0] == '\r';
    assert Crlf(t) == Crlf(s)[1..];
    assert (Returns(k) + "\n" + b)[1..] == Returns(k - 1) + "\n" + b;
    assert Returns(k + 1) == "\r" + Returns(k);
    if k == 1 {
      assert Returns(0) + "\n" + b == "\n" + b;
      assert Crlf(t)[0] == '\n';
      CrlfStep(t);
      assert t[0] != '\n';
      assert StartsCrlf(t);
      b0 := t[2..];
      assert Returns(1) == "\r";
      assert t == "\r" + "\n" + b0;
      assert Crlf(t)[1..] == b && Crlf(t)[1..] == Crlf(b0);
      assert s == "\r" + t;
    } else {
      b0 := ReturnsBefore(t, k - 1, b);
      assert s == "\r" + t;
    }
  }

  lemma ReturnsGrow(s: string, k: nat, a: string, b: string) returns (a0: string, b0: string)
    requires k >= 1 && Shows(Crlf(s), k, a, b)
    ensures Shows(s, k + 1, a0, b0)
  {
    hide Crlf, HasVisible;
    assert Crlf(s)[..|a|] == a && Crlf(s)[|a|..] == Returns(k) + "\n" + b;
    var m := CrlfSplit(s, |a|);
    a0 := s[..m];
    b0 := ReturnsBefore(s[m..], k, b);
    VisibleAfterCrlf(a0);
    VisibleAfterCrlf(b0);
    assert s == a0 + s[m..];
    assert a0 + (Returns(k + 1) + "\n" + b0) == a0 + Returns(k + 1) + "\n" + b0;
  }

  lemma ConvertingTakesOne(s: string, k: nat)
    requires k >= 1
    ensures HasReturns(Crlf(s), k) <==> HasReturns(s, k + 1)
  {
    hide Crlf, Shows;
    var more := k + 1;
    if a, b :| Shows(s, more, a, b) {
      ReturnsShrink(s, k, a, b);
    }
    if a, b :| Shows(Crlf(s), k, a, b) {
      var a0, b0 := ReturnsGrow(s, k, a, b);
    }
  }

  /** White space at the start does not matter. */
  lemma BlankStartKeepsReturns(before: string, s: string, k: nat)
    requires Blank(before)
    ensures HasReturns(before + s, k) <==> HasReturns(s, k)
  {
    hide IsSpace;
    var whole := before + s;
    if a, b :| Shows(s, k, a, b) {
      VisibleAppend(before, a);
      assert whole == (before + a) + Returns(k) + "\n" + b;
      assert Shows(whole, k, before + a, b);
    }
    if a, b :| Shows(whole, k, a, b) {
      var i :| 0 <= i < |a| && !IsSpace(a[i]);
      assert whole[i] == a[i];
      assert forall l :: 0 <= l < |before| ==> whole[l] == before[l];
      var a0 := a[|before|..];
      assert a0[i - |before|] == a[i];
      assert s == whole[|before|..] == a0 + Returns(k) + "\n" + b;
      assert Shows(s, k, a0, b);
    }
  }

  /** Nor does white space at the end. */
  lemma BlankEndKeepsReturns(s: string, after: string, k: nat)
    requires Blank(after)
    ensures HasReturns(s + after, k) <==> HasReturns(s, k)
  {
    hide IsSpace;
    var whole := s + after;
    if a, b :| Shows(s, k, a, b) {
      VisibleAppend(b, after);
      assert whole == a + Returns(k) + "\n" + (b + after);
      assert Shows(whole, k, a, b + after);
    }
    if a, b :| Shows(whole, k, a, b) {
      var j :| 0 <= j < |b| && !IsSpace(b[j]);
      assert whole[|a| + k + 1 + j] == b[j];
      assert forall l :: |s| <= l < |whole| ==> whole[l] == after[l - |s|];
      var b0 := b[..|b| - |after|];
      assert b0[j] == b[j];
      assert s == whole[..|s|] == a + Returns(k) + "\n" + b0;
      assert Shows(s, k, a, b0);
    }
  }

  lemma TrimKeepsReturns(s: string, k: nat)
    ensures HasReturns(Trim(s), k) <==> HasReturns(s, k)
    ensures HasReturns(TrimEnd(s), k) <==> HasReturns(s, k)
  {
    hide HasReturns, IsSpace, TrimStart, TrimEnd;
    TrimStartShape(s);
    var t := TrimStart(s);
    var lead := s[..|s| - |t|];
    assert s == lead + t;
    BlankStartKeepsReturns(lead, t, k);
    TrimEndKeepsReturns(s, k);
    TrimEndKeepsReturns(t, k);
  }

  lemma TrimEndKeepsReturns(s: string, k: nat)
    ensures HasReturns(TrimEnd(s), k) <==> HasReturns(s, k)
  {
    hide HasReturns, IsSpace, TrimEnd;
    TrimEndShape(s);
    var t := TrimEnd(s);
    assert s == t + s[|t|..];
    BlankEndKeepsReturns(t, s[|t|..], k);
  }

  /** In trimmed text every carriage return before a line feed stands between visible characters. */
  lemma TrimmedReturns(s: string)
    requires Trimmed(s)
    ensures HasCrlf(s) <==> HasReturns(s, 1)
  {
    hide IsSpace;
    LineBreaksAreSpace();
    if i :| 0 <= i < |s| - 1 && s[i] == '\r' && s[i + 1] == '\n' {
      var a, b := s[..i], s[i + 2..];
      assert i != 0 && i + 2 < |s|;
      assert !IsSpace(a[0]) && !IsSpace(b[|b| - 1]);
      assert s == a + Returns(1) + "\n" + b;
      assert Shows(s, 1, a, b);
    }
    if a, b :| Shows(s, 1, a, b) {
      assert s[|a|] == '\r' && s[|a| + 1] == '\n';
    }
  }

  /** After a note without escapes has been read and written once, all later cycles reproduce the text, exactly unless
      its body has, between visible characters, a line feed with four carriage returns right before it: writing and
      reading take away two at a time, and writing again a third. */
  lemma {:induction false} LaterRewritesAreStableIff(fm: Frontmatter, body: string)
    requires Readable(fm) && Unescaped(fm)
    ensures var read := ParseMarkdownNote(SerializeMarkdownNote(fm, body));
            read.Ok? &&
            var text := SerializeMarkdownNote(read.value.frontmatter, read.value.body);
            var reread := ParseMarkdownNote(text);
            reread.Ok? && (SerializeMarkdownNote(reread.value.frontmatter, reread.value.body) == text <==>
                           !HasReturns(body, 4))
  {
    hide Readable, Unescaped, Crlf, HasCrlf, SerializeMarkdownNote, ParseMarkdownNote, Trim, TrimEnd, HasReturns,
         Trimmed;
    LaterRewritesDependOn(fm, body);
    var again := Trim(Crlf(NormalizeLineEndings(body)));
    TrimShape(Crlf(NormalizeLineEndings(body)));
    TrimmedKeepsEnds(again);
    TrimmedReturns(Crlf(again));
    ConvertingTakesOne(again, 1);
    TrimKeepsReturns(Crlf(NormalizeLineEndings(body)), 2);
    ConvertingTakesOne(NormalizeLineEndings(body), 2);
    TrimKeepsReturns(Crlf(body), 3);
    ConvertingTakesOne(body, 3);
  }

  /** A body whose note is still changed by the second cycle. */
  lemma FourReturnsAreUnstable(fm: Frontmatter)
    requires Readable(fm) && Unescaped(fm)
    ensures var read := ParseMarkdownNote(SerializeMarkdownNote(fm, "a\r\r\r\r\nb"));
            read.Ok? &&
            var text := SerializeMarkdownNote(read.value.frontmatter, read.value.body);
            var reread := ParseMarkdownNote(text);
            reread.Ok? && SerializeMarkdownNote(reread.value.frontmatter, reread.value.body) != text
  {
    hide Readable, Unescaped, SerializeMarkdownNote, ParseMarkdownNote, HasReturns;
    LaterRewritesAreStableIff(fm, "a\r\r\r\r\nb");
    assert "a"[0] == 'a' && "b"[0] == 'b';
    assert "a\r\r\r\r\nb" == "a" + Returns(4) + "\n" + "b";
    assert Shows("a\r\r\r\r\nb", 4, "a", "b");
    ShowsHas("a\r\r\r\r\nb", 4, "a", "b");
  }

  lemma ShowsHas(s: string, k: nat, a: string, b: string)
    requires Shows(s, k, a, b)
    ensures HasReturns(s, k)
  {
  }
}
