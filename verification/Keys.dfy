/** The keys by which a promotion looks for predecessors, and whether they survive being written and read. */
module Keys {
  import opened Domain
  import opened FrontmatterCodec
  import opened Supersession
  import opened Text

  /** What a note, or the draft it comes from, is compared by. */
  function KeyOf(corpusId: string, f: Frontmatter): Key {
    Key(corpusId, f.noteType, f.project, Folded(f.title), Folded(f.scope))
  }

  /** The key under which the note promoted from this draft is found later: its fields are trimmed by the validator
      and carry one more layer of escapes than the draft showed. */
  function KeyAsRead(corpusId: string, f: Frontmatter): Key {
    Key(corpusId, Escape(f.noteType), Escape(Trim(f.project)), Folded(Escape(Trim(f.title))),
        Folded(Escape(Trim(f.scope))))
  }

  /** What a caller can check of a draft before promoting it: no compared string holds a quotation mark, a backslash or
      a control character, and the project has no outer white space. */
  predicate PlainKeys(f: Frontmatter) {
    && !Escapes(f.noteType) && !Escapes(f.project) && Trimmed(f.project)
    && !Escapes(Trim(f.title)) && !Escapes(Trim(f.scope))
  }

  lemma {:induction false} EscapeAppend(a: string, b: string)
    ensures Escape(a + b) == Escape(a) + Escape(b)
  {
    hide EscapeChar;
    if a == "" {
      assert a + b == b;
    } else {
      assert (a + b)[0] == a[0] && (a + b)[1..] == a[1..] + b;
      EscapeAppend(a[1..], b);
    }
  }

  lemma EscapedEnds(c: char)
    requires !IsSpace(c)
    ensures !IsSpace(EscapeChar(c)[0]) && !IsSpace(EscapeChar(c)[|EscapeChar(c)| - 1])
  {
  }

  /** Escaping brings no white space to the ends of a text. */
  lemma EscapeStaysTrimmed(s: string)
    requires Trimmed(s)
    ensures Trimmed(Escape(s)) && Trim(Escape(s)) == Escape(s)
  {
    hide EscapeChar, IsSpace;
    if s != "" {
      var n := |s| - 1;
      assert s == s[..n] + [s[n]];
      EscapeAppend(s[..n], [s[n]]);
      assert Escape([s[n]]) == EscapeChar(s[n]) + Escape([s[n]][1..]) == EscapeChar(s[n]);
      EscapedEnds(s[0]);
      EscapedEnds(s[n]);
    }
    TrimShape(Escape(s));
  }

  lemma FoldedSurvivesIff(s: string)
    ensures Folded(Escape(Trim(s))) == Folded(s) <==> !Escapes(Trim(s))
  {
    hide Escapes, Trim;
    TrimShape(s);
    EscapeShape(Trim(s));
    EscapeStaysTrimmed(Trim(s));
  }

  lemma ProjectSurvivesIff(s: string)
    ensures Escape(Trim(s)) == s <==> !Escapes(s) && Trimmed(s)
  {
    hide Escapes, Trim, Escape;
    TrimShape(s);
    EscapeStaysTrimmed(Trim(s));
    EscapeShape(Trim(s));
  }

  lemma KeySurvivesIff(corpusId: string, f: Frontmatter)
    ensures KeyAsRead(corpusId, f) == KeyOf(corpusId, f) <==> PlainKeys(f)
  {
    hide Escapes, Trim, Escape, Folded, Trimmed;
    EscapeShape(f.noteType);
    ProjectSurvivesIff(f.project);
    FoldedSurvivesIff(f.title);
    FoldedSurvivesIff(f.scope);
  }

  /** Every rival that the new note can meet is found under the draft's own fields exactly when these are plain. */
  lemma {:induction false} AllRivalsFoundIff(corpusId: string, f: Frontmatter)
    ensures (forall k: Key :: Rivals(k, KeyAsRead(corpusId, f)) ==> Rivals(k, KeyOf(corpusId, f))) <==> PlainKeys(f)
  {
    hide KeyAsRead, KeyOf, PlainKeys;
    var k, own := KeyAsRead(corpusId, f), KeyOf(corpusId, f);
    KeySurvivesIff(corpusId, f);
    if forall r: Key :: Rivals(r, k) ==> Rivals(r, own) {
      var otherScope := k.(scope := Other(own.scope));
      var otherTitle := k.(title := Other(own.title));
      assert Rivals(otherScope, k) && Rivals(otherTitle, k);
      assert Rivals(otherScope, own) && Rivals(otherTitle, own);
    }
  }

  /** A string that differs from this one. */
  function Other(s: string): (t: string)
    ensures t != s
  {
    if s == "" then "other" else ""
  }
}
