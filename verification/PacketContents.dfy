/** What a context packet shows of the candidates: their words, sentences, qualifiers, sources and excerpts. */
module PacketContents {
  import opened Chunking
  import opened ContextBudget
  import opened Neighborhood
  import opened Runs
  import opened Text

  // ----- Words -----

  predicate IsVisible(c: char) {
    !IsSpace(c)
  }

  lemma CollapseGap(gap: string, s: string)
    requires NoneOf(gap, IsVisible) && (s != "" ==> IsVisible(s[0]))
    ensures Collapse(gap + s) == Mark(gap, " ") + Collapse(s)
  {
    hide IsSpace;
    if gap == "" {
      assert gap + s == s;
    } else {
      TrimStartDropsSpaces(gap, s);
      assert (gap + s)[0] == gap[0];
      assert TrimStart(s) == s;
    }
  }

  lemma CollapseWord(w: string, s: string)
    requires AllOf(w, IsVisible)
    ensures Collapse(w + s) == w + Collapse(s)
  {
    hide IsSpace;
    if w == "" {
      assert w + s == s;
    } else {
      assert (w + s)[0] == w[0] && (w + s)[1..] == w[1..] + s;
      CollapseWord(w[1..], s);
      assert [w[0]] + (w[1..] + Collapse(s)) == w + Collapse(s);
    }
  }

  /** Every gap shrinks to one blank. */
  lemma {:induction false} CollapseOfSpread(words: seq<string>, gaps: seq<string>)
    requires Spreads(words, gaps, IsVisible)
    ensures Collapse(Spread(words, gaps)) ==
            Mark(gaps[0], " ") + Join(words, " ") + if words == [] then "" else Mark(gaps[|words|], " ")
  {
    hide IsVisible, AllOf, NoneOf, Collapse;
    if words == [] {
      assert gaps[0] + "" == gaps[0];
      CollapseGap(gaps[0], "");
      CollapseNothing();
    } else {
      var rest := Spread(words[1..], gaps[1..]);
      SpreadsTail(words, gaps, IsVisible);
      CollapseOfSpread(words[1..], gaps[1..]);
      WordEnds(words[0]);
      assert gaps[0] + words[0] + rest == gaps[0] + (words[0] + rest);
      CollapseGap(gaps[0], words[0] + rest);
      CollapseWord(words[0], rest);
      if |words| > 1 {
        assert gaps[1..][|words| - 1] == gaps[|words|] && gaps[1..][0] == gaps[1];
        assert words[0] + (" " + Join(words[1..], " ") + Mark(gaps[|words|], " ")) ==
               (words[0] + " " + Join(words[1..], " ")) + Mark(gaps[|words|], " ");
      }
    }
  }

  lemma CollapseNothing()
    ensures Collapse("") == ""
  {
  }

  lemma WordEnds(w: string)
    requires w != "" && AllOf(w, IsVisible)
    ensures IsVisible(w[0]) && !IsSpace(w[0]) && !IsSpace(w[|w| - 1])
  {
  }

  lemma JoinIsTrimmed(words: seq<string>)
    requires forall i :: 0 <= i < |words| ==> words[i] != "" && AllOf(words[i], IsVisible)
    ensures Trimmed(Join(words, " "))
  {
    if words != [] {
      JoinEnds(words);
    }
  }

  lemma JoinEnds(words: seq<string>)
    requires words != [] && forall i :: 0 <= i < |words| ==> words[i] != "" && AllOf(words[i], IsVisible)
    ensures var text := Join(words, " "); text != "" && !IsSpace(text[0]) && !IsSpace(text[|text| - 1])
  {
    hide AllOf, IsSpace;
    WordEnds(words[0]);
    if |words| > 1 {
      JoinEnds(words[1..]);
      var text, rest := Join(words, " "), Join(words[1..], " ");
      assert text == words[0] + " " + rest && text[|text| - 1] == rest[|rest| - 1];
    }
  }

  /** Tidying a text leaves its words, one blank between any two, whatever the white space between and around them. */
  lemma TidyIsWords(words: seq<string>, gaps: seq<string>)
    requires Spreads(words, gaps, IsVisible)
    ensures Tidy(Spread(words, gaps)) == Join(words, " ")
  {
    hide Collapse, AllOf, NoneOf, Trim, Join, IsVisible;
    CollapseOfSpread(words, gaps);
    JoinIsTrimmed(words);
    var mark := if words == [] then "" else Mark(gaps[|words|], " ");
    TrimOfPadded(Mark(gaps[0], " "), Join(words, " "), mark);
    assert mark == "" ==> Mark(gaps[0], " ") + Join(words, " ") + mark == Mark(gaps[0], " ") + Join(words, " ");
  }

  // ----- Excerpts -----

  /** An excerpt is the tidied text, or its beginning and three dots that together fill the length exactly. */
  lemma ExcerptIs(value: string, maxLength: int)
    requires maxLength >= 3
    ensures var text, t := Tidy(value), ExcerptText(value, maxLength);
            if |text| <= maxLength then t == text
            else |t| == maxLength && t[..maxLength - 3] == text[..maxLength - 3] && t[maxLength - 3..] == "..."
  {
    hide Tidy;
  }

  // ----- Sentences -----

  /** A blank right behind a full stop, exclamation mark or question mark. */
  predicate BreaksAt(s: string, k: nat) {
    0 < k < |s| && s[k] == ' ' && s[k - 1] in ".!?"
  }

  predicate Unbroken(s: string) {
    forall k :: 0 < k < |s| ==> !BreaksAt(s, k)
  }

  predicate IsClosed(s: string) {
    s != "" && s[|s| - 1] in ".!?"
  }

  /** Pieces that are cut at all such blanks and nowhere else. */
  predicate AreSentences(pieces: seq<string>, text: string) {
    && Join(pieces, " ") == text
    && (forall i :: 0 <= i < |pieces| ==> Unbroken(pieces[i]))
    && (forall i :: 0 <= i < |pieces| - 1 ==> IsClosed(pieces[i]))
  }

  lemma {:induction false} CutIntoSentences(text: string, current: string)
    requires Unbroken(current)
    ensures var pieces := SentencesFrom(text, current); pieces != [] && AreSentences(pieces, current + text)
    decreases |text|
  {
    hide Unbroken;
    if text == "" {
      assert current + text == current;
    } else if text[0] == ' ' && current != "" && EndsSentence(current[|current| - 1]) {
      NothingBroken();
      CutIntoSentences(text[1..], "");
      var rest := SentencesFrom(text[1..], "");
      assert "" + text[1..] == text[1..];
      var pieces := [current] + rest;
      assert pieces[1..] == rest && text == " " + text[1..];
      assert current + " " + text[1..] == current + text;
    } else {
      StaysUnbroken(current, text[0]);
      CutIntoSentences(text[1..], current + [text[0]]);
      assert current + [text[0]] + text[1..] == current + text;
    }
  }

  lemma NothingBroken()
    ensures Unbroken("")
  {
  }

  lemma StaysUnbroken(s: string, c: char)
    requires Unbroken(s) && !(c == ' ' && s != "" && EndsSentence(s[|s| - 1]))
    ensures Unbroken(s + [c])
  {
    var t := s + [c];
    forall k | 0 < k < |t| ensures !BreaksAt(t, k) {
      assert k < |s| ==> !BreaksAt(s, k);
    }
  }

  /** The sentences of a summary are those of its tidied text. */
  lemma SentencesAre(value: string)
    ensures var pieces := SplitSentences(value);
            if Tidy(value) == "" then pieces == [] else AreSentences(pieces, Tidy(value))
  {
    hide Tidy;
    NothingBroken();
    CutIntoSentences(Tidy(value), "");
    assert "" + Tidy(value) == Tidy(value);
  }

  // ----- Lists without repetition -----

  /** The values that are not blank, trimmed, each where it first appears. */
  ghost predicate FirstsAt(values: seq<string>, out: seq<string>, at: seq<nat>) {
    && |at| == |out|
    && (forall i :: 0 <= i < |at| ==> at[i] < |values| && out[i] == Trim(values[at[i]]) != "")
    && (forall i, j :: 0 <= i < j < |at| ==> at[i] < at[j] && out[i] != out[j])
    && (forall k :: 0 <= k < |values| && Trim(values[k]) != "" ==> FoundBy(out, at, k, Trim(values[k])))
  }

  ghost predicate FoundBy(out: seq<string>, at: seq<nat>, k: nat, value: string)
    requires |at| == |out|
  {
    exists i :: 0 <= i < |out| && out[i] == value && at[i] <= k
  }

  ghost predicate AreFirsts(values: seq<string>, out: seq<string>) {
    exists at: seq<nat> :: FirstsAt(values, out, at)
  }

  lemma TrimmedAppend(values: seq<string>, v: string)
    ensures TrimmedValues(values + [v]) == TrimmedValues(values) + if Trim(v) == "" then [] else [Trim(v)]
  {
    hide Trim;
    if values == [] {
      assert values + [v] == [v] && [v][1..] == [];
    } else {
      assert (values + [v])[0] == values[0] && (values + [v])[1..] == values[1..] + [v];
      TrimmedAppend(values[1..], v);
    }
  }

  lemma {:induction false} DedupedAt(values: seq<string>) returns (at: seq<nat>)
    ensures FirstsAt(values, DedupeStrings(values), at)
  {
    hide Trim, Unique, TrimmedValues;
    at := [];
    if values == [] {
      NothingDeduped();
    } else {
      var n := |values| - 1;
      var front, v := values[..n], Trim(values[n]);
      at := DedupedAt(front);
      assert front + [values[n]] == values;
      TrimmedAppend(front, values[n]);
      var before, out := DedupeStrings(front), DedupeStrings(values);
      assert forall k :: 0 <= k < n ==> front[k] == values[k];
      UniqueAppend(TrimmedValues(front), v);
      if v == "" {
        assert TrimmedValues(values) == TrimmedValues(front);
      } else if v !in before {
        FirstsGrow(values, before, at, v);
        at := at + [n];
      } else {
        FirstsStay(values, before, at, v);
      }
    }
  }

  lemma NothingDeduped()
    ensures DedupeStrings([]) == []
  {
  }

  lemma UniqueAppend(values: seq<string>, v: string)
    ensures Unique(values + [v]) == if v in Unique(values) then Unique(values) else Unique(values) + [v]
  {
    assert (values + [v])[..|values|] == values;
  }

  lemma IsFound(out: seq<string>, at: seq<nat>, k: nat, value: string, i: nat)
    requires |at| == |out| && i < |out| && out[i] == value && at[i] <= k
    ensures FoundBy(out, at, k, value)
  {
  }

  lemma FoundInMore(out: seq<string>, at: seq<nat>, k: nat, value: string, last: string, n: nat)
    requires |at| == |out| && FoundBy(out, at, k, value)
    ensures FoundBy(out + [last], at + [n], k, value)
  {
    var i :| 0 <= i < |out| && out[i] == value && at[i] <= k;
    IsFound(out + [last], at + [n], k, value, i);
  }

  lemma FirstsGrow(values: seq<string>, before: seq<string>, at: seq<nat>, v: string)
    requires values != [] && FirstsAt(values[..|values| - 1], before, at)
    requires v == Trim(values[|values| - 1]) != "" && v !in before
    ensures FirstsAt(values, before + [v], at + [|values| - 1])
  {
    hide Trim, FoundBy;
    var n := |values| - 1;
    var front, out, more := values[..n], before + [v], at + [n];
    forall k | 0 <= k < |values| && Trim(values[k]) != "" ensures FoundBy(out, more, k, Trim(values[k])) {
      if k < n {
        assert front[k] == values[k];
        FoundInMore(before, at, k, Trim(front[k]), v, n);
      } else {
        IsFound(out, more, n, v, |before|);
      }
    }
    forall i | 0 <= i < |more| ensures more[i] < |values| && out[i] == Trim(values[more[i]]) != "" {
      if i < n && i < |before| {
        assert out[i] == before[i] && more[i] == at[i] && front[at[i]] == values[at[i]];
      }
    }
  }

  lemma FirstsStay(values: seq<string>, before: seq<string>, at: seq<nat>, v: string)
    requires values != [] && FirstsAt(values[..|values| - 1], before, at)
    requires v == Trim(values[|values| - 1]) && (v != "" ==> v in before)
    ensures FirstsAt(values, before, at)
  {
    hide Trim, FoundBy;
    var n := |values| - 1;
    var front := values[..n];
    forall k | 0 <= k < |values| && Trim(values[k]) != "" ensures FoundBy(before, at, k, Trim(values[k])) {
      if k < n {
        assert front[k] == values[k];
      } else {
        var i :| 0 <= i < |before| && before[i] == v;
        IsFound(before, at, n, v, i);
      }
    }
  }

  /** Constraints and summary sentences come trimmed, without blanks and repetitions, in order of first appearance. */
  lemma DedupedAreFirsts(values: seq<string>)
    ensures AreFirsts(values, DedupeStrings(values))
  {
    var at := DedupedAt(values);
  }
}
