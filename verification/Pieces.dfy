/** Pieces that stand in a text one after the other. */
module Pieces {
  import opened Text

  predicate StandsAt(s: string, i: nat, piece: string) {
    i + |piece| <= |s| && s[i..i + |piece|] == piece
  }

  /** The pieces stand in the text one after the other, without overlapping. */
  ghost predicate Appear(s: string, pieces: seq<string>)
    decreases |pieces|
  {
    pieces == [] || exists i: nat :: StandsAt(s, i, pieces[0]) && Appear(s[i + |pieces[0]|..], pieces[1..])
  }

  lemma {:induction false} AppearWithin(before: string, s: string, after: string, pieces: seq<string>)
    requires Appear(s, pieces)
    ensures Appear(before + s + after, pieces)
    decreases |pieces|
  {
    if pieces != [] {
      var i: nat :| StandsAt(s, i, pieces[0]) && Appear(s[i + |pieces[0]|..], pieces[1..]);
      var all, j := before + s + after, |before| + i;
      var rest := s[i + |pieces[0]|..];
      assert all[j..j + |pieces[0]|] == s[i..i + |pieces[0]|];
      assert all[j + |pieces[0]|..] == "" + rest + after;
      AppearWithin("", rest, after, pieces[1..]);
      assert StandsAt(all, j, pieces[0]);
    }
  }

  lemma {:induction false} AppearAppend(a: string, xs: seq<string>, b: string, ys: seq<string>)
    requires Appear(a, xs) && Appear(b, ys)
    ensures Appear(a + b, xs + ys)
    decreases |xs|
  {
    if xs == [] {
      AppearWithin(a, b, "", ys);
      assert a + b + "" == a + b && xs + ys == ys;
    } else {
      var i: nat :| StandsAt(a, i, xs[0]) && Appear(a[i + |xs[0]|..], xs[1..]);
      var rest := a[i + |xs[0]|..];
      AppearAppend(rest, xs[1..], b, ys);
      FirstStands(a, b, i, xs[0]);
      assert (xs + ys)[0] == xs[0] && (xs + ys)[1..] == xs[1..] + ys;
    }
  }

  lemma FirstStands(a: string, b: string, i: nat, piece: string)
    requires StandsAt(a, i, piece)
    ensures StandsAt(a + b, i, piece) && (a + b)[i + |piece|..] == a[i + |piece|..] + b
  {
    assert (a + b)[i..i + |piece|] == a[i..i + |piece|];
  }

  lemma NothingAppears(s: string)
    ensures Appear(s, [])
  {
  }

  /** A line shows a text between whatever it starts and ends with. */
  lemma OneAppears(before: string, piece: string, after: string)
    ensures Appear(before + piece + after, [piece])
  {
    var s, pieces, i := before + piece + after, [piece], |before|;
    assert s[i..i + |piece|] == piece;
    assert pieces[1..] == [];
    assert StandsAt(s, i, pieces[0]) && Appear(s[i + |pieces[0]|..], pieces[1..]);
  }

  // ----- Lines -----

  function Flat(pieces: seq<seq<string>>): seq<string> {
    if pieces == [] then [] else pieces[0] + Flat(pieces[1..])
  }

  lemma {:induction false} JoinShows(lines: seq<string>, pieces: seq<seq<string>>)
    requires |lines| == |pieces| && forall i :: 0 <= i < |lines| ==> Appear(lines[i], pieces[i])
    ensures Appear(Join(lines, "\n"), Flat(pieces))
  {
    hide Appear;
    if lines == [] {
      NothingAppears(Join(lines, "\n"));
    } else {
      assert lines[0] in lines && Appear(lines[0], pieces[0]);
      JoinShows(lines[1..], pieces[1..]);
      if |lines| == 1 {
        assert pieces[0] + Flat(pieces[1..]) == pieces[0];
      } else {
        AppearAppend(lines[0], pieces[0], "\n", []) by { NothingAppears("\n"); }
        AppearAppend(lines[0] + "\n", pieces[0] + [], Join(lines[1..], "\n"), Flat(pieces[1..]));
        assert pieces[0] + [] == pieces[0];
      }
    }
  }

  lemma {:induction false} FlatAppend(a: seq<seq<string>>, b: seq<seq<string>>)
    ensures Flat(a + b) == Flat(a) + Flat(b)
  {
    if a == [] {
      assert a + b == b;
    } else {
      assert (a + b)[0] == a[0] && (a + b)[1..] == a[1..] + b;
      FlatAppend(a[1..], b);
    }
  }
}
