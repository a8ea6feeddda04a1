/** The file names that titles and projects come to. */
module Slugs {
  import opened Planning
  import opened Runs
  import opened Text

  lemma DashedGap(gap: string, s: string, pending: bool)
    requires NoneOf(gap, IsSlugChar)
    ensures Dashed(gap + s, pending) == Dashed(s, pending || gap != "")
  {
    hide IsSlugChar;
    if gap == "" {
      assert gap + s == s;
    } else {
      assert (gap + s)[0] == gap[0] && (gap + s)[1..] == gap[1..] + s;
      DashedGap(gap[1..], s, true);
    }
  }

  lemma DashedRun(run: string, s: string, pending: bool)
    requires run != "" && AllOf(run, IsSlugChar)
    ensures Dashed(run + s, pending) == (if pending then "-" else "") + run + Dashed(s, false)
  {
    hide IsSlugChar;
    assert (run + s)[0] == run[0] && (run + s)[1..] == run[1..] + s;
    if |run| > 1 {
      DashedRun(run[1..], s, false);
      assert (if pending then "-" else "") + [run[0]] + ("" + run[1..] + Dashed(s, false)) ==
             (if pending then "-" else "") + run + Dashed(s, false);
    } else {
      assert run[1..] + s == s && run == [run[0]];
    }
  }

  lemma {:induction false} DashedOfSpread(runs: seq<string>, gaps: seq<string>, pending: bool)
    requires Spreads(runs, gaps, IsSlugChar)
    ensures Dashed(Spread(runs, gaps), pending) ==
            (if pending || gaps[0] != "" then "-" else "") + Join(runs, "-") +
            (if runs == [] then "" else Mark(gaps[|runs|], "-"))
  {
    hide IsSlugChar, AllOf, NoneOf, Dashed;
    if runs == [] {
      assert gaps[0] + "" == gaps[0];
      DashedGap(gaps[0], "", pending);
      DashedNothing();
    } else {
      var rest := Spread(runs[1..], gaps[1..]);
      var lead := if pending || gaps[0] != "" then "-" else "";
      SpreadsTail(runs, gaps, IsSlugChar);
      DashedOfSpread(runs[1..], gaps[1..], false);
      assert gaps[0] + runs[0] + rest == gaps[0] + (runs[0] + rest);
      DashedGap(gaps[0], runs[0] + rest, pending);
      DashedRun(runs[0], rest, pending || gaps[0] != "");
      if |runs| > 1 {
        assert gaps[1..][|runs| - 1] == gaps[|runs|] && gaps[1..][0] == gaps[1];
        assert lead + runs[0] + ("-" + Join(runs[1..], "-") + Mark(gaps[|runs|], "-")) ==
               lead + (runs[0] + "-" + Join(runs[1..], "-")) + Mark(gaps[|runs|], "-");
      }
    }
  }

  lemma DashedNothing()
    ensures Dashed("", false) == "" && Dashed("", true) == "-"
  {
  }

  lemma JoinEnds(runs: seq<string>)
    requires runs != [] && forall i :: 0 <= i < |runs| ==> runs[i] != "" && AllOf(runs[i], IsSlugChar)
    ensures var text := Join(runs, "-"); text != "" && text[0] != '-' && text[|text| - 1] != '-'
  {
    hide AllOf;
    RunEnds(runs[0]);
    if |runs| > 1 {
      JoinEnds(runs[1..]);
      var text, rest := Join(runs, "-"), Join(runs[1..], "-");
      assert text == runs[0] + "-" + rest && text[|text| - 1] == rest[|rest| - 1];
    }
  }

  lemma RunEnds(run: string)
    requires run != "" && AllOf(run, IsSlugChar)
    ensures run[0] != '-' && run[|run| - 1] != '-'
  {
  }

  /** A slug is made of the letters and digits of the folded text, one dash wherever anything else stands between
      them. */
  lemma SlugIsRuns(s: string, runs: seq<string>, gaps: seq<string>)
    requires Spreads(runs, gaps, IsSlugChar) && Folded(s) == Spread(runs, gaps)
    ensures Slug(s) == Join(runs, "-")
  {
    hide Folded, Dashed, AllOf, NoneOf, IsSlugChar, Join;
    DashedOfSpread(runs, gaps, false);
    var text := Join(runs, "-");
    if runs == [] {
      assert text == "" by { JoinNothing(); }
    } else {
      JoinEnds(runs);
      var lead, trail := Mark(gaps[0], "-"), Mark(gaps[|runs|], "-");
      var d := lead + text + trail;
      assert StartsWith(d, "-") <==> lead != "" by {
        assert lead == "" ==> d[0] == text[0];
        assert lead != "" ==> d[..1] == "-";
      }
      assert lead != "" ==> d[1..] == text + trail;
      assert trail != "" ==> (text + trail)[..|text|] == text;
      assert trail == "" ==> text + trail == text && d == lead + text;
    }
  }

  lemma JoinNothing()
    ensures Join([], "-") == ""
  {
  }
}
