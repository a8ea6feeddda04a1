/** Texts as runs of certain characters with other characters before, between and after them. */
module Runs {
  import opened Text

  predicate AllOf(s: string, ok: char -> bool) {
    forall i :: 0 <= i < |s| ==> ok(s[i])
  }

  predicate NoneOf(s: string, ok: char -> bool) {
    forall i :: 0 <= i < |s| ==> !ok(s[i])
  }

  /** The runs, and what stands before, between and after them. */
  predicate Spreads(runs: seq<string>, gaps: seq<string>, ok: char -> bool) {
    && |gaps| == |runs| + 1
    && (forall i :: 0 <= i < |runs| ==> runs[i] != "" && AllOf(runs[i], ok))
    && (forall i :: 0 <= i < |gaps| ==> NoneOf(gaps[i], ok))
    && (forall i :: 0 < i < |runs| ==> gaps[i] != "")
  }

  function Spread(runs: seq<string>, gaps: seq<string>): string
    requires |gaps| == |runs| + 1
  {
    if runs == [] then gaps[0] else gaps[0] + runs[0] + Spread(runs[1..], gaps[1..])
  }

  lemma SpreadsTail(runs: seq<string>, gaps: seq<string>, ok: char -> bool)
    requires Spreads(runs, gaps, ok) && runs != []
    ensures Spreads(runs[1..], gaps[1..], ok)
  {
    hide AllOf, NoneOf;
    assert forall i :: 0 < i < |runs| - 1 ==> gaps[1..][i] == gaps[i + 1];
  }

  /** Every text consists of runs and gaps. */
  lemma RunsOf(s: string, ok: char -> bool) returns (runs: seq<string>, gaps: seq<string>)
    ensures Spreads(runs, gaps, ok) && s == Spread(runs, gaps)
  {
    if s == "" {
      runs, gaps := [], [""];
    } else {
      var rs, gs := RunsOf(s[1..], ok);
      var c := [s[0]];
      assert s == c + s[1..];
      if !ok(s[0]) {
        runs, gaps := rs, [c + gs[0]] + gs[1..];
        assert gaps[1..] == gs[1..];
        SpreadMoves(c, runs, gs, gaps);
      } else if rs != [] && gs[0] == "" {
        runs, gaps := [c + rs[0]] + rs[1..], gs;
        assert runs[1..] == rs[1..];
        assert AllOf(runs[0], ok) by { assert AllOf(rs[0], ok); }
        assert gs[0] + runs[0] == c + rs[0];
        assert c + (gs[0] + rs[0] + Spread(rs[1..], gs[1..])) == gs[0] + runs[0] + Spread(runs[1..], gaps[1..]);
      } else {
        runs, gaps := [c] + rs, [""] + gs;
        assert runs[1..] == rs && gaps[1..] == gs && AllOf(c, ok);
        assert "" + c + Spread(rs, gs) == c + Spread(rs, gs);
      }
    }
  }

  lemma SpreadMoves(c: string, runs: seq<string>, gs: seq<string>, gaps: seq<string>)
    requires |gs| == |gaps| == |runs| + 1 && gaps[0] == c + gs[0] && gaps[1..] == gs[1..]
    ensures Spread(runs, gaps) == c + Spread(runs, gs)
  {
    if runs != [] {
      MovedInFront(c, gs[0], runs[0], Spread(runs[1..], gs[1..]));
    }
  }

  lemma MovedInFront(a: string, b: string, c: string, d: string)
    ensures a + (b + c + d) == (a + b) + c + d
  {
  }

  /** What is left of a gap. */
  function Mark(gap: string, mark: string): string {
    if gap == "" then "" else mark
  }
}
