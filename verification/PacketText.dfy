/** The token estimate of a packet, measured by the texts that the packet hands out. */
module PacketText {
  import opened Blocks
  import opened Chunking
  import opened ContextBudget
  import opened Neighborhood
  import opened Text

  function Length(texts: seq<string>): nat {
    if texts == [] then 0 else |texts[0]| + Length(texts[1..])
  }

  function SourcesLength(sources: seq<Provenance>): nat {
    if sources == [] then 0
    else
      var s := sources[0];
      |s.noteId| + |s.path| + Length(s.headingPath) + SourcesLength(sources[1..])
  }

  function ExcerptsOf(p: Packet): seq<string> {
    if p.excerpts.Some? then p.excerpts.value else []
  }

  /** All characters that the packet shows. */
  function Chars(p: Packet): nat {
    |p.summary| + Length(p.constraints) + Length(p.uncertainties) + Length(ExcerptsOf(p)) + SourcesLength(p.sources)
  }

  /** The characters between n texts. */
  function Gaps(n: nat, width: nat): nat {
    if n == 0 then 0 else width * (n - 1)
  }

  function SourcesOverhead(sources: seq<Provenance>): nat {
    if sources == [] then 0 else 4 + 2 + Gaps(|sources[0].headingPath|, 3) + SourcesOverhead(sources[1..])
  }

  /** At most four characters for each text that is rounded up, and the separators. */
  function Overhead(p: Packet): nat {
    12 + Gaps(|p.constraints|, 1) + Gaps(|p.uncertainties|, 1) + 4 * |ExcerptsOf(p)| + SourcesOverhead(p.sources)
  }

  lemma TokensOfText(s: string)
    ensures |s| <= 4 * EstimateTokens(s) <= |s| + 4
  {
  }

  lemma {:induction false} JoinLength(texts: seq<string>, separator: string)
    ensures |Join(texts, separator)| == Length(texts) + Gaps(|texts|, |separator|)
  {
    if |texts| == 1 {
      assert Length(texts[1..]) == 0;
    } else if |texts| > 1 {
      JoinLength(texts[1..], separator);
      var w, n := |separator|, |texts|;
      assert w * (n - 1) == w * (n - 2) + w;
    }
  }

  lemma SourceTextLength(s: Provenance)
    ensures var n := |s.noteId| + |s.path| + Length(s.headingPath);
            n <= |SourceText(s)| <= n + 2 + Gaps(|s.headingPath|, 3)
  {
    hide Length, Gaps, Join;
    JoinLength(s.headingPath, " > ");
    var heading := Join(s.headingPath, " > ");
    var parts := (if s.noteId == "" then [] else [s.noteId]) + (if s.path == "" then [] else [s.path]) +
                 (if heading == "" then [] else [heading]);
    JoinLength(parts, "\n");
    PartsLength(s.noteId, s.path, heading);
  }

  lemma PartsLength(a: string, b: string, c: string)
    ensures var parts := (if a == "" then [] else [a]) + (if b == "" then [] else [b]) + (if c == "" then [] else [c]);
            Length(parts) == |a| + |b| + |c| && Gaps(|parts|, 1) <= 2
  {
    var pa, pb, pc := if a == "" then [] else [a], if b == "" then [] else [b], if c == "" then [] else [c];
    LengthAppend(pa + pb, pc);
    LengthAppend(pa, pb);
    assert Length(pa) == |a| && Length(pb) == |b| && Length(pc) == |c|;
  }

  lemma LengthAppend(a: seq<string>, b: seq<string>)
    ensures Length(a + b) == Length(a) + Length(b)
  {
    if a == [] {
      assert a + b == b;
    } else {
      assert (a + b)[1..] == a[1..] + b;
      LengthAppend(a[1..], b);
    }
  }

  lemma {:induction false} SourcesCost(sources: seq<Provenance>)
    ensures SourcesLength(sources) <= 4 * SourceTokens(sources) <= SourcesLength(sources) + SourcesOverhead(sources)
  {
    hide EstimateTokens, SourceText;
    if sources != [] {
      SourcesCost(sources[1..]);
      SourceTextLength(sources[0]);
      TokensOfText(SourceText(sources[0]));
    }
  }

  lemma {:induction false} ExcerptsCost(excerpts: seq<string>)
    ensures Length(excerpts) <= 4 * ExcerptTokens(excerpts) <= Length(excerpts) + 4 * |excerpts|
  {
    hide EstimateTokens;
    if excerpts != [] {
      ExcerptsCost(excerpts[1..]);
      TokensOfText(excerpts[0]);
    }
  }

  lemma CostOfTexts(p: Packet)
    ensures Chars(p) <= 4 * Cost(p) <= Chars(p) + Overhead(p)
  {
    hide EstimateTokens, Join;
    TokensOfText(p.summary);
    JoinLength(p.constraints, "\n");
    TokensOfText(Join(p.constraints, "\n"));
    JoinLength(p.uncertainties, "\n");
    TokensOfText(Join(p.uncertainties, "\n"));
    SourcesCost(p.sources);
    ExcerptsCost(ExcerptsOf(p));
  }

  /** The estimate speaks of the text that is handed out: a token stands for at most four characters of it, so that all
      texts together never have more than four characters per token of the budget, and only rounding and separators
      make it larger than that. */
  lemma EstimateCoversTexts(input: Input)
    requires input.budget.maxTokens >= 1
    ensures var p := Enforced(input);
            Chars(p) <= 4 * p.tokenEstimate <= 4 * input.budget.maxTokens &&
                4 * p.tokenEstimate <= Chars(p) + Overhead(p)
  {
    hide EnforceFrom, PacketFor, ClippedPacket, LimitsAt, Fits, Cost, Chars, Overhead;
    var first := FirstLimits(input);
    FirstFittingLimits(input);
    CostOfTexts(Enforced(input));
    if k: nat :| FirstFit(input, first, 0, k) && Enforced(input) == PacketFor(input, LimitsAt(first, k)) {
      KeepsLimits(input, first, k);
    } else {
      ClippedTexts(input, LimitsAt(first, Slack(first)));
    }
  }

  lemma SameCost(p: Packet, estimate: int)
    ensures Cost(p.(tokenEstimate := estimate)) == Cost(p)
  {
  }

  lemma ClippedTexts(input: Input, l: Limits)
    requires input.budget.maxTokens >= 1
    ensures var p := ClippedPacket(input, l);
            Chars(p) <= 4 * p.tokenEstimate && p.tokenEstimate <= input.budget.maxTokens && p.tokenEstimate <= Cost(p)
  {
    hide Summarize, ExcerptText;
    var p := ClippedPacket(input, l);
    CostOfTexts(p);
    SameCost(p, 0);
    hide Cost;
    assert |p.summary| <= 4 * input.budget.maxTokens;
    assert Chars(p) == |p.summary|;
    assert p.(tokenEstimate := 0) == Packet([], p.summary, [], [], [], None, 0);
  }
}
