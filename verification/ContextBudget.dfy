/** Shrinking a context packet until its estimated cost fits the token budget. */
module ContextBudget {
  import opened Chunking
  import opened Neighborhood
  import opened Text

  // ----- Texts -----

  /** `value.replace(/\s+/g, " ")` */
  function Collapse(s: string): string
    decreases |s|
  {
    if s == "" then ""
    else if IsSpace(s[0]) then " " + Collapse(TrimStart(s))
    else [s[0]] + Collapse(s[1..])
  }

  function Tidy(s: string): string {
    Trim(Collapse(s))
  }

  function ExcerptText(value: string, maxLength: int): (t: string)
    ensures maxLength >= 3 ==> |t| <= maxLength
  {
    var text := Tidy(value);
    if |text| <= maxLength then text else if text == "" then "" else SliceTo(text, maxLength - 3) + "..."
  }

  predicate EndsSentence(c: char) {
    c == '.' || c == '!' || c == '?'
  }

  /** The pieces between blanks that follow a full stop, exclamation mark or question mark. */
  function SentencesFrom(text: string, current: string): seq<string>
    decreases |text|
  {
    if text == "" then [current]
    else if text[0] == ' ' && current != "" && EndsSentence(current[|current| - 1]) then
        [current] + SentencesFrom(text[1..], "")
    else SentencesFrom(text[1..], current + [text[0]])
  }

  function SplitSentences(value: string): seq<string> {
    var text := Tidy(value);
    if text == "" then [] else SentencesFrom(text, "")
  }

  function TrimmedValues(values: seq<string>): (out: seq<string>)
    ensures |out| <= |values|
    ensures forall i :: 0 <= i < |out| ==> out[i] != "" && Trimmed(out[i])
  {
    if values == [] then []
    else
      var rest := TrimmedValues(values[1..]);
      TrimShape(values[0]);
      if Trim(values[0]) == "" then rest else [Trim(values[0])] + rest
  }

  /** `[...new Set(values.map(trim).filter(Boolean))]` */
  function DedupeStrings(values: seq<string>): (out: seq<string>)
    ensures |out| <= |values|
  {
    Unique(TrimmedValues(values))
  }

  // ----- The packet for given limits -----

  datatype Intent =
    | DecisionLookup | ImplementationGuidance | Debugging | StatusTimeline | ArchitectureRecall | FactLookup

  datatype Answerability = LocalAnswer | PartialAnswer | NeedsEscalation

  datatype Budget = Budget(maxTokens: int, maxSources: int, maxRawExcerpts: int, maxSummarySentences: int)

  datatype Input = Input(
    candidates: seq<Candidate>,
    intent: Intent,
    answerability: Answerability,
    budget: Budget,
    includeRawExcerpts: bool)

  datatype Limits = Limits(sources: int, excerpts: int, sentences: int, constraints: int, uncertainties: bool)

  datatype Packet = Packet(
    selected: seq<Candidate>,
    summary: string,
    constraints: seq<string>,
    uncertainties: seq<string>,
    sources: seq<Provenance>,
    excerpts: Option<seq<string>>,
    tokenEstimate: int)

  function SummaryPrefix(intent: Intent): string {
    match intent
    case DecisionLookup => "Relevant decision context:"
    case ImplementationGuidance => "Implementation-relevant context:"
    case Debugging => "Implementation-relevant context:"
    case StatusTimeline => "Current timeline and status context:"
    case ArchitectureRecall => "Architecture context:"
    case FactLookup => "Relevant local context:"
  }

  function AllSentences(candidates: seq<Candidate>): seq<string> {
    if candidates == [] then [] else SplitSentences(candidates[0].summary) + AllSentences(candidates[1..])
  }

  function AllQualifiers(candidates: seq<Candidate>): seq<string> {
    if candidates == [] then [] else candidates[0].qualifiers + AllQualifiers(candidates[1..])
  }

  function Summarize(candidates: seq<Candidate>, intent: Intent, maxSentences: int): string {
    var sentences := FirstN(DedupeStrings(AllSentences(candidates)), maxSentences);
    SummaryPrefix(intent) + " " +
    if sentences != [] then Join(sentences, " ") else "No high-confidence local context was found."
  }

  const NO_EVIDENCE := "No local evidence met the minimum ranking threshold."
  const INSUFFICIENT := "Local context is insufficient and should be supplemented with code or external search."
  const PARTIAL := "Local context is partial; exact implementation details may need deeper code search."

  function Uncertainties(answerability: Answerability, candidates: seq<Candidate>): seq<string> {
    if answerability.LocalAnswer? then []
    else if candidates == [] then [NO_EVIDENCE]
    else if answerability.NeedsEscalation? then [INSUFFICIENT]
    else [PARTIAL]
  }

  /** One provenance per note and chunk. */
  function DedupeSources(candidates: seq<Candidate>): (out: seq<Provenance>)
    ensures |out| <= |candidates|
  {
    if candidates == [] then []
    else
      var before := DedupeSources(candidates[..|candidates| - 1]);
      var last := candidates[|candidates| - 1].provenance;
      if exists i :: 0 <= i < |before| && before[i].noteId == last.noteId && before[i].chunkId == last.chunkId then
          before
      else before + [last]
  }

  function Excerpts(candidates: seq<Candidate>): (out: seq<string>)
    ensures |out| <= |candidates|
  {
    if candidates == [] then []
    else
      var raw := candidates[0].rawText;
      var text := ExcerptText(if raw.Some? then raw.value else "", 320);
      (if text == "" then [] else [text]) + Excerpts(candidates[1..])
  }

  function SourceText(p: Provenance): string {
    var heading := Join(p.headingPath, " > ");
    Join((if p.noteId == "" then [] else [p.noteId]) + (if p.path == "" then [] else [p.path]) +
         (if heading == "" then [] else [heading]), "\n")
  }

  function SourceTokens(sources: seq<Provenance>): nat {
    if sources == [] then 0 else EstimateTokens(SourceText(sources[0])) + SourceTokens(sources[1..])
  }

  function ExcerptTokens(excerpts: seq<string>): nat {
    if excerpts == [] then 0 else EstimateTokens(excerpts[0]) + ExcerptTokens(excerpts[1..])
  }

  /** `estimatePacketTokens` */
  function Cost(p: Packet): nat {
    EstimateTokens(p.summary) + EstimateTokens(Join(p.constraints, "\n")) +
        EstimateTokens(Join(p.uncertainties, "\n")) +
    SourceTokens(p.sources) + (if p.excerpts.Some? then ExcerptTokens(p.excerpts.value) else 0)
  }

  /** The packet that given limits allow, with its cost as estimate. */
  function PacketFor(input: Input, l: Limits): (p: Packet)
    ensures p.tokenEstimate == Cost(p)
  {
    var selected := FirstN(input.candidates, l.sources);
    var bare := Packet(
      selected,
      Summarize(selected, input.intent, l.sentences),
      FirstN(DedupeStrings(AllQualifiers(selected)), l.constraints),
      if l.uncertainties then Uncertainties(input.answerability, selected) else [],
      DedupeSources(selected),
      if l.excerpts > 0 then Some(Excerpts(FirstN(selected, l.excerpts))) else None,
      0);
    assert forall n :: Cost(bare.(tokenEstimate := n)) == Cost(bare);
    bare.(tokenEstimate := Cost(bare))
  }

  function ClippedPacket(input: Input, l: Limits): Packet {
    var selected := FirstN(input.candidates, l.sources);
    var summary := ExcerptText(Summarize(selected, input.intent, l.sentences), Larger(1, 4 * input.budget.maxTokens));
    var bare := Packet([], summary, [], [], [], None, 0);
    bare.(tokenEstimate := Smaller(Cost(bare), input.budget.maxTokens))
  }

  // ----- Shrinking -----

  function FirstLimits(input: Input): Limits {
    var n := |input.candidates|;
    Limits(Smaller(input.budget.maxSources, n),
           if input.includeRawExcerpts then Smaller(input.budget.maxRawExcerpts, n) else 0,
           Larger(0, input.budget.maxSummarySentences), 8, true)
  }

  /** The next tighter limits; none when nothing is left to drop. */
  function Tighter(l: Limits): Option<Limits> {
    if l.excerpts > 0 then Some(l.(excerpts := l.excerpts - 1))
    else if l.sentences > 0 then Some(l.(sentences := l.sentences - 1))
    else if l.sources > 1 then Some(l.(sources := l.sources - 1))
    else if l.constraints > 0 then Some(l.(constraints := l.constraints - 1))
    else if l.uncertainties then Some(l.(uncertainties := false))
    else None
  }

  /** How often limits can still be tightened. */
  function Slack(l: Limits): nat {
    Larger(0, l.excerpts) + Larger(0, l.sentences) + Larger(0, l.sources - 1) + Larger(0, l.constraints) +
    if l.uncertainties then 1 else 0
  }

  function Fits(input: Input, l: Limits): bool {
    PacketFor(input, l).tokenEstimate <= input.budget.maxTokens
  }

  function EnforceFrom(input: Input, l: Limits): Packet
    decreases Slack(l)
  {
    hide Fits, PacketFor, ClippedPacket;
    if Fits(input, l) then PacketFor(input, l)
    else if Tighter(l).Some? then EnforceFrom(input, Tighter(l).value)
    else ClippedPacket(input, l)
  }

  function Enforced(input: Input): Packet {
    EnforceFrom(input, FirstLimits(input))
  }

  method EnforceContextBudget(input: Input) returns (packet: Packet)
    ensures packet == Enforced(input)
  {
    hide PacketFor, ClippedPacket;
    var first := FirstLimits(input);
    var sourceLimit, rawExcerptLimit := first.sources, first.excerpts;
    var summarySentenceLimit, constraintLimit, includeUncertainties :=
        first.sentences, first.constraints, first.uncertainties;
    while true
      invariant Enforced(input) ==
        EnforceFrom(input,
          Limits(sourceLimit, rawExcerptLimit, summarySentenceLimit, constraintLimit, includeUncertainties))
      decreases Slack(Limits(sourceLimit, rawExcerptLimit, summarySentenceLimit, constraintLimit, includeUncertainties))
    {
      var limits := Limits(sourceLimit, rawExcerptLimit, summarySentenceLimit, constraintLimit, includeUncertainties);
      packet := PacketFor(input, limits);
      if packet.tokenEstimate <= input.budget.maxTokens {
        return;
      }
      if rawExcerptLimit > 0 {
        rawExcerptLimit := rawExcerptLimit - 1;
        continue;
      }
      if summarySentenceLimit > 0 {
        summarySentenceLimit := summarySentenceLimit - 1;
        continue;
      }
      if sourceLimit > 1 {
        sourceLimit := sourceLimit - 1;
        continue;
      }
      if constraintLimit > 0 {
        constraintLimit := constraintLimit - 1;
        continue;
      }
      if includeUncertainties {
        includeUncertainties := false;
        continue;
      }
      packet := ClippedPacket(input, limits);
      return;
    }
  }

  // ----- The order of shrinking, in closed form -----

  function Clamp(x: int, hi: int): int {
    Larger(0, Smaller(x, hi))
  }

  /** The limits after k steps: all excerpts go first, then the sentences, then the sources but one,
      then the constraints, and last the uncertainties. */
  function LimitsAt(first: Limits, k: nat): Limits {
    var e, s, c := Larger(0, first.excerpts), Larger(0, first.sentences), Larger(0, first.constraints);
    var r := Larger(0, first.sources - 1);
    Limits(first.sources - Clamp(k - e - s, r),
           first.excerpts - Clamp(k, e),
           first.sentences - Clamp(k - e, s),
           first.constraints - Clamp(k - e - s - r, c),
           first.uncertainties && k <= e + s + r + c)
  }

  lemma ClampIs(x: int, hi: nat)
    ensures x <= 0 ==> Clamp(x, hi) == 0
    ensures x >= hi ==> Clamp(x, hi) == hi
    ensures 0 <= x <= hi ==> Clamp(x, hi) == x
  {
  }

  lemma LimitsInPhase(first: Limits, k: nat)
    requires k <= Slack(first)
    ensures var e, s, c := Larger(0, first.excerpts), Larger(0, first.sentences), Larger(0, first.constraints);
            var r := Larger(0, first.sources - 1);
            LimitsAt(first, k) ==
              if k <= e then first.(excerpts := first.excerpts - k)
              else if k <= e + s then first.(excerpts := first.excerpts - e, sentences := first.sentences - (k - e))
              else if k <= e + s + r then
                first.(excerpts := first.excerpts - e, sentences := first.sentences - s,
                       sources := first.sources - (k - e - s))
              else if k <= e + s + r + c then
                first.(excerpts := first.excerpts - e, sentences := first.sentences - s, sources := first.sources - r,
                       constraints := first.constraints - (k - e - s - r))
              else
                first.(excerpts := first.excerpts - e, sentences := first.sentences - s, sources := first.sources - r,
                       constraints := first.constraints - c, uncertainties := false)
  {
    var e, s, c := Larger(0, first.excerpts), Larger(0, first.sentences), Larger(0, first.constraints);
    var r := Larger(0, first.sources - 1);
    ClampIs(k, e);
    ClampIs(k - e, s);
    ClampIs(k - e - s, r);
    ClampIs(k - e - s - r, c);
    hide Clamp;
  }

  /** Each step tightens exactly one limit, and after as many steps as there is slack none is left. */
  lemma TighterIsNext(first: Limits, k: nat)
    requires k <= Slack(first)
    ensures LimitsAt(first, 0) == first
    ensures Tighter(LimitsAt(first, k)) == if k < Slack(first) then Some(LimitsAt(first, k + 1)) else None
  {
    hide LimitsAt, Clamp;
    LimitsInPhase(first, 0);
    LimitsInPhase(first, k);
    if k < Slack(first) {
      LimitsInPhase(first, k + 1);
    }
  }

  /** The k-th limits fit and no earlier ones from the given start do. */
  ghost predicate FirstFit(input: Input, first: Limits, from: nat, k: nat) {
    && from <= k <= Slack(first)
    && Fits(input, LimitsAt(first, k))
    && forall j :: from <= j < k ==> !Fits(input, LimitsAt(first, j))
  }

  /** How the loop ends: with the first limits that fit, or clipped when none do. */
  ghost predicate Outcome(input: Input, first: Limits, from: nat, packet: Packet) {
    || (exists k: nat :: FirstFit(input, first, from, k) && packet == PacketFor(input, LimitsAt(first, k)))
    || ((forall k: nat :: from <= k <= Slack(first) ==> !Fits(input, LimitsAt(first, k))) &&
        packet == ClippedPacket(input, LimitsAt(first, Slack(first))))
  }

  lemma {:induction false} EnforceOutcome(input: Input, first: Limits, from: nat)
    requires from <= Slack(first)
    ensures Outcome(input, first, from, EnforceFrom(input, LimitsAt(first, from)))
    decreases Slack(first) - from
  {
    hide PacketFor, ClippedPacket, LimitsAt, Fits, Slack, Tighter;
    TighterIsNext(first, from);
    var packet := EnforceFrom(input, LimitsAt(first, from));
    if Fits(input, LimitsAt(first, from)) {
      assert FirstFit(input, first, from, from);
    } else if from < Slack(first) {
      EnforceOutcome(input, first, from + 1);
      if k: nat :| FirstFit(input, first, from + 1, k) && packet == PacketFor(input, LimitsAt(first, k)) {
        assert FirstFit(input, first, from, k);
      }
    }
  }

  /** For every input the loop ends with the packet of the first limits, in the order of shrinking, that fit the
      budget, and its estimate is the true cost; when no limits fit, it ends with the clipped summary alone. */
  lemma FirstFittingLimits(input: Input)
    ensures Outcome(input, FirstLimits(input), 0, Enforced(input))
  {
    hide Outcome;
    TighterIsNext(FirstLimits(input), 0);
    EnforceOutcome(input, FirstLimits(input), 0);
  }

  lemma ClippedCost(input: Input, l: Limits)
    requires input.budget.maxTokens >= 1
    ensures Cost(ClippedPacket(input, l)) <= input.budget.maxTokens + 2
  {
    hide Summarize;
    var summary := ClippedPacket(input, l).summary;
    assert |summary| <= 4 * input.budget.maxTokens;
  }

  /** The reported estimate never exceeds the budget, and the packet keeps to the numbers of sources, excerpts and
      constraints; with a budget of at least one token the true cost is the estimate, or at most two tokens over
      the budget when the summary had to be clipped. */
  lemma BudgetIsKept(input: Input)
    ensures var p := Enforced(input);
            && p.tokenEstimate <= input.budget.maxTokens
            && |p.sources| <= Larger(0, input.budget.maxSources) && |p.selected| <= Larger(0, input.budget.maxSources)
            && (p.excerpts.Some? ==> |p.excerpts.value| <= Larger(0, input.budget.maxRawExcerpts))
            && (p.excerpts.Some? ==> input.includeRawExcerpts)
            && |p.constraints| <= 8
            && (input.budget.maxTokens >= 1 ==> Cost(p) == p.tokenEstimate || Cost(p) <= input.budget.maxTokens + 2)
  {
    hide EnforceFrom, PacketFor, ClippedPacket, LimitsAt, Fits, Cost;
    var first := FirstLimits(input);
    FirstFittingLimits(input);
    if k: nat :| FirstFit(input, first, 0, k) && Enforced(input) == PacketFor(input, LimitsAt(first, k)) {
      KeepsLimits(input, first, k);
    } else {
      ClippedKeeps(input, LimitsAt(first, Slack(first)));
    }
  }

  lemma KeepsLimits(input: Input, first: Limits, k: nat)
    requires first == FirstLimits(input) && k <= Slack(first) && Fits(input, LimitsAt(first, k))
    ensures var p := PacketFor(input, LimitsAt(first, k));
            && p.tokenEstimate == Cost(p) <= input.budget.maxTokens
            && |p.sources| <= Larger(0, input.budget.maxSources) && |p.selected| <= Larger(0, input.budget.maxSources)
            && (p.excerpts.Some? ==> |p.excerpts.value| <= Larger(0, input.budget.maxRawExcerpts))
            && (p.excerpts.Some? ==> input.includeRawExcerpts)
            && |p.constraints| <= 8
  {
    hide Summarize, Cost;
  }

  lemma ClippedKeeps(input: Input, l: Limits)
    ensures var p := ClippedPacket(input, l);
            && p.tokenEstimate <= input.budget.maxTokens
            && p.sources == [] && p.selected == [] && p.excerpts == None && p.constraints == []
            && (input.budget.maxTokens >= 1 ==> Cost(p) <= input.budget.maxTokens + 2)
  {
    if input.budget.maxTokens >= 1 {
      ClippedCost(input, l);
    }
  }
}
