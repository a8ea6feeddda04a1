/** The packet that a budget leaves shows the best candidates: their sources, qualifiers, excerpts and sentences. */
module PacketShows {
  import opened Chunking
  import opened ContextBudget
  import opened Neighborhood
  import opened PacketContents
  import opened Pieces
  import opened Text

  // ----- The parts of a packet -----

  function SentencesOf(cs: seq<Candidate>): seq<seq<string>> {
    seq(|cs|, i requires 0 <= i < |cs| => SplitSentences(cs[i].summary))
  }

  function QualifiersOf(cs: seq<Candidate>): seq<seq<string>> {
    seq(|cs|, i requires 0 <= i < |cs| => cs[i].qualifiers)
  }

  lemma {:induction false} AllAreFlat(cs: seq<Candidate>)
    ensures AllSentences(cs) == Flat(SentencesOf(cs)) && AllQualifiers(cs) == Flat(QualifiersOf(cs))
  {
    hide SplitSentences;
    if cs != [] {
      AllAreFlat(cs[1..]);
      assert SentencesOf(cs)[1..] == SentencesOf(cs[1..]) && QualifiersOf(cs)[1..] == QualifiersOf(cs[1..]);
    }
  }

  /** The first n distinct sentences of the candidates behind a lead that fits the question. */
  ghost predicate IsSummary(text: string, cs: seq<Candidate>, intent: Intent, n: int) {
    exists all :: AreFirsts(Flat(SentencesOf(cs)), all) && IsSummaryOf(text, intent, FirstN(all, n))
  }

  predicate IsSummaryOf(text: string, intent: Intent, sentences: seq<string>) {
    text == SummaryPrefix(intent) + " " +
      if sentences == [] then "No high-confidence local context was found." else Join(sentences, " ")
  }

  ghost predicate AreConstraints(out: seq<string>, cs: seq<Candidate>, n: int) {
    exists all :: AreFirsts(Flat(QualifiersOf(cs)), all) && out == FirstN(all, n)
  }

  predicate SameSource(a: Provenance, b: Provenance) {
    a.noteId == b.noteId && a.chunkId == b.chunkId
  }

  /** The sources of the candidates, each note and chunk once, where it first appears. */
  ghost predicate SourcesAt(out: seq<Provenance>, cs: seq<Candidate>, at: seq<nat>) {
    && |at| == |out|
    && (forall i :: 0 <= i < |at| ==> at[i] < |cs| && out[i] == cs[at[i]].provenance)
    && (forall i, j :: 0 <= i < j < |at| ==> at[i] < at[j] && !SameSource(out[i], out[j]))
    && (forall k :: 0 <= k < |cs| ==> NamedBy(out, at, k, cs[k].provenance))
  }

  ghost predicate NamedBy(out: seq<Provenance>, at: seq<nat>, k: nat, source: Provenance)
    requires |at| == |out|
  {
    exists i :: 0 <= i < |out| && SameSource(out[i], source) && at[i] <= k
  }

  ghost predicate AreSources(out: seq<Provenance>, cs: seq<Candidate>) {
    exists at: seq<nat> :: SourcesAt(out, cs, at)
  }

  lemma {:induction false} DedupedSources(cs: seq<Candidate>) returns (at: seq<nat>)
    ensures SourcesAt(DedupeSources(cs), cs, at)
  {
    hide DedupeSources, SourcesAt;
    if cs == [] {
      at := [];
      NoSources();
    } else {
      var n := |cs| - 1;
      at := DedupedSources(cs[..n]);
      var before := DedupeSources(cs[..n]);
      LastSource(cs);
      if HasSource(before, cs[n].provenance) {
        SourcesStay(cs, before, at);
      } else {
        SourcesGrow(cs, before, at);
        at := at + [n];
      }
    }
  }

  ghost predicate HasSource(out: seq<Provenance>, source: Provenance) {
    exists i :: 0 <= i < |out| && SameSource(out[i], source)
  }

  lemma NoSources()
    ensures SourcesAt(DedupeSources([]), [], [])
  {
  }

  lemma LastSource(cs: seq<Candidate>)
    requires cs != []
    ensures var before, last := DedupeSources(cs[..|cs| - 1]), cs[|cs| - 1].provenance;
            DedupeSources(cs) == if HasSource(before, last) then before else before + [last]
  {
    var before, last := DedupeSources(cs[..|cs| - 1]), cs[|cs| - 1].provenance;
    if i :| 0 <= i < |before| && before[i].noteId == last.noteId && before[i].chunkId == last.chunkId {
      assert SameSource(before[i], last);
    }
  }

  lemma IsNamed(out: seq<Provenance>, at: seq<nat>, k: nat, source: Provenance, i: nat)
    requires |at| == |out| && i < |out| && SameSource(out[i], source) && at[i] <= k
    ensures NamedBy(out, at, k, source)
  {
  }

  lemma NamedInMore(out: seq<Provenance>, at: seq<nat>, k: nat, source: Provenance, last: Provenance, n: nat)
    requires |at| == |out| && NamedBy(out, at, k, source)
    ensures NamedBy(out + [last], at + [n], k, source)
  {
    hide SameSource;
    var i :| 0 <= i < |out| && SameSource(out[i], source) && at[i] <= k;
    IsNamed(out + [last], at + [n], k, source, i);
  }

  lemma SourcesStay(cs: seq<Candidate>, before: seq<Provenance>, at: seq<nat>)
    requires cs != [] && SourcesAt(before, cs[..|cs| - 1], at)
    requires HasSource(before, cs[|cs| - 1].provenance)
    ensures SourcesAt(before, cs, at)
  {
    hide SameSource, NamedBy;
    var n := |cs| - 1;
    var front := cs[..n];
    forall k | 0 <= k < |cs| ensures NamedBy(before, at, k, cs[k].provenance) {
      if k < n {
        assert front[k] == cs[k];
      } else {
        var i :| 0 <= i < |before| && SameSource(before[i], cs[n].provenance);
        IsNamed(before, at, n, cs[n].provenance, i);
      }
    }
  }

  lemma SourcesGrow(cs: seq<Candidate>, before: seq<Provenance>, at: seq<nat>)
    requires cs != [] && SourcesAt(before, cs[..|cs| - 1], at)
    requires !HasSource(before, cs[|cs| - 1].provenance)
    ensures SourcesAt(before + [cs[|cs| - 1].provenance], cs, at + [|cs| - 1])
  {
    hide SameSource, NamedBy;
    var n := |cs| - 1;
    var front, out, more := cs[..n], before + [cs[n].provenance], at + [n];
    IsItself(cs[n].provenance);
    forall k | 0 <= k < |cs| ensures NamedBy(out, more, k, cs[k].provenance) {
      if k < n {
        assert front[k] == cs[k];
        NamedInMore(before, at, k, front[k].provenance, cs[n].provenance, n);
      } else {
        IsNamed(out, more, n, cs[n].provenance, |before|);
      }
    }
    forall i, j | 0 <= i < j < |more| ensures more[i] < more[j] && !SameSource(out[i], out[j]) {
      assert out[i] == before[i] && more[i] == at[i];
    }
  }

  lemma IsItself(source: Provenance)
    ensures SameSource(source, source)
  {
  }

  /** What an excerpt of a candidate shows; nothing when it has no text. */
  function ExcerptOf(c: Candidate): string {
    match c.rawText
    case None => ""
    case Some(text) => ExcerptText(text, 320)
  }

  /** The excerpts of the candidates from the given one on, of those that have any. */
  ghost predicate ExcerptsAt(out: seq<string>, cs: seq<Candidate>, from: nat, at: seq<nat>) {
    && |at| == |out|
    && (forall i :: 0 <= i < |at| ==> from <= at[i] < |cs| && out[i] == ExcerptOf(cs[at[i]]))
    && (forall i, j :: 0 <= i < j < |at| ==> at[i] < at[j])
    && (forall k :: from <= k < |cs| ==> (k in at <==> ExcerptOf(cs[k]) != ""))
  }

  ghost predicate AreExcerpts(out: seq<string>, cs: seq<Candidate>) {
    exists at: seq<nat> :: ExcerptsAt(out, cs, 0, at)
  }

  lemma NoTextNoExcerpt()
    ensures ExcerptText("", 320) == ""
  {
    assert Collapse("") == "";
    TrimOfTrimmed("");
  }

  lemma {:induction false} ExcerptPlaces(cs: seq<Candidate>, from: nat) returns (at: seq<nat>)
    requires from <= |cs|
    ensures ExcerptsAt(Excerpts(cs[from..]), cs, from, at)
    decreases |cs| - from
  {
    hide ExcerptText, ExcerptOf;
    at := [];
    if from < |cs| {
      at := ExcerptPlaces(cs, from + 1);
      FirstExcerpt(cs[from..]);
      assert cs[from..][1..] == cs[from + 1..];
      if ExcerptOf(cs[from]) != "" {
        at := [from] + at;
      }
    }
  }

  lemma FirstExcerpt(cs: seq<Candidate>)
    requires cs != []
    ensures Excerpts(cs) == (if ExcerptOf(cs[0]) == "" then [] else [ExcerptOf(cs[0])]) + Excerpts(cs[1..])
  {
    hide ExcerptText;
    NoTextNoExcerpt();
  }

  /** What is said of an answer that is not wholly local. */
  predicate AreUncertainties(out: seq<string>, answerability: Answerability, cs: seq<Candidate>) {
    match answerability
    case LocalAnswer => out == []
    case PartialAnswer => out == [if cs == [] then NO_EVIDENCE else PARTIAL]
    case NeedsEscalation => out == [if cs == [] then NO_EVIDENCE else INSUFFICIENT]
  }

  // ----- The packet -----

  /** The packet shows what these limits let it show of the best candidates. */
  ghost predicate Shows(input: Input, l: Limits, p: Packet) {
    && p.selected == FirstN(input.candidates, l.sources)
    && IsSummary(p.summary, p.selected, input.intent, l.sentences)
    && AreConstraints(p.constraints, p.selected, l.constraints)
    && (if l.uncertainties then AreUncertainties(p.uncertainties, input.answerability, p.selected)
        else p.uncertainties == [])
    && AreSources(p.sources, p.selected)
    && (p.excerpts.Some? <==> l.excerpts > 0)
    && (p.excerpts.Some? ==> AreExcerpts(p.excerpts.value, FirstN(p.selected, l.excerpts)))
  }

  /** Only the beginning of a summary is left. */
  ghost predicate ShowsSummaryOnly(input: Input, l: Limits, p: Packet) {
    && p.selected == [] && p.constraints == [] && p.uncertainties == [] && p.sources == [] && p.excerpts == None
    && exists text :: IsSummary(text, FirstN(input.candidates, l.sources), input.intent, l.sentences) &&
         p.summary == ExcerptText(text, Larger(1, 4 * input.budget.maxTokens))
  }

  lemma SummaryIs(cs: seq<Candidate>, intent: Intent, n: int)
    ensures IsSummary(Summarize(cs, intent, n), cs, intent, n)
  {
    hide AreFirsts, DedupeStrings, SplitSentences, SummaryPrefix, Join;
    AllAreFlat(cs);
    DedupedAreFirsts(Flat(SentencesOf(cs)));
    var all := DedupeStrings(Flat(SentencesOf(cs)));
    assert IsSummaryOf(Summarize(cs, intent, n), intent, FirstN(all, n));
  }

  lemma ConstraintsAre(cs: seq<Candidate>, n: int)
    ensures AreConstraints(FirstN(DedupeStrings(AllQualifiers(cs)), n), cs, n)
  {
    hide AreFirsts, DedupeStrings;
    AllAreFlat(cs);
    DedupedAreFirsts(Flat(QualifiersOf(cs)));
  }

  lemma UncertaintiesAre(answerability: Answerability, cs: seq<Candidate>)
    ensures AreUncertainties(Uncertainties(answerability, cs), answerability, cs)
  {
  }

  lemma SourcesAre(cs: seq<Candidate>)
    ensures AreSources(DedupeSources(cs), cs)
  {
    hide SourcesAt;
    var at := DedupedSources(cs);
  }

  lemma ExcerptsAre(cs: seq<Candidate>)
    ensures AreExcerpts(Excerpts(cs), cs)
  {
    hide ExcerptsAt;
    var at := ExcerptPlaces(cs, 0);
    assert cs[0..] == cs;
  }

  lemma PacketParts(input: Input, l: Limits)
    ensures var p, selected := PacketFor(input, l), FirstN(input.candidates, l.sources);
            && p.selected == selected && p.summary == Summarize(selected, input.intent, l.sentences)
            && p.constraints == FirstN(DedupeStrings(AllQualifiers(selected)), l.constraints)
            && p.uncertainties == (if l.uncertainties then Uncertainties(input.answerability, selected) else [])
            && p.sources == DedupeSources(selected)
            && p.excerpts == (if l.excerpts > 0 then Some(Excerpts(FirstN(selected, l.excerpts))) else None)
  {
    hide Summarize, DedupeStrings, AllQualifiers, DedupeSources, Excerpts, Cost, Uncertainties;
  }

  lemma PacketIsShown(input: Input, l: Limits)
    ensures Shows(input, l, PacketFor(input, l))
  {
    hide PacketFor, Summarize, DedupeStrings, AllQualifiers, DedupeSources, Excerpts, Cost, IsSummary, AreConstraints,
         AreSources, AreExcerpts, AreUncertainties, Uncertainties, FirstN;
    var selected := FirstN(input.candidates, l.sources);
    PacketParts(input, l);
    SummaryIs(selected, input.intent, l.sentences);
    ConstraintsAre(selected, l.constraints);
    UncertaintiesAre(input.answerability, selected);
    SourcesAre(selected);
    ExcerptsAre(FirstN(selected, l.excerpts));
  }

  lemma ClippedIsShown(input: Input, l: Limits)
    ensures ShowsSummaryOnly(input, l, ClippedPacket(input, l))
  {
    hide Summarize, ExcerptText, Cost, IsSummary;
    SummaryIs(FirstN(input.candidates, l.sources), input.intent, l.sentences);
  }

  /** What the loop hands out: the first limits that fit show, of the best candidates, every source once, their
      qualifiers and sentences without repetition, their excerpts and the doubt about the answer, each list from its
      beginning; and when none fit, the beginning of the summary that is left. */
  lemma EnforcedShows(input: Input)
    ensures var first, p := FirstLimits(input), Enforced(input);
            || (exists k: nat :: FirstFit(input, first, 0, k) && Shows(input, LimitsAt(first, k), p))
            || ((forall k: nat :: k <= Slack(first) ==> !Fits(input, LimitsAt(first, k))) &&
                 ShowsSummaryOnly(input, LimitsAt(first, Slack(first)), p))
  {
    hide EnforceFrom, PacketFor, ClippedPacket, LimitsAt, Fits, Shows, ShowsSummaryOnly;
    var first := FirstLimits(input);
    FirstFittingLimits(input);
    if k: nat :| FirstFit(input, first, 0, k) && Enforced(input) == PacketFor(input, LimitsAt(first, k)) {
      PacketIsShown(input, LimitsAt(first, k));
    } else {
      ClippedIsShown(input, LimitsAt(first, Slack(first)));
    }
  }
}
