/** Refresh drafts for canonical notes whose validity has run out, lies ahead or is about to end. */
module Refresh {
  import opened Chunking
  import opened Text

  datatype State = Expired | FutureDated | ExpiringSoon

  /** What the note table says of a note. */
  datatype ValidityRow = ValidityRow(path: string, current: bool, promoted: bool, validFrom: Option<string>,
      validUntil: Option<string>)

  /** The canonical note a row leads to. */
  datatype Source = Source(noteId: string, corpusId: string)

  datatype RefreshDraft = RefreshDraft(noteId: string, corpusId: string, isOpen: bool, updated: string,
      supersedes: seq<string>)

  /** What happens to a new draft: it is stored, refused, or stored without its metadata, which reports a failure. */
  datatype Fate = Stored | Rejected | StoredWithoutRow

  /** The id, date and fate of the draft that one call would create. */
  datatype Attempt = Attempt(noteId: string, updated: string, fate: Fate)

  datatype Failure = Forbidden | NoCandidate | SourceMissing | DraftFailed

  datatype Result = Failed(why: Failure) | Refreshed(source: Source, state: State, draft: RefreshDraft, reused: bool)

  datatype Store = Store(rows: map<string, ValidityRow>, canonical: map<string, Source>)

  // ----- One call -----

  predicate Present(date: Option<string>) {
    date.Some? && date.value != ""
  }

  /** `deriveTemporalValidityCandidateState` */
  function StateOf(row: ValidityRow, asOf: string, windowEnd: string): Option<State> {
    if Present(row.validUntil) && Before(row.validUntil.value, asOf) then Some(Expired)
    else if Present(row.validFrom) && Before(asOf, row.validFrom.value) then Some(FutureDated)
    else if Present(row.validUntil) && !Before(row.validUntil.value, asOf) &&
              !Before(windowEnd, row.validUntil.value) then Some(ExpiringSoon)
    else None
  }

  /** The condition by which the report lists a row under a state; an absent date is NULL, an empty one is not. */
  predicate ListedAs(row: ValidityRow, state: State, asOf: string, windowEnd: string) {
    match state
    case Expired => row.validUntil.Some? && Before(row.validUntil.value, asOf)
    case FutureDated => row.validFrom.Some? && Before(asOf, row.validFrom.value)
    case ExpiringSoon =>
      row.validUntil.Some? && !Before(row.validUntil.value, asOf) && !Before(windowEnd, row.validUntil.value)
  }

  /** A listed row can be refreshed, and a row that can be refreshed is listed under its state, except that a row
      whose end date is an empty string may be listed although it has no state. */
  lemma ListedIffStated(row: ValidityRow, asOf: string, windowEnd: string)
    ensures StateOf(row, asOf, windowEnd).Some? ==> ListedAs(row, StateOf(row, asOf, windowEnd).value, asOf, windowEnd)
    ensures StateOf(row, asOf, windowEnd).None? ==>
              ((exists state :: ListedAs(row, state, asOf, windowEnd)) <==> row.validUntil == Some(""))
  {
    if StateOf(row, asOf, windowEnd).None? && row.validUntil == Some("") {
      assert ListedAs(row, if Before("", asOf) then Expired else ExpiringSoon, asOf, windowEnd);
    }
  }

  function CandidateOf(store: Store, noteId: string, asOf: string, windowEnd: string): Option<State> {
    if noteId !in store.rows || !store.rows[noteId].current || !store.rows[noteId].promoted then None
    else StateOf(store.rows[noteId], asOf, windowEnd)
  }

  predicate OpenFor(d: RefreshDraft, source: Source) {
    d.isOpen && d.corpusId == source.corpusId && source.noteId in d.supersedes
  }

  predicate Precedes(a: RefreshDraft, b: RefreshDraft) {
    Before(b.updated, a.updated) || (a.updated == b.updated && Before(a.noteId, b.noteId))
  }

  lemma {:induction false} BeforeIsStrict(a: string, b: string, c: string)
    ensures !Before(a, a)
    ensures Before(a, b) && Before(b, c) ==> Before(a, c)
    decreases |a| + |b| + |c|
  {
    if a != "" {
      BeforeIsStrict(a[1..], if b == "" then "" else b[1..], if c == "" then "" else c[1..]);
    }
  }

  lemma PrecedesIsStrict(a: RefreshDraft, b: RefreshDraft, c: RefreshDraft)
    ensures !Precedes(a, a)
    ensures Precedes(a, b) && Precedes(b, c) ==> Precedes(a, c)
  {
    hide Before;
    BeforeIsStrict(c.updated, b.updated, a.updated);
    BeforeIsStrict(a.updated, a.updated, a.updated);
    BeforeIsStrict(a.noteId, b.noteId, c.noteId);
  }

  /** No open draft for the note goes before this one. */
  ghost predicate IsFirst(drafts: seq<RefreshDraft>, source: Source, first: RefreshDraft) {
    forall i :: 0 <= i < |drafts| && OpenFor(drafts[i], source) ==> !Precedes(drafts[i], first)
  }

  lemma FirstOfMore(drafts: seq<RefreshDraft>, source: Source, best: Option<RefreshDraft>)
    requires drafts != []
    requires if best.Some? then IsFirst(drafts[..|drafts| - 1], source, best.value)
             else forall i :: 0 <= i < |drafts| - 1 ==> !OpenFor(drafts[i], source)
    ensures var last := drafts[|drafts| - 1];
            if OpenFor(last, source) && (best.None? || Precedes(last, best.value)) then IsFirst(drafts, source, last)
            else best.Some? ==> IsFirst(drafts, source, best.value)
  {
    hide Precedes, OpenFor;
    var last, front := drafts[|drafts| - 1], drafts[..|drafts| - 1];
    PrecedesIsStrict(last, last, last);
    forall i | 0 <= i < |front|
      ensures drafts[i] == front[i]
      ensures best.Some? && Precedes(front[i], last) && Precedes(last, best.value) ==> Precedes(front[i], best.value)
    {
      if best.Some? {
        PrecedesIsStrict(front[i], last, best.value);
      }
    }
  }

  /** The open draft for a note that was updated last, the smallest id first among equals. */
  function FindExisting(drafts: seq<RefreshDraft>, source: Source): (r: Option<RefreshDraft>)
    ensures r.Some? ==> r.value in drafts && OpenFor(r.value, source) && IsFirst(drafts, source, r.value)
    ensures r.None? ==> forall i :: 0 <= i < |drafts| ==> !OpenFor(drafts[i], source)
  {
    if drafts == [] then None
    else
      var last := drafts[|drafts| - 1];
      var best := FindExisting(drafts[..|drafts| - 1], source);
      FirstOfMore(drafts, source, best);
      if OpenFor(last, source) && (best.None? || Precedes(last, best.value)) then Some(last) else best
  }

  function NewDraft(source: Source, a: Attempt): RefreshDraft {
    RefreshDraft(a.noteId, source.corpusId, true, a.updated, [source.noteId])
  }

  function Refreshing(store: Store, drafts: seq<RefreshDraft>, allowed: bool, noteId: string, asOf: string,
                      windowEnd: string, a: Attempt)
      : (Result, seq<RefreshDraft>) {
    var state := CandidateOf(store, noteId, asOf, windowEnd);
    if !allowed then (Failed(Forbidden), drafts)
    else if state.None? then (Failed(NoCandidate), drafts)
    else if store.rows[noteId].path !in store.canonical then (Failed(SourceMissing), drafts)
    else
      var source := store.canonical[store.rows[noteId].path];
      var existing := FindExisting(drafts, source);
      if existing.Some? then (Refreshed(source, state.value, existing.value, true), drafts)
      else
        var draft := NewDraft(source, a);
        match a.fate
        case Stored => (Refreshed(source, state.value, draft, false), drafts + [draft])
        case Rejected => (Failed(DraftFailed), drafts)
        case StoredWithoutRow => (Failed(DraftFailed), drafts + [draft])
  }

  /** A listed row whose end date is no empty string, or one that lies ahead. */
  ghost predicate IsDue(row: ValidityRow, asOf: string, windowEnd: string) {
    || ListedAs(row, FutureDated, asOf, windowEnd)
    || (row.validUntil != Some("") && exists state :: ListedAs(row, state, asOf, windowEnd))
  }

  /** The first state under which the row is listed, in the order expired, future-dated, expiring soon. */
  ghost predicate IsFirstState(row: ValidityRow, asOf: string, windowEnd: string, state: State) {
    && ListedAs(row, state, asOf, windowEnd)
    && (state.FutureDated? ==> row.validUntil == Some("") || !ListedAs(row, Expired, asOf, windowEnd))
    && (state.ExpiringSoon? ==> !ListedAs(row, FutureDated, asOf, windowEnd))
  }

  lemma NothingBeforeEmpty(s: string)
    ensures !Before(s, "")
  {
  }

  lemma DueIff(row: ValidityRow, asOf: string, windowEnd: string)
    ensures StateOf(row, asOf, windowEnd).Some? <==> IsDue(row, asOf, windowEnd)
    ensures forall state :: StateOf(row, asOf, windowEnd) == Some(state) ==> IsFirstState(row, asOf, windowEnd, state)
  {
    hide Before;
    NothingBeforeEmpty(asOf);
    var state := StateOf(row, asOf, windowEnd);
    assert state.Some? ==> ListedAs(row, state.value, asOf, windowEnd);
  }

  /** The draft is open and stands for the note. */
  predicate StandsFor(d: RefreshDraft, source: Source) {
    d.isOpen && d.corpusId == source.corpusId && source.noteId in d.supersedes
  }

  /** A call succeeds exactly when its caller may refresh, the row is that of a current promoted note that is due, its
      file is there, and an open draft exists or a new one can be stored; it names the first state that applies, and
      takes the open draft updated last, the smallest id among equals. A draft stored without its row stays behind. */
  lemma RefreshIff(store: Store, drafts: seq<RefreshDraft>, allowed: bool, noteId: string, asOf: string,
                   windowEnd: string, a: Attempt)
    ensures var (result, after) := Refreshing(store, drafts, allowed, noteId, asOf, windowEnd, a);
            && (result.Refreshed? <==>
                  && CanRefresh(store, allowed, noteId, asOf, windowEnd)
                  && (a.fate.Stored? || exists d :: d in drafts && StandsFor(d, SourceOf(store, noteId))))
            && (result.Refreshed? ==>
                  && result.source == SourceOf(store, noteId)
                  && IsFirstState(store.rows[noteId], asOf, windowEnd, result.state)
                  && (result.reused <==> exists d :: d in drafts && StandsFor(d, result.source))
                  && (if result.reused then after == drafts && IsLatest(drafts, result.source, result.draft)
                      else after == drafts + [result.draft] && IsFresh(result.draft, result.source, a)))
            && (result.Failed? ==>
                  if CanRefresh(store, allowed, noteId, asOf, windowEnd) && a.fate.StoredWithoutRow? then
                    |after| == |drafts| + 1 && after[..|drafts|] == drafts &&
                        IsFresh(after[|drafts|], SourceOf(store, noteId), a)
                  else after == drafts)
  {
    hide Before, StateOf, IsDue, IsFirstState, IsLatest;
    if noteId in store.rows {
      DueIff(store.rows[noteId], asOf, windowEnd);
      if store.rows[noteId].path in store.canonical {
        FoundIsLatest(drafts, SourceOf(store, noteId));
      }
    }
  }

  ghost predicate CanRefresh(store: Store, allowed: bool, noteId: string, asOf: string, windowEnd: string) {
    && allowed && noteId in store.rows
    && var row := store.rows[noteId];
       row.current && row.promoted && IsDue(row, asOf, windowEnd) && row.path in store.canonical
  }

  /** The canonical note that the row leads to. */
  function SourceOf(store: Store, noteId: string): Source {
    if noteId in store.rows && store.rows[noteId].path in store.canonical then
      store.canonical[store.rows[noteId].path]
    else Source("", "")
  }

  /** An open draft of the note; no other was updated later, nor on the same day with a smaller id. */
  ghost predicate IsLatest(drafts: seq<RefreshDraft>, source: Source, first: RefreshDraft) {
    && first in drafts && StandsFor(first, source)
    && forall d :: d in drafts && StandsFor(d, source) ==>
         !Before(first.updated, d.updated) && (d.updated == first.updated ==> !Before(d.noteId, first.noteId))
  }

  predicate IsFresh(draft: RefreshDraft, source: Source, a: Attempt) {
    && draft.isOpen && draft.noteId == a.noteId && draft.updated == a.updated
    && draft.supersedes == [source.noteId] && draft.corpusId == source.corpusId
  }

  lemma FoundIsLatest(drafts: seq<RefreshDraft>, source: Source)
    ensures var found := FindExisting(drafts, source);
            && (found.Some? <==> exists d :: d in drafts && StandsFor(d, source))
            && (found.Some? ==> IsLatest(drafts, source, found.value))
  {
    hide Before;
    var found := FindExisting(drafts, source);
    if found.Some? {
      forall d | d in drafts && StandsFor(d, source)
        ensures !Before(found.value.updated, d.updated)
        ensures d.updated == found.value.updated ==> !Before(d.noteId, found.value.noteId)
      {
        var i :| 0 <= i < |drafts| && drafts[i] == d;
        assert OpenFor(drafts[i], source);
      }
    }
  }

  // ----- A batch -----

  datatype Candidate = Candidate(noteId: string, state: State)

  datatype Report = Report(expired: seq<Candidate>, futureDated: seq<Candidate>, expiringSoon: seq<Candidate>)

  function OfState(report: Report, state: State): seq<Candidate> {
    match state
    case Expired => report.expired
    case FutureDated => report.futureDated
    case ExpiringSoon => report.expiringSoon
  }

  /** `sourceStates.flatMap(state => candidatesByState[state])` */
  function Flattened(report: Report, states: seq<State>): seq<Candidate> {
    if states == [] then [] else OfState(report, states[0]) + Flattened(report, states[1..])
  }

  datatype Skipped = Skipped(candidate: Candidate, deferred: bool)

  datatype BatchResult =
    | BatchFailed(why: Failure)
    | BatchDone(considered: nat, remaining: nat, drafts: seq<Result>, skipped: seq<Skipped>)

  datatype Batch = Batch(report: Report, states: seq<State>, maxDrafts: Option<int>, asOf: string, windowEnd: string)

  const DEFAULT_STATES: seq<State> := [Expired, FutureDated, ExpiringSoon]
  const DEFAULT_MAX_DRAFTS := 10

  function Ordered(b: Batch): seq<Candidate> {
    Flattened(b.report, if b.states == [] then DEFAULT_STATES else b.states)
  }

  function Chosen(b: Batch): (chosen: seq<Candidate>)
    ensures chosen <= Ordered(b)
  {
    SliceTo(Ordered(b), if b.maxDrafts.Some? then b.maxDrafts.value else DEFAULT_MAX_DRAFTS)
  }

  function Deferred(cs: seq<Candidate>): (out: seq<Skipped>)
    ensures |out| == |cs|
  {
    seq(|cs|, i requires 0 <= i < |cs| => Skipped(cs[i], true))
  }

  /** The results, the candidates that failed, and the drafts after the first n chosen candidates. */
  datatype Progress = Progress(results: seq<Result>, failed: seq<Skipped>, drafts: seq<RefreshDraft>)

  function After(store: Store, drafts: seq<RefreshDraft>, b: Batch, attempts: nat -> Attempt, n: nat): Progress
    requires n <= |Chosen(b)|
  {
    if n == 0 then Progress([], [], drafts)
    else
      var before := After(store, drafts, b, attempts, n - 1);
      var c := Chosen(b)[n - 1];
      var (result, after) := Refreshing(store, before.drafts, true, c.noteId, b.asOf, b.windowEnd, attempts(n - 1));
      if result.Failed? then Progress(before.results, before.failed + [Skipped(c, false)], after)
      else Progress(before.results + [result], before.failed, after)
  }

  function Batching(store: Store, drafts: seq<RefreshDraft>, allowed: bool, b: Batch,
                    attempts: nat -> Attempt): (BatchResult, seq<RefreshDraft>) {
    if !allowed then (BatchFailed(Forbidden), drafts)
    else if Ordered(b) == [] then (BatchFailed(NoCandidate), drafts)
    else
      var end := After(store, drafts, b, attempts, |Chosen(b)|);
      var rest := Ordered(b)[|Chosen(b)|..];
      (BatchDone(|Ordered(b)|, |rest|, end.results, Deferred(rest) + end.failed), end.drafts)
  }

  function CountReused(results: seq<Result>, reused: bool): nat {
    if results == [] then 0
    else CountReused(results[..|results| - 1], reused) +
         if results[|results| - 1].Refreshed? && results[|results| - 1].reused == reused then 1 else 0
  }

  class TemporalRefreshService {
    const store: Store
    var drafts: seq<RefreshDraft>

    constructor (store: Store, drafts: seq<RefreshDraft>)
      ensures this.store == store && this.drafts == drafts
    {
      this.store, this.drafts := store, drafts;
    }

    method CreateRefreshDraft(allowed: bool, noteId: string, asOf: string, windowEnd: string,
                              a: Attempt) returns (result: Result)
      modifies this
      ensures (result, drafts) == Refreshing(store, old(drafts), allowed, noteId, asOf, windowEnd, a)
    {
      if !allowed {
        return Failed(Forbidden);
      }
      var state := CandidateOf(store, noteId, asOf, windowEnd);
      if state.None? {
        return Failed(NoCandidate);
      }
      var path := store.rows[noteId].path;
      if path !in store.canonical {
        return Failed(SourceMissing);
      }
      var source := store.canonical[path];
      var existing := FindExisting(drafts, source);
      if existing.Some? {
        return Refreshed(source, state.value, existing.value, true);
      }
      if a.fate.Rejected? {
        return Failed(DraftFailed);
      }
      var draft := NewDraft(source, a);
      drafts := drafts + [draft];
      result := if a.fate.Stored? then Refreshed(source, state.value, draft, false) else Failed(DraftFailed);
    }

    method CreateRefreshDraftBatch(allowed: bool, b: Batch, attempts: nat -> Attempt) returns (result: BatchResult)
      modifies this
      ensures (result, drafts) == Batching(store, old(drafts), allowed, b, attempts)
    {
      hide Ordered, CandidateOf, FindExisting;
      if !allowed {
        return BatchFailed(Forbidden);
      }
      var ordered := Ordered(b);
      if |ordered| == 0 {
        return BatchFailed(NoCandidate);
      }
      var chosen := Chosen(b);
      var deferred := ordered[|chosen|..];
      var results: seq<Result> := [];
      var skipped := Deferred(deferred);
      ghost var failed: seq<Skipped> := [];
      for n := 0 to |chosen|
        invariant After(store, old(drafts), b, attempts, n) == Progress(results, failed, drafts)
        invariant skipped == Deferred(deferred) + failed
      {
        var one := CreateRefreshDraft(true, chosen[n].noteId, b.asOf, b.windowEnd, attempts(n));
        if one.Failed? {
          skipped := skipped + [Skipped(chosen[n], false)];
          failed := failed + [Skipped(chosen[n], false)];
          continue;
        }
        results := results + [one];
      }
      result := BatchDone(|ordered|, |deferred|, results, skipped);
    }
  }

  // ----- One open draft per note -----

  predicate AtMostOne(drafts: seq<RefreshDraft>, source: Source) {
    forall i, j :: 0 <= i < j < |drafts| ==> !(OpenFor(drafts[i], source) && OpenFor(drafts[j], source))
  }

  predicate HasOpen(drafts: seq<RefreshDraft>, source: Source) {
    exists i :: 0 <= i < |drafts| && OpenFor(drafts[i], source)
  }

  /** A call adds no second open draft for any note, whatever becomes of the new draft, removes none,
      and when it succeeds the note has an open draft. */
  lemma CallKeepsOne(store: Store, drafts: seq<RefreshDraft>, allowed: bool, noteId: string, asOf: string,
                     windowEnd: string,
                     a: Attempt, other: Source)
    ensures var (result, after) := Refreshing(store, drafts, allowed, noteId, asOf, windowEnd, a);
            && drafts <= after
            && (AtMostOne(drafts, other) ==> AtMostOne(after, other))
            && (result.Refreshed? ==>
                 HasOpen(after, result.source) && OpenFor(result.draft, result.source) && result.draft in after)
            && (result.Refreshed? ==> (result.reused <==> HasOpen(drafts, result.source)))
            && |after| <= |drafts| + 1
  {
    hide CandidateOf, Precedes;
    var (result, after) := Refreshing(store, drafts, allowed, noteId, asOf, windowEnd, a);
    if result.Refreshed? && !result.reused {
      assert OpenFor(after[|drafts|], result.source);
    }
  }

  /** A call stores a new draft or leaves the drafts alone, and reports a fresh one only when it stored it. */
  lemma CallCounts(store: Store, drafts: seq<RefreshDraft>, allowed: bool, noteId: string, asOf: string,
                   windowEnd: string, a: Attempt)
    ensures var (result, after) := Refreshing(store, drafts, allowed, noteId, asOf, windowEnd, a);
            && (after == drafts || |after| == |drafts| + 1)
            && (result.Refreshed? ==> (result.reused <==> after == drafts))
  {
    hide CandidateOf, FindExisting;
  }

  /** How many drafts were stored for calls that reported a failure. */
  function Lost(store: Store, drafts: seq<RefreshDraft>, b: Batch, attempts: nat -> Attempt, n: nat): nat
    requires n <= |Chosen(b)|
  {
    if n == 0 then 0
    else
      var before := After(store, drafts, b, attempts, n - 1);
      var c := Chosen(b)[n - 1];
      var (result, after) := Refreshing(store, before.drafts, true, c.noteId, b.asOf, b.windowEnd, attempts(n - 1));
      Lost(store, drafts, b, attempts, n - 1) + if result.Failed? && after != before.drafts then 1 else 0
  }

  predicate SameSource(a: Result, b: Result) {
    a.Refreshed? && b.Refreshed? && a.source == b.source
  }

  /** The drafts created for two results are for different notes. */
  predicate CreatedOnce(results: seq<Result>) {
    forall i, j :: 0 <= i < j < |results| && SameSource(results[i], results[j]) ==> results[j].reused
  }

  lemma {:induction false} ProgressKeeps(store: Store, drafts: seq<RefreshDraft>, b: Batch, attempts: nat -> Attempt,
                                        n: nat, other: Source)
    requires n <= |Chosen(b)|
    ensures drafts <= After(store, drafts, b, attempts, n).drafts
    ensures AtMostOne(drafts, other) ==> AtMostOne(After(store, drafts, b, attempts, n).drafts, other)
  {
    hide Chosen, Refreshing, AtMostOne, OpenFor;
    if n > 0 {
      var before := After(store, drafts, b, attempts, n - 1);
      ProgressKeeps(store, drafts, b, attempts, n - 1, other);
      CallKeepsOne(store, before.drafts, true, Chosen(b)[n - 1].noteId, b.asOf, b.windowEnd, attempts(n - 1), other);
    }
  }

  lemma CountAppend(results: seq<Result>, r: Result, reused: bool)
    requires r.Refreshed?
    ensures CountReused(results + [r], reused) == CountReused(results, reused) + if r.reused == reused then 1 else 0
  {
    assert (results + [r])[..|results|] == results;
  }

  lemma {:induction false} ProgressCounts(store: Store, drafts: seq<RefreshDraft>, b: Batch, attempts: nat -> Attempt,
                                        n: nat)
    requires n <= |Chosen(b)|
    ensures var end := After(store, drafts, b, attempts, n);
            && |end.results| + |end.failed| == n
            && (forall i :: 0 <= i < |end.results| ==> end.results[i].Refreshed?)
            && CountReused(end.results, true) + CountReused(end.results, false) == |end.results|
            && |end.drafts| == |drafts| + CountReused(end.results, false) + Lost(store, drafts, b, attempts, n)
  {
    hide Chosen, Refreshing, CountReused;
    if n == 0 {
      NothingCounted();
    } else {
      var before := After(store, drafts, b, attempts, n - 1);
      var c := Chosen(b)[n - 1];
      ProgressCounts(store, drafts, b, attempts, n - 1);
      CallCounts(store, before.drafts, true, c.noteId, b.asOf, b.windowEnd, attempts(n - 1));
      var (result, after) := Refreshing(store, before.drafts, true, c.noteId, b.asOf, b.windowEnd, attempts(n - 1));
      if result.Refreshed? {
        CountAppend(before.results, result, true);
        CountAppend(before.results, result, false);
      }
    }
  }

  lemma NothingCounted()
    ensures forall reused :: CountReused([], reused) == 0
  {
  }

  lemma {:induction false} ProgressCreatesOnce(store: Store, drafts: seq<RefreshDraft>, b: Batch,
                                        attempts: nat -> Attempt, n: nat)
    requires n <= |Chosen(b)|
    ensures var end := After(store, drafts, b, attempts, n);
            && CreatedOnce(end.results)
            && forall i :: 0 <= i < |end.results| ==>
                 end.results[i].Refreshed? && HasOpen(end.drafts, end.results[i].source)
  {
    hide Chosen, Refreshing, HasOpen, OpenFor, AtMostOne;
    if n > 0 {
      var before := After(store, drafts, b, attempts, n - 1);
      var c := Chosen(b)[n - 1];
      ProgressCreatesOnce(store, drafts, b, attempts, n - 1);
      CallKeepsOne(store, before.drafts, true, c.noteId, b.asOf, b.windowEnd, attempts(n - 1), Source("", ""));
      var (result, after) := Refreshing(store, before.drafts, true, c.noteId, b.asOf, b.windowEnd, attempts(n - 1));
      forall i | 0 <= i < |before.results| ensures HasOpen(after, before.results[i].source) {
        OpenStays(before.drafts, after, before.results[i].source);
      }
    }
  }

  lemma OpenStays(drafts: seq<RefreshDraft>, more: seq<RefreshDraft>, source: Source)
    requires drafts <= more && HasOpen(drafts, source)
    ensures HasOpen(more, source)
  {
    var i :| 0 <= i < |drafts| && OpenFor(drafts[i], source);
    assert OpenFor(more[i], source);
  }

  /** Every candidate of a batch ends among the drafts or among the skipped ones; a note listed twice, in two
      categories or in one, is refreshed once and then reused; and the open drafts grow by the number created,
      and by those whose storage was only half successful. */
  lemma BatchAccounts(store: Store, drafts: seq<RefreshDraft>, b: Batch, attempts: nat -> Attempt)
    ensures var (result, after) := Batching(store, drafts, true, b, attempts);
            result.BatchDone? ==>
              && |result.drafts| + |result.skipped| == result.considered
              && result.remaining + |Chosen(b)| == result.considered
              && CountReused(result.drafts, true) + CountReused(result.drafts, false) == |result.drafts|
              && CreatedOnce(result.drafts)
              && |after| == |drafts| + CountReused(result.drafts, false) + Lost(store, drafts, b, attempts, |Chosen(b)|)
  {
    hide Ordered, Chosen, After, CreatedOnce, Lost;
    ProgressCounts(store, drafts, b, attempts, |Chosen(b)|);
    ProgressCreatesOnce(store, drafts, b, attempts, |Chosen(b)|);
  }

  /** Without a choice of states the expired notes come first and those that expire soon last; the limit counts from the
      front, or from the back when it is negative, and what it cuts off is reported as left over. */
  lemma BatchOrder(store: Store, drafts: seq<RefreshDraft>, allowed: bool, b: Batch, attempts: nat -> Attempt)
    ensures b.states == [] ==> Ordered(b) == b.report.expired + b.report.futureDated + b.report.expiringSoon
    ensures b.states == [Expired] ==> Ordered(b) == b.report.expired
    ensures b.states == [FutureDated] ==> Ordered(b) == b.report.futureDated
    ensures b.states == [ExpiringSoon] ==> Ordered(b) == b.report.expiringSoon
    ensures var n, m := |Ordered(b)|, if b.maxDrafts.Some? then b.maxDrafts.value else 10;
            |Chosen(b)| == if m >= n then n else if m >= 0 then m else if n + m > 0 then n + m else 0
    ensures var (result, after) := Batching(store, drafts, allowed, b, attempts);
            && (result.BatchDone? <==> allowed && Ordered(b) != [])
            && (result.BatchFailed? ==> after == drafts)
            && (result.BatchDone? ==>
                  forall k :: 0 <= k < result.remaining ==>
                    k < |result.skipped| && result.skipped[k] == Skipped(Ordered(b)[|Chosen(b)| + k], true))
  {
    hide After;
    var all := b.report;
    assert Flattened(all, []) == [];
    assert [ExpiringSoon][1..] == [] && [Expired][1..] == [] && [FutureDated][1..] == [];
    assert Flattened(all, [ExpiringSoon]) == all.expiringSoon;
    assert [FutureDated, ExpiringSoon][1..] == [ExpiringSoon];
    assert DEFAULT_STATES[1..] == [FutureDated, ExpiringSoon];
    assert Flattened(all, DEFAULT_STATES) == all.expired + (all.futureDated + all.expiringSoon);
  }

  /** A choice of states lists their notes in the order of the choice. */
  lemma {:induction false} FlattenedAppend(report: Report, a: seq<State>, b: seq<State>)
    ensures Flattened(report, a + b) == Flattened(report, a) + Flattened(report, b)
  {
    if a == [] {
      assert a + b == b;
    } else {
      assert (a + b)[0] == a[0] && (a + b)[1..] == a[1..] + b;
      FlattenedAppend(report, a[1..], b);
    }
  }

  // ----- Runs -----

  /** What can happen between one state of the drafts and the next: a single call, a batch, or a draft being closed
      by promotion or rejection. The note table may have changed in between. */
  datatype Event =
    | One(store: Store, allowed: bool, noteId: string, asOf: string, windowEnd: string, attempt: Attempt)
    | Many(store: Store, allowed: bool, batch: Batch, attempts: nat -> Attempt)
    | Close(noteId: string)

  function Closed(drafts: seq<RefreshDraft>, noteId: string): (out: seq<RefreshDraft>)
    ensures |out| == |drafts|
  {
    seq(|drafts|, i requires 0 <= i < |drafts| => if drafts[i].noteId == noteId then
        drafts[i].(isOpen := false) else drafts[i])
  }

  function Step(drafts: seq<RefreshDraft>, e: Event): seq<RefreshDraft> {
    match e
    case One(store, allowed, noteId, asOf, windowEnd, a) => Refreshing(store, drafts, allowed, noteId, asOf,
        windowEnd, a).1
    case Many(store, allowed, b, attempts) => Batching(store, drafts, allowed, b, attempts).1
    case Close(noteId) => Closed(drafts, noteId)
  }

  function Run(drafts: seq<RefreshDraft>, events: seq<Event>): seq<RefreshDraft> {
    if events == [] then drafts else Step(Run(drafts, events[..|events| - 1]), events[|events| - 1])
  }

  /** Over every sequence of refresh calls, single or in batches, no canonical note ever has two open refresh drafts. */
  lemma {:induction false} OneOpenDraftPerNote(drafts: seq<RefreshDraft>, events: seq<Event>, source: Source)
    requires AtMostOne(drafts, source)
    ensures AtMostOne(Run(drafts, events), source)
  {
    hide Refreshing, After, AtMostOne;
    if events != [] {
      OneOpenDraftPerNote(drafts, events[..|events| - 1], source);
      StepKeepsOne(Run(drafts, events[..|events| - 1]), events[|events| - 1], source);
    }
  }

  lemma StepKeepsOne(drafts: seq<RefreshDraft>, e: Event, source: Source)
    requires AtMostOne(drafts, source)
    ensures AtMostOne(Step(drafts, e), source)
  {
    hide Refreshing, After;
    match e
    case One(store, allowed, noteId, asOf, windowEnd, a) =>
      CallKeepsOne(store, drafts, allowed, noteId, asOf, windowEnd, a, source);
    case Many(store, allowed, b, attempts) =>
      ProgressKeeps(store, drafts, b, attempts, |Chosen(b)|, source);
    case Close(_) =>
  }

  /** Closing a draft frees its note and no other. */
  lemma ClosingFrees(drafts: seq<RefreshDraft>, noteId: string, source: Source)
    ensures HasOpen(Closed(drafts, noteId), source) <==>
            exists d :: d in drafts && StandsFor(d, source) && d.noteId != noteId
    ensures forall i :: 0 <= i < |drafts| ==> Closed(drafts, noteId)[i].noteId == drafts[i].noteId
  {
    var after := Closed(drafts, noteId);
    if d :| d in drafts && StandsFor(d, source) && d.noteId != noteId {
      var i :| 0 <= i < |drafts| && drafts[i] == d;
      assert OpenFor(after[i], source);
    }
    if i :| 0 <= i < |after| && OpenFor(after[i], source) {
      assert drafts[i] in drafts && StandsFor(drafts[i], source);
    }
  }
}
