/** Replaying the backlog of the outbox with one worker. */
module OutboxReplay {
  import opened Domain
  import opened Promotion
  import opened PromotionEffects
  import opened Replay
  import opened Stores

  function Backlog(outbox: Outbox): set<string> {
    set id | id in outbox && Unfinished(outbox, id)
  }

  function Listed(ids: seq<string>): set<string> {
    set id | id in ids
  }

  method Earliest(outbox: Outbox, candidates: set<string>) returns (id: string)
    requires candidates != {} && candidates <= outbox.Keys
    ensures id in candidates
    ensures forall other :: other in candidates ==> outbox[id].createdAt <= outbox[other].createdAt
  {
    id :| id in candidates;
    var rest := candidates - {id};
    while rest != {}
      invariant id in candidates && rest <= candidates
      invariant forall other :: other in candidates - rest ==> outbox[id].createdAt <= outbox[other].createdAt
      decreases rest
    {
      var next :| next in rest;
      if outbox[next].createdAt < outbox[id].createdAt {
        id := next;
      }
      rest := rest - {next};
    }
  }

  /** Entries that are pending, failed or still processing, oldest first; entries of the same instant in any order. */
  method ListPromotionOutboxEntries(outbox: Outbox, limit: nat) returns (ids: seq<string>)
    ensures Oldest(outbox, ids, limit)
  {
    ids := [];
    var rest := Backlog(outbox);
    while |ids| < limit && rest != {}
      invariant |ids| <= limit && rest <= Backlog(outbox)
      invariant forall i :: 0 <= i < |ids| ==> Unfinished(outbox, ids[i]) && ids[i] !in rest
      invariant forall id :: id in Backlog(outbox) ==> id in ids || id in rest
      invariant forall i, j :: 0 <= i < j < |ids| ==>
                  ids[i] != ids[j] && outbox[ids[i]].createdAt <= outbox[ids[j]].createdAt
      invariant forall i, id :: 0 <= i < |ids| && id in rest ==> outbox[ids[i]].createdAt <= outbox[id].createdAt
      decreases rest
    {
      var next := Earliest(outbox, rest);
      rest := rest - {next};
      ids := ids + [next];
    }
  }

  predicate OneAttempt(before: OutboxRecord, after: OutboxRecord) {
    || after == before.(entry := Entry(Completed, before.entry.attempts + 1))
    || after == before.(entry := Entry(Failed, before.entry.attempts + 1))
  }

  /** What replaying the listed entries does to the outbox: one claim each, every other entry untouched. */
  ghost predicate ReplayRound(before: Outbox, after: Outbox, ids: seq<string>) {
    && before.Keys == after.Keys
    && (forall id :: id in before && id !in ids ==> after[id] == before[id])
    && (forall id :: id in ids ==> id in before && OneAttempt(before[id], after[id]))
  }

  predicate CompletedIn(outbox: Outbox, id: string) {
    id in outbox && outbox[id].entry.state.Completed?
  }

  // ----- Replaying as a function -----

  datatype Stage = Stage(tables: Tables, outbox: Outbox)

  /** One attempt at an entry, by one worker alone, that fails after `fuse` calls unless it needs fewer. */
  function AttemptEntry(chunker: Chunker, s: Stage, id: string, fuse: nat): Stage
    requires id in s.outbox
  {
    var record := s.outbox[id];
    var job := Attempt(Program(record.payload, chunker), Job(s.tables, record.entry), FaultAfter(fuse));
    Stage(job.tables, s.outbox[id := record.(entry := job.entry)])
  }

  /** The entries one after the other. */
  function ReplayAll(chunker: Chunker, s: Stage, ids: seq<string>, fuses: string -> nat): Stage
    decreases |ids|
  {
    if ids == [] then s
    else
      var id := ids[|ids| - 1];
      var before := ReplayAll(chunker, s, ids[..|ids| - 1], fuses);
      if id in before.outbox then AttemptEntry(chunker, before, id, fuses(id)) else before
  }

  lemma ReplayNone(chunker: Chunker, s: Stage, fuses: string -> nat)
    ensures ReplayAll(chunker, s, [], fuses) == s
  {
  }

  lemma ReplayNext(chunker: Chunker, s: Stage, ids: seq<string>, id: string, fuses: string -> nat)
    ensures var before := ReplayAll(chunker, s, ids, fuses);
            ReplayAll(chunker, s, ids + [id], fuses) ==
              if id in before.outbox then AttemptEntry(chunker, before, id, fuses(id)) else before
  {
    hide AttemptEntry;
    assert (ids + [id])[..|ids + [id]| - 1] == ids;
  }

  method ReplayEntry(worker: PromotionWorker, id: string, fuse: nat) returns (ok: bool)
    requires Unfinished(worker.outbox, id)
    modifies worker
    ensures Stage(worker.tables, worker.outbox) ==
            AttemptEntry(worker.chunker, Stage(old(worker.tables), old(worker.outbox)), id, fuse)
    ensures id in worker.outbox && OneAttempt(old(worker.outbox)[id], worker.outbox[id])
    ensures worker.outbox == old(worker.outbox)[id := worker.outbox[id]]
    ensures ok <==> CompletedIn(worker.outbox, id)
  {
    hide Program, RunPart, Attempt, IsPromoted;
    worker.fuse := fuse;
    var chunks;
    ok, chunks := worker.ProcessPromotionOutboxEntry(id);
  }

  lemma RoundExtends(before: Outbox, mid: Outbox, after: Outbox, ids: seq<string>, id: string)
    requires ReplayRound(before, mid, ids) && id !in ids && id in before
    requires id in after && after == mid[id := after[id]] && OneAttempt(before[id], after[id])
    ensures ReplayRound(before, after, ids + [id])
    ensures forall other :: other != id ==> (CompletedIn(after, other) <==> CompletedIn(mid, other))
  {
  }

  lemma RoundNothing(outbox: Outbox)
    ensures ReplayRound(outbox, outbox, [])
  {
  }

  lemma RoundLeaves(before: Outbox, mid: Outbox, ids: seq<string>, id: string)
    requires ReplayRound(before, mid, ids) && id !in ids && Unfinished(before, id)
    ensures Unfinished(mid, id) && mid[id] == before[id]
  {
  }

  lemma ListedEntry(outbox: Outbox, ids: seq<string>, limit: nat, i: nat)
    requires Oldest(outbox, ids, limit) && i < |ids|
    ensures Unfinished(outbox, ids[i]) && ids[i] !in ids[..i]
  {
  }

  /** Replays the oldest unfinished entries; `fuses` says after how many calls an entry's attempt is made to fail. */
  method ReplayPendingPromotions(worker: PromotionWorker, limit: int, fuses: string -> nat)
    returns (processed: seq<string>, failed: seq<string>, ghost ids: seq<string>)
    modifies worker
    ensures Oldest(old(worker.outbox), ids, if limit < 1 then 1 else limit)
    ensures Stage(worker.tables, worker.outbox) ==
            ReplayAll(worker.chunker, Stage(old(worker.tables), old(worker.outbox)), ids, fuses)
    ensures ReplayRound(old(worker.outbox), worker.outbox, ids)
    ensures |processed| + |failed| == |ids|
    ensures forall id :: id in processed <==> id in ids && CompletedIn(worker.outbox, id)
    ensures forall id :: id in failed <==> id in ids && !CompletedIn(worker.outbox, id)
  {
    hide OneAttempt, Oldest, ReplayRound, AttemptEntry, ReplayAll, CompletedIn;
    var queued := ListPromotionOutboxEntries(worker.outbox, if limit < 1 then 1 else limit);
    ids := queued;
    processed, failed := [], [];
    ghost var start := worker.outbox;
    ghost var stage := Stage(worker.tables, worker.outbox);
    var i := 0;
    RoundNothing(start);
    assert queued[..0] == [];
    ReplayNone(worker.chunker, stage, fuses);
    while i < |queued|
      invariant 0 <= i <= |queued|
      invariant Stage(worker.tables, worker.outbox) == ReplayAll(worker.chunker, stage, queued[..i], fuses)
      invariant ReplayRound(start, worker.outbox, queued[..i])
      invariant |processed| + |failed| == i
      invariant forall id :: id in processed <==> id in queued[..i] && CompletedIn(worker.outbox, id)
      invariant forall id :: id in failed <==> id in queued[..i] && !CompletedIn(worker.outbox, id)
    {
      var id := queued[i];
      ghost var before := worker.outbox;
      assert queued[..i + 1] == queued[..i] + [id];
      ReplayNext(worker.chunker, stage, queued[..i], id, fuses);
      ListedEntry(start, queued, if limit < 1 then 1 else limit, i);
      RoundLeaves(start, before, queued[..i], id);
      var ok := ReplayEntry(worker, id, fuses(id));
      RoundExtends(start, before, worker.outbox, queued[..i], id);
      if ok {
        processed := processed + [id];
      } else {
        failed := failed + [id];
      }
      i := i + 1;
    }
    assert queued[..i] == queued;
  }

  // ----- Replays without faults -----

  /** The payload writes this path into the row of this id. */
  ghost predicate WritesRow(p: Payload, id: string, path: string) {
    || (id == p.draft.noteId && path == p.draft.path)
    || (exists i :: 0 <= i < |p.writes| && p.writes[i].noteId == id && p.writes[i].path == path)
  }

  /** The id holds the path in a row, or will once an unfinished entry has been replayed. */
  ghost predicate Claims(s: Stage, id: string, path: string) {
    || (id in s.tables.rows && s.tables.rows[id].path == path)
    || (exists e :: Unfinished(s.outbox, e) && WritesRow(s.outbox[e].payload, id, path))
  }

  /** Every unfinished payload is well formed and within the corpus policy, and no path is claimed by two ids. */
  ghost predicate Replayable(s: Stage) {
    && KeyedTable(s.tables.chunks)
    && (forall e :: Unfinished(s.outbox, e) ==> PayloadFine(s.outbox[e].payload))
    && (forall a, b, path :: Claims(s, a, path) && Claims(s, b, path) ==> a == b)
  }

  ghost predicate PayloadFine(p: Payload) {
    PayloadOk(p) && forall i :: 0 <= i < |p.writes| ==> CorpusPolicy(Persisted(p.writes[i]))
  }

  lemma ReplayableFits(s: Stage, e: string)
    requires Replayable(s) && Unfinished(s.outbox, e)
    ensures Fits(s.outbox[e].payload, s.tables.rows)
  {
    hide CorpusPolicy;
    var p := s.outbox[e].payload;
    assert PayloadFine(p);
    assert WritesRow(p, p.draft.noteId, p.draft.path) && Claims(s, p.draft.noteId, p.draft.path);
    forall i | 0 <= i < |p.writes|
      ensures p.writes[i].path != p.draft.path
      ensures forall id :: id in s.tables.rows && id != p.writes[i].noteId ==>
                s.tables.rows[id].path != p.writes[i].path
    {
      assert WritesRow(p, p.writes[i].noteId, p.writes[i].path) && Claims(s, p.writes[i].noteId, p.writes[i].path);
      forall id | id in s.tables.rows && id != p.writes[i].noteId ensures s.tables.rows[id].path != p.writes[i].path {
        assert Claims(s, id, s.tables.rows[id].path);
      }
    }
    forall id | id in s.tables.rows && id != p.draft.noteId ensures s.tables.rows[id].path != p.draft.path {
      assert Claims(s, id, s.tables.rows[id].path);
    }
  }

  /** The calls of an entry and the one that completes it. */
  function Calls(p: Payload): nat {
    6 * |p.writes| + 4
  }

  lemma AttemptCompletes(chunker: Chunker, s: Stage, e: string, fuse: nat)
    requires GoodChunker(chunker) && Replayable(s) && Unfinished(s.outbox, e) && fuse >= Calls(s.outbox[e].payload)
    ensures var s' := AttemptEntry(chunker, s, e, fuse);
            && s'.outbox == s.outbox[e := s.outbox[e].(entry := Entry(Completed, s.outbox[e].entry.attempts + 1))]
            && Replayable(s')
  {
    hide GoodChunker, Filed, Fits, PayloadOk, CorpusPolicy, Admissible, KeyedTable, Claims, Program, RunPart;
    var p := s.outbox[e].payload;
    var s' := AttemptEntry(chunker, s, e, fuse);
    ReplayableFits(s, e);
    assert PayloadFine(p);
    FittingIsAdmissible(p, chunker, s.tables.rows);
    ReplayFiles(p, chunker, s.tables);
    assert s'.tables == Run(Program(p, chunker), s.tables).tables;
    FiledIsKeyed(p, chunker, s.tables, s'.tables);
    forall id, path | Claims(s', id, path) ensures Claims(s, id, path) {
      ClaimsShrink(chunker, s, e, s', id, path);
    }
    forall other | Unfinished(s'.outbox, other) ensures PayloadFine(s'.outbox[other].payload) {
      assert Unfinished(s.outbox, other);
    }
  }

  lemma ClaimsShrink(chunker: Chunker, s: Stage, e: string, s': Stage, id: string, path: string)
    requires Unfinished(s.outbox, e) && Filed(s.outbox[e].payload, chunker, s.tables, s'.tables)
    requires forall other :: Unfinished(s'.outbox, other) ==>
               Unfinished(s.outbox, other) && s'.outbox[other].payload == s.outbox[other].payload
    requires Claims(s', id, path)
    ensures Claims(s, id, path)
  {
    hide Filed;
    var p := s.outbox[e].payload;
    if id in s'.tables.rows && s'.tables.rows[id].path == path {
      RowAfter(s.tables, chunker, p, s'.tables, id);
      assert WritesRow(p, id, path) || (id in s.tables.rows && s.tables.rows[id].path == path);
    } else {
      var other :| Unfinished(s'.outbox, other) && WritesRow(s'.outbox[other].payload, id, path);
      assert WritesRow(s.outbox[other].payload, id, path);
    }
  }

  /** Every entry's attempt is allowed as many calls as it needs. */
  ghost predicate Ample(outbox: Outbox, fuses: string -> nat) {
    forall e :: e in outbox ==> fuses(e) >= Calls(outbox[e].payload)
  }

  /** Exactly the listed entries have been completed, and no payload has changed. */
  ghost predicate Advanced(before: Outbox, after: Outbox, ids: seq<string>) {
    && after.Keys == before.Keys
    && (forall id :: id in ids ==> CompletedIn(after, id))
    && (forall id :: id in before && id !in ids ==> after[id] == before[id])
    && (forall id :: id in before ==> after[id].payload == before[id].payload)
  }

  lemma AdvancedByOne(before: Outbox, mid: Outbox, after: Outbox, front: seq<string>, id: string)
    requires Advanced(before, mid, front) && id in before && id !in front
    requires after == mid[id := mid[id].(entry := Entry(Completed, mid[id].entry.attempts + 1))]
    ensures Advanced(before, after, front + [id])
  {
  }

  /** Without faults, every listed entry of a replayable outbox is completed, and what is left is replayable. */
  lemma {:induction false} ReplayAllCompletes(chunker: Chunker, s: Stage, ids: seq<string>, fuses: string -> nat)
    requires GoodChunker(chunker) && Replayable(s) && Ample(s.outbox, fuses)
    requires forall i :: 0 <= i < |ids| ==> Unfinished(s.outbox, ids[i])
    requires forall i, j :: 0 <= i < j < |ids| ==> ids[i] != ids[j]
    ensures Replayable(ReplayAll(chunker, s, ids, fuses))
    ensures Advanced(s.outbox, ReplayAll(chunker, s, ids, fuses).outbox, ids)
  {
    hide *;
    if ids == [] {
      ReplayNone(chunker, s, fuses);
      NothingAdvanced(s.outbox);
    } else {
      var front, id := ids[..|ids| - 1], ids[|ids| - 1];
      assert ids == front + [id];
      ReplayAllCompletes(chunker, s, front, fuses);
      ReplayNext(chunker, s, front, id, fuses);
      NextCompletes(chunker, s, ReplayAll(chunker, s, front, fuses), front, id, fuses);
    }
  }

  lemma NothingAdvanced(outbox: Outbox)
    ensures Advanced(outbox, outbox, [])
  {
  }

  lemma NextCompletes(chunker: Chunker, s: Stage, mid: Stage, front: seq<string>, id: string, fuses: string -> nat)
    requires GoodChunker(chunker) && Replayable(mid) && Ample(s.outbox, fuses) && Unfinished(s.outbox, id) &&
               id !in front
    requires Advanced(s.outbox, mid.outbox, front)
    ensures id in mid.outbox
    ensures Replayable(AttemptEntry(chunker, mid, id, fuses(id)))
    ensures Advanced(s.outbox, AttemptEntry(chunker, mid, id, fuses(id)).outbox, front + [id])
  {
    hide GoodChunker, Replayable, AttemptEntry, Calls;
    AttemptCompletes(chunker, mid, id, fuses(id));
    AdvancedByOne(s.outbox, mid.outbox, AttemptEntry(chunker, mid, id, fuses(id)).outbox, front, id);
  }

  // ----- Draining the backlog -----

  /** One call of the replay with at most `limit` entries, in which no port call failed for reasons of its own. */
  ghost predicate FaultFreeReplay(chunker: Chunker, s: Stage, s': Stage, limit: nat) {
    exists ids, fuses: string -> nat ::
      Oldest(s.outbox, ids, limit) && Ample(s.outbox, fuses) && s' == ReplayAll(chunker, s, ids, fuses)
  }

  lemma ListedSize(ids: seq<string>)
    requires forall i, j :: 0 <= i < j < |ids| ==> ids[i] != ids[j]
    ensures |Listed(ids)| == |ids|
  {
    if ids != [] {
      var front := ids[..|ids| - 1];
      ListedSize(front);
      assert Listed(ids) == Listed(front) + {ids[|ids| - 1]};
    }
  }

  lemma FaultFreeShrinks(chunker: Chunker, s: Stage, s': Stage, limit: nat)
    requires GoodChunker(chunker) && Replayable(s) && FaultFreeReplay(chunker, s, s', limit)
    ensures Replayable(s')
    ensures |Backlog(s'.outbox)| == if |Backlog(s.outbox)| < limit then 0 else |Backlog(s.outbox)| - limit
  {
    hide GoodChunker, Replayable, ReplayAll, Advanced, Ample, Backlog, Listed;
    var ids, fuses: string -> nat :|
      Oldest(s.outbox, ids, limit) && Ample(s.outbox, fuses) && s' == ReplayAll(chunker, s, ids, fuses);
    ReplayAllCompletes(chunker, s, ids, fuses);
    ListedSize(ids);
    BacklogAfter(s.outbox, s'.outbox, ids, limit);
  }

  lemma BacklogAfter(before: Outbox, after: Outbox, ids: seq<string>, limit: nat)
    requires Oldest(before, ids, limit) && Advanced(before, after, ids)
    ensures Backlog(after) == Backlog(before) - Listed(ids) && Listed(ids) <= Backlog(before)
    ensures |ids| < limit ==> Backlog(before) <= Listed(ids)
  {
  }

  /** From an outbox whose unfinished payloads respect the policy and claim no path twice: after k fault-free replays
      min(n, k * limit) of the n unfinished entries are completed, so the backlog is empty from the first k with
      k * limit >= n on and not before. */
  lemma {:induction false} BacklogDrains(chunker: Chunker, history: seq<Stage>, limit: nat, k: nat)
    requires GoodChunker(chunker) && 1 <= limit && k < |history| && Replayable(history[0])
    requires forall i :: 0 <= i < |history| - 1 ==> FaultFreeReplay(chunker, history[i], history[i + 1], limit)
    ensures Replayable(history[k])
    ensures var n := |Backlog(history[0].outbox)|;
            && |Backlog(history[k].outbox)| == (if n < k * limit then 0 else n - k * limit)
            && (Backlog(history[k].outbox) == {} <==> n <= k * limit)
  {
    hide GoodChunker, Replayable;
    if k > 0 {
      BacklogDrains(chunker, history, limit, k - 1);
      assert FaultFreeReplay(chunker, history[k - 1], history[k - 1 + 1], limit);
      FaultFreeShrinks(chunker, history[k - 1], history[k], limit);
      assert k * limit == (k - 1) * limit + limit;
    }
  }

  // ----- What a second worker can do -----

  /** A run of three workers from the start: two claim the entry, the first completes it, the second takes pc steps. */
  function Overtaken(ops: seq<Op>, pc: nat): seq<Event> {
    [Claim(0), Claim(1)] + Steps(0, |ops|) + [Complete(0)] + Steps(1, pc)
  }

  /** With a second worker a completed entry can be reopened: wherever the second worker stands, its late fault marks
      the entry failed, and a third worker claims it again from the beginning. */
  lemma {:induction false} LateFaultReopens(ops: seq<Op>, tables: Tables, entry: Entry, pc: nat)
    requires Coherent(ops) && Admissible(ops, tables.rows) && KeyedTable(tables.chunks)
    requires !entry.state.Completed? && pc <= |ops|
    ensures var start := System(tables, entry, [Waiting, Waiting, Waiting]);
            var completed := Trace(ops, start, Overtaken(ops, pc));
            var reopened := Trace(ops, start, Overtaken(ops, pc) + [Fault(1), Claim(2)]);
            && completed.Some? && completed.value.entry.state.Completed?
            && reopened.Some? && reopened.value.entry.state.Processing?
            && reopened.value.workers == [Finished, Stopped(pc), Active(0)]
  {
    hide Fire, Trace, Apply, View, Goal, Run, SystemInv, Admissible, Coherent;
    var s0 := System(tables, entry, [Waiting, Waiting, Waiting]);
    var opening, done, stepping := [Claim(0), Claim(1)] + Steps(0, |ops|), [Complete(0)], Steps(1, pc);
    var s1 := OpeningRun(ops, tables, entry);
    var s2 := CompletionRun(ops, tables, s1);
    TraceAppend(ops, s0, opening, done);
    StepsReach(ops, tables, s2, 1, 0, pc);
    var s3 := Trace(ops, s2, stepping).value;
    TraceAppend(ops, s0, opening + done, stepping);
    assert s3.workers == [Finished, Active(pc), Waiting];
    TraceAppend(ops, s0, Overtaken(ops, pc), [Fault(1), Claim(2)]);
    FaultThenClaim(ops, s3, pc);
  }

  lemma FaultThenClaim(ops: seq<Op>, s: System, pc: nat)
    requires s.workers == [Finished, Active(pc), Waiting] && pc <= |ops|
    ensures var end := Trace(ops, s, [Fault(1), Claim(2)]);
            && end.Some? && end.value.workers == [Finished, Stopped(pc), Active(0)] && end.value.entry.state.Processing?
  {
    hide Apply;
    TwoEvents(ops, s, Fault(1), Claim(2));
  }
}
