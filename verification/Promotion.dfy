/** The promotion outbox: payloads, the port calls they stand for, and the worker that replays them. */
module Promotion {
  import opened Text
  import opened Domain
  import opened Stores
  import opened Replay

  /** What one promotion is going to write. */
  datatype Payload = Payload(writes: seq<Note>, draft: Draft, decision: Decision)

  /** The record whose text the canonical repository stores, and which it returns. */
  function Persisted(note: Note): Note {
    note.(frontmatter := note.frontmatter.(noteId := note.noteId, corpusId := note.corpusId))
  }

  /** The record whose text the staging repository stores, and which it returns. */
  function PersistedDraft(draft: Draft): Draft {
    var f := draft.frontmatter;
    draft.(frontmatter := f.(noteId := draft.noteId, corpusId := draft.corpusId, status := draft.lifecycle))
  }

  function RowOfNote(note: Note): NoteRow {
    var f := note.frontmatter;
    NoteRow(note.noteId, note.corpusId, note.path, f.noteType, f.status, f.updated, f.currentState,
            f.validFrom, f.validUntil, f.summary, f.scope, (set tag | tag in f.tags),
            Some(note.body), Some((f.title, f.summary, f.scope)))
  }

  function RowOfDraft(draft: Draft): NoteRow {
    var f := draft.frontmatter;
    NoteRow(draft.noteId, draft.corpusId, draft.path, f.noteType, draft.lifecycle, f.updated, f.currentState,
            f.validFrom, f.validUntil, f.summary, f.scope, (set tag | tag in f.tags), None, None)
  }

  /** The six port calls of one canonical write: file, row, chunk rows, full-text rows. */
  function WriteOp(note: Note, chunker: Chunker, k: nat): Op
    requires k < 6
  {
    match k
    case 0 => WriteFile(note)
    case 1 => UpsertNote(RowOfNote(note))
    case 2 => RemoveChunks(note.noteId)
    case 3 => UpsertChunks(note.noteId, chunker(note))
    case 4 => RemoveFullText(note.noteId)
    case _ => UpsertFullText(note.noteId, chunker(note))
  }

  /** The port calls after the canonical writes: promotion event, draft file, draft row. */
  function TailOp(p: Payload, k: nat): Op
    requires k < 3
  {
    match k
    case 0 => RecordPromotion(p.decision)
    case 1 => WriteDraft(PersistedDraft(p.draft))
    case _ => UpsertNote(RowOfDraft(PersistedDraft(p.draft)))
  }

  function ProgramOp(p: Payload, chunker: Chunker, k: nat): Op
    requires k < 6 * |p.writes| + 3
  {
    if k < 6 * |p.writes| then WriteOp(Persisted(p.writes[k / 6]), chunker, k % 6)
    else TailOp(p, k - 6 * |p.writes|)
  }

  /** All port calls of an entry, between its claim and its completion. */
  function Program(p: Payload, chunker: Chunker): (ops: seq<Op>)
    ensures |ops| == 6 * |p.writes| + 3
    ensures forall k :: 0 <= k < |ops| ==> ops[k] == ProgramOp(p, chunker, k)
  {
    seq(6 * |p.writes| + 3, k requires 0 <= k < 6 * |p.writes| + 3 => ProgramOp(p, chunker, k))
  }

  /** Every note of the payload is written once and at a path of its own. */
  ghost predicate PayloadOk(p: Payload) {
    && (forall i, j :: 0 <= i < j < |p.writes| ==>
         p.writes[i].noteId != p.writes[j].noteId && p.writes[i].path != p.writes[j].path)
    && (forall i :: 0 <= i < |p.writes| ==> p.writes[i].noteId != p.draft.noteId)
  }

  lemma SameTarget(p: Payload, chunker: Chunker, i: nat, j: nat)
    requires PayloadOk(p) && i < j < 6 * |p.writes| + 3
    requires Target(ProgramOp(p, chunker, i)) == Target(ProgramOp(p, chunker, j))
    ensures j == i + 1 && j < 6 * |p.writes| && (i % 6 == 2 || i % 6 == 4)
  {
    if j < 6 * |p.writes| {
      assert i / 6 == j / 6;
    }
  }

  /** The port calls of a well-formed payload form a coherent program. */
  lemma ProgramCoherent(p: Payload, chunker: Chunker)
    requires PayloadOk(p) && GoodChunker(chunker)
    ensures Coherent(Program(p, chunker))
  {
    hide Target, ProgramOp, Coherent, LocallyCoherent, OwnChunks, GoodChunker;
    var ops := Program(p, chunker);
    forall i, j | 0 <= i < j < |ops| && Target(ops[i]) == Target(ops[j])
      ensures j == i + 1 && (i % 6 == 2 || i % 6 == 4) && j < 6 * |p.writes|
    {
      SameTarget(p, chunker, i, j);
    }
    forall j | 0 <= j < |ops| ensures LocallyCoherent(ops, j) {
      ProgramLocallyCoherent(p, chunker, j);
    }
    CoherentFromParts(p, chunker);
  }

  lemma CoherentFromParts(p: Payload, chunker: Chunker)
    requires forall i, j :: 0 <= i < j < 6 * |p.writes| + 3 ==>
               Target(Program(p, chunker)[i]) == Target(Program(p, chunker)[j]) ==>
               j == i + 1 && (i % 6 == 2 || i % 6 == 4) && j < 6 * |p.writes|
    requires forall j :: 0 <= j < 6 * |p.writes| + 3 ==> LocallyCoherent(Program(p, chunker), j)
    ensures Coherent(Program(p, chunker))
  {
    hide Target, RowOfNote, RowOfDraft, OwnChunks, Persisted, PersistedDraft;
    var ops := Program(p, chunker);
    forall i, j | 0 <= i < j < |ops| && Target(ops[i]) == Target(ops[j])
      ensures IsRemoval(ops[i]) && IsInsertion(ops[j])
    {
      assert ops[i] == ProgramOp(p, chunker, i);
      assert LocallyCoherent(ops, i);
    }
    forall j | 0 <= j < |ops|
      ensures OwnChunks(ops[j])
      ensures IsInsertion(ops[j]) ==> 0 < j && IsRemoval(ops[j - 1]) && Target(ops[j - 1]) == Target(ops[j])
      ensures IsRemoval(ops[j]) ==> j + 1 < |ops| && IsInsertion(ops[j + 1]) && Target(ops[j + 1]) == Target(ops[j])
      ensures ops[j].UpsertChunks? ==> 2 <= j && ops[j - 2].UpsertNote? && ops[j - 2].row.noteId == ops[j].noteId
    {
      assert LocallyCoherent(ops, j);
    }
  }

  ghost predicate LocallyCoherent(ops: seq<Op>, j: nat)
    requires j < |ops|
  {
    && OwnChunks(ops[j])
    && (IsInsertion(ops[j]) ==> 0 < j && IsRemoval(ops[j - 1]) && Target(ops[j - 1]) == Target(ops[j]))
    && (IsRemoval(ops[j]) ==> j + 1 < |ops| && IsInsertion(ops[j + 1]) && Target(ops[j + 1]) == Target(ops[j]))
    && (ops[j].UpsertChunks? ==> 2 <= j && ops[j - 2].UpsertNote? && ops[j - 2].row.noteId == ops[j].noteId)
  }

  lemma ProgramLocallyCoherent(p: Payload, chunker: Chunker, j: nat)
    requires GoodChunker(chunker) && j < 6 * |p.writes| + 3
    ensures LocallyCoherent(Program(p, chunker), j)
  {
    if j < 6 * |p.writes| {
      var note := Persisted(p.writes[j / 6]);
      assert ChunksOfNote(note, chunker(note));
      var k := j % 6;
      assert j == 6 * (j / 6) + k;
      if 0 < k {
        assert (j - 1) / 6 == j / 6 && (j - 1) % 6 == k - 1;
      }
      if 1 < k {
        assert (j - 2) / 6 == j / 6 && (j - 2) % 6 == k - 2;
      }
      if k < 5 {
        assert (j + 1) / 6 == j / 6 && (j + 1) % 6 == k + 1;
      }
    }
  }

  // ----- The outbox and its worker -----

  datatype OutboxRecord = OutboxRecord(entry: Entry, createdAt: int, payload: Payload)

  type Outbox = map<string, OutboxRecord>

  predicate Unfinished(outbox: Outbox, id: string) {
    id in outbox && !outbox[id].entry.state.Completed?
  }

  /** A listing of the oldest unfinished entries, at most `limit` of them. */
  ghost predicate Oldest(outbox: Outbox, ids: seq<string>, limit: nat) {
    && (forall i :: 0 <= i < |ids| ==> Unfinished(outbox, ids[i]))
    && (forall i, j :: 0 <= i < j < |ids| ==> ids[i] != ids[j] && outbox[ids[i]].createdAt <= outbox[ids[j]].createdAt)
    && |ids| <= limit
    && (forall id :: Unfinished(outbox, id) && id !in ids ==>
          |ids| == limit && forall i :: 0 <= i < |ids| ==> outbox[ids[i]].createdAt <= outbox[id].createdAt)
  }

  lemma RunPartStuck(ops: seq<Op>, stop: nat, later: nat, t: Tables)
    requires stop <= later <= |ops| && !RunPart(ops, 0, stop, t).ok
    ensures RunPart(ops, 0, later, t) == RunPart(ops, 0, stop, t)
  {
    if stop < later {
      RunPartStuck(ops, stop, later - 1, t);
      RunPartExtends(ops, 0, later - 1, t);
    }
  }

  /** A call threw: the tables are those of a run that ends where the fuse of `total` calls or the call itself failed.
     */
  ghost predicate BrokenAt(ops: seq<Op>, total: nat, start: Tables, t: Tables) {
    || (total <= |ops| && RunPart(ops, 0, total, start) == Outcome(t, true))
    || (exists stop :: 0 <= stop <= |ops| && stop <= total && RunPart(ops, 0, stop, start) == Outcome(t, false))
  }

  lemma BrokenIsFailedAttempt(ops: seq<Op>, total: nat, start: Tables, t: Tables, entry: Entry)
    requires BrokenAt(ops, total, start, t) && !entry.state.Completed?
    ensures Attempt(ops, Job(start, entry), FaultAfter(total)) == Job(t, Entry(Failed, entry.attempts + 1))
  {
    var end := if total >= |ops| then |ops| else total;
    if !(total <= |ops| && RunPart(ops, 0, total, start) == Outcome(t, true)) {
      var stop :| 0 <= stop <= |ops| && stop <= total && RunPart(ops, 0, stop, start) == Outcome(t, false);
      RunPartStuck(ops, stop, end, start);
    }
  }

  class PromotionWorker {
    var tables: Tables
    var outbox: Outbox
    /** How many further port calls succeed before one throws for reasons of its own. */
    var fuse: nat
    const chunker: Chunker

    constructor (tables: Tables, outbox: Outbox, chunker: Chunker)
      ensures this.tables == tables && this.outbox == outbox && this.chunker == chunker && fuse == 0
    {
      this.tables, this.outbox, this.chunker, this.fuse := tables, outbox, chunker, 0;
    }

    /** One port call. `ops`, `pc` and `start` say where in the entry's program it stands. */
    method Call(op: Op, ghost ops: seq<Op>, ghost pc: nat, ghost start: Tables) returns (ok: bool)
      requires pc < |ops| && ops[pc] == op && RunPart(ops, 0, pc, start) == Outcome(tables, true)
      modifies this`tables, this`fuse
      ensures ok ==> RunPart(ops, 0, pc + 1, start) == Outcome(tables, true) && fuse == old(fuse) - 1
      ensures ok ==> Apply(op, old(tables)) == Some(tables)
      ensures !ok ==> tables == old(tables) &&
                      (old(fuse) == 0 || RunPart(ops, 0, pc + 1, start) == Outcome(tables, false))
    {
      RunPartExtends(ops, 0, pc, start);
      if fuse == 0 {
        return false;
      }
      fuse := fuse - 1;
      match Apply(op, tables) {
        case None => return false;
        case Some(t) =>
          tables := t;
          return true;
      }
    }

    ghost predicate Reached(ops: seq<Op>, pc: nat, start: Tables)
      reads this
    {
      pc <= |ops| && RunPart(ops, 0, pc, start) == Outcome(tables, true)
    }

    ghost predicate Broken(ops: seq<Op>, total: nat, start: Tables)
      reads this
    {
      BrokenAt(ops, total, start, tables)
    }

    /** The file and the row of a canonical note. The record handed back is the one written, not what its file reads. */
    method WriteCanonicalNote(note: Note, ghost ops: seq<Op>, ghost pc: nat, ghost start: Tables)
      returns (ok: bool, persisted: Note)
      requires Reached(ops, pc, start) && pc + 2 <= |ops|
      requires ops[pc] == WriteFile(Persisted(note)) && ops[pc + 1] == UpsertNote(RowOfNote(Persisted(note)))
      modifies this`tables, this`fuse
      ensures persisted == Persisted(note)
      ensures ok ==> Reached(ops, pc + 2, start) && fuse == old(fuse) - 2
      ensures ok ==>
        tables == old(tables).(files := old(tables).files[persisted.path := persisted],
                               rows := old(tables).rows[persisted.noteId := RowOfNote(persisted)])
      ensures !ok ==> Broken(ops, pc + old(fuse), start)
    {
      persisted := Persisted(note);
      ok := Call(WriteFile(persisted), ops, pc, start);
      if ok {
        ok := Call(UpsertNote(RowOfNote(persisted)), ops, pc + 1, start);
      }
    }

    /** The chunk rows and the full-text rows of a note. */
    method SyncChunkState(noteId: string, chunks: seq<Chunk>, ghost ops: seq<Op>, ghost pc: nat, ghost start: Tables)
      returns (ok: bool)
      requires Reached(ops, pc, start) && pc + 4 <= |ops|
      requires ops[pc] == RemoveChunks(noteId) && ops[pc + 1] == UpsertChunks(noteId, chunks)
      requires ops[pc + 2] == RemoveFullText(noteId) && ops[pc + 3] == UpsertFullText(noteId, chunks)
      modifies this`tables, this`fuse
      ensures ok ==> Reached(ops, pc + 4, start) && fuse == old(fuse) - 4
      ensures !ok ==> Broken(ops, pc + old(fuse), start)
    {
      ok := Call(RemoveChunks(noteId), ops, pc, start);
      if ok {
        ok := Call(UpsertChunks(noteId, chunks), ops, pc + 1, start);
      }
      if ok {
        ok := Call(RemoveFullText(noteId), ops, pc + 2, start);
      }
      if ok {
        ok := Call(UpsertFullText(noteId, chunks), ops, pc + 3, start);
      }
    }

    /** Moves an unfinished entry to `processing`; a completed or unknown one is not claimed. */
    method ClaimPromotionOutboxEntry(id: string) returns (claimed: Option<OutboxRecord>)
      modifies this`outbox
      ensures Unfinished(old(outbox), id) ==>
                && outbox == old(outbox)[id :=
                     old(outbox)[id].(entry := Entry(Processing, old(outbox)[id].entry.attempts + 1))]
                && claimed == Some(outbox[id])
      ensures !Unfinished(old(outbox), id) ==> outbox == old(outbox) && claimed.None?
    {
      if !Unfinished(outbox, id) {
        return None;
      }
      outbox := outbox[id := outbox[id].(entry := Entry(Processing, outbox[id].entry.attempts + 1))];
      return Some(outbox[id]);
    }

    method SetEntryState(id: string, state: EntryState)
      requires id in outbox
      modifies this`outbox
      ensures outbox == old(outbox)[id := old(outbox)[id].(entry := old(outbox)[id].entry.(state := state))]
    {
      outbox := outbox[id := outbox[id].(entry := outbox[id].entry.(state := state))];
    }

    /** One canonical write with its chunks. */
    method ReplayWrite(note: Note, ghost ops: seq<Op>, ghost pc: nat, ghost start: Tables)
      returns (ok: bool, chunks: seq<Chunk>)
      requires Reached(ops, pc, start) && WritesAt(ops, pc, Persisted(note), chunker)
      modifies this`tables, this`fuse
      ensures ok ==> Reached(ops, pc + 6, start) && fuse == old(fuse) - 6 && chunks == chunker(Persisted(note))
      ensures !ok ==> Broken(ops, pc + old(fuse), start)
    {
      hide RunPart, RowOfNote, BrokenAt;
      chunks := [];
      var persisted;
      ok, persisted := WriteCanonicalNote(note, ops, pc, start);
      if ok {
        chunks := chunker(persisted);
        ok := SyncChunkState(persisted.noteId, chunks, ops, pc + 2, start);
      }
    }

    /** The canonical writes one after the other, then the event and the draft. */
    method ReplayPayload(payload: Payload) returns (ok: bool, promotedChunks: seq<Chunk>)
      modifies this`tables, this`fuse
      ensures ok ==> Reached(Program(payload, chunker), 6 * |payload.writes| + 3, old(tables)) &&
                     old(fuse) == 6 * |payload.writes| + 3 + fuse
      ensures !ok ==> Broken(Program(payload, chunker), old(fuse), old(tables))
      ensures ok ==> IsPromoted(payload, chunker, |payload.writes|, promotedChunks)
    {
      hide RunPart, RowOfNote, RowOfDraft, BrokenAt, IsPromoted, Program, ProgramOp;
      var writes := payload.writes;
      ghost var ops := Program(payload, chunker);
      ghost var start, total := tables, fuse;
      ok, promotedChunks := true, [];
      var i := 0;
      RunPartNothing(ops, start);
      NothingPromoted(payload, chunker);
      while i < |writes|
        invariant 0 <= i <= |writes|
        invariant Reached(ops, 6 * i, start) && total == 6 * i + fuse
        invariant IsPromoted(payload, chunker, i, promotedChunks)
      {
        WriteOpsAt(payload, chunker, i);
        var chunks;
        ok, chunks := ReplayWrite(writes[i], ops, 6 * i, start);
        if !ok {
          return;
        }
        ghost var before := promotedChunks;
        if writes[i].noteId == payload.decision.canonicalId {
          promotedChunks := chunks;
        }
        PromotedStep(payload, chunker, i, before, promotedChunks);
        i := i + 1;
      }
      TailOpsAt(payload, chunker);
      ok := FinishPromotion(payload, ops, 6 * |writes|, start);
    }

    /** The promotion event, the draft file and the draft row. */
    method FinishPromotion(payload: Payload, ghost ops: seq<Op>, ghost pc: nat, ghost start: Tables) returns (ok: bool)
      requires Reached(ops, pc, start) && pc + 3 <= |ops|
      requires ops[pc] == TailOp(payload, 0) && ops[pc + 1] == TailOp(payload, 1) && ops[pc + 2] == TailOp(payload, 2)
      modifies this`tables, this`fuse
      ensures ok ==> Reached(ops, pc + 3, start) && fuse == old(fuse) - 3
      ensures !ok ==> Broken(ops, pc + old(fuse), start)
    {
      ok := Call(RecordPromotion(payload.decision), ops, pc, start);
      if ok {
        ok := Call(WriteDraft(PersistedDraft(payload.draft)), ops, pc + 1, start);
      }
      if ok {
        ok := Call(UpsertNote(RowOfDraft(PersistedDraft(payload.draft))), ops, pc + 2, start);
      }
    }

    /** Claims the entry, replays its port calls and completes it; a call that throws marks it as failed.
        The outcome is the attempt that CrashConvergence speaks of. */
    method ProcessPromotionOutboxEntry(id: string) returns (ok: bool, promotedChunks: seq<Chunk>)
      modifies this
      ensures !Unfinished(old(outbox), id) ==> !ok && outbox == old(outbox) && tables == old(tables)
      ensures Unfinished(old(outbox), id) ==>
                var record := old(outbox)[id];
                var job := Attempt(Program(record.payload, chunker), Job(old(tables), record.entry),
                    FaultAfter(old(fuse)));
                && outbox == old(outbox)[id := record.(entry := job.entry)]
                && tables == job.tables
                && job.entry == Entry(if ok then Completed else Failed, record.entry.attempts + 1)
                && (ok ==> IsPromoted(record.payload, chunker, |record.payload.writes|, promotedChunks))
    {
      hide RunPart, Program, BrokenAt, Attempt;
      promotedChunks := [];
      var claimed := ClaimPromotionOutboxEntry(id);
      if claimed.None? {
        return false, promotedChunks;
      }
      ghost var start, total := tables, fuse;
      ok, promotedChunks := ReplayPayload(claimed.value.payload);
      // Completing the entry is a port call too, and it can throw.
      ghost var ops := Program(claimed.value.payload, chunker);
      if ok {
        ReachedIsAttempt(ops, total, start, tables, old(outbox[id].entry));
        ok := fuse > 0;
      } else {
        BrokenIsFailedAttempt(ops, total, start, tables, old(outbox[id].entry));
      }
      SetEntryState(id, if ok then Completed else Failed);
    }
  }

  /** The chunks are those of the last of the first n writes that writes the canonical note. */
  ghost predicate IsPromoted(payload: Payload, chunker: Chunker, n: nat, chunks: seq<Chunk>)
    requires n <= |payload.writes|
  {
    forall k :: 0 <= k < n && payload.writes[k].noteId == payload.decision.canonicalId ==>
      chunks == chunker(Persisted(payload.writes[k])) ||
      exists j :: k < j < n && payload.writes[j].noteId == payload.decision.canonicalId
  }

  lemma PromotedStep(payload: Payload, chunker: Chunker, i: nat, before: seq<Chunk>, after: seq<Chunk>)
    requires i < |payload.writes| && IsPromoted(payload, chunker, i, before)
    requires after == if payload.writes[i].noteId == payload.decision.canonicalId
                      then chunker(Persisted(payload.writes[i])) else before
    ensures IsPromoted(payload, chunker, i + 1, after)
  {
    forall k | 0 <= k < i + 1 && payload.writes[k].noteId == payload.decision.canonicalId
      ensures after == chunker(Persisted(payload.writes[k])) ||
              exists j :: k < j < i + 1 && payload.writes[j].noteId == payload.decision.canonicalId
    {
      if k < i && after != chunker(Persisted(payload.writes[k])) &&
         payload.writes[i].noteId != payload.decision.canonicalId {
        var j :| k < j < i && payload.writes[j].noteId == payload.decision.canonicalId;
        assert k < j < i + 1;
      }
    }
  }

  lemma NothingPromoted(payload: Payload, chunker: Chunker)
    ensures IsPromoted(payload, chunker, 0, [])
  {
  }

  lemma RunPartNothing(ops: seq<Op>, t: Tables)
    ensures RunPart(ops, 0, 0, t) == Outcome(t, true)
  {
  }

  lemma ReachedIsAttempt(ops: seq<Op>, total: nat, start: Tables, t: Tables, entry: Entry)
    requires RunPart(ops, 0, |ops|, start) == Outcome(t, true) && |ops| <= total && !entry.state.Completed?
    ensures Attempt(ops, Job(start, entry), FaultAfter(total)) ==
              Job(t, Entry(if |ops| < total then Completed else Failed, entry.attempts + 1))
  {
  }

  lemma TailOpsAt(p: Payload, chunker: Chunker)
    ensures forall k :: 0 <= k < 3 ==> Program(p, chunker)[6 * |p.writes| + k] == TailOp(p, k)
  {
  }

  /** The six calls of a canonical write stand at pc. */
  ghost predicate WritesAt(ops: seq<Op>, pc: nat, note: Note, chunker: Chunker) {
    && pc + 6 <= |ops|
    && ops[pc] == WriteOp(note, chunker, 0) && ops[pc + 1] == WriteOp(note, chunker, 1)
    && ops[pc + 2] == WriteOp(note, chunker, 2) && ops[pc + 3] == WriteOp(note, chunker, 3)
    && ops[pc + 4] == WriteOp(note, chunker, 4) && ops[pc + 5] == WriteOp(note, chunker, 5)
  }

  lemma WriteOpsAt(p: Payload, chunker: Chunker, i: nat)
    requires i < |p.writes|
    ensures WritesAt(Program(p, chunker), 6 * i, Persisted(p.writes[i]), chunker)
  {
    forall k | 0 <= k < 6
      ensures Program(p, chunker)[6 * i + k] == WriteOp(Persisted(p.writes[i]), chunker, k)
    {
      assert (6 * i + k) / 6 == i && (6 * i + k) % 6 == k;
    }
    assert Program(p, chunker)[6 * i + 0] == WriteOp(Persisted(p.writes[i]), chunker, 0);
  }
}
