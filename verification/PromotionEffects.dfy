/** What the tables hold after an entry has been replayed without interruption. */
module PromotionEffects {
  import opened Text
  import opened Domain
  import opened Stores
  import opened Replay
  import opened Promotion

  /** The cell belongs to one of the canonical writes, at program position 6 * i + k. */
  lemma WriteGoal(p: Payload, chunker: Chunker, i: nat, k: nat)
    requires PayloadOk(p) && GoodChunker(chunker) && i < |p.writes| && k < 6 && k != 2 && k != 4
    ensures var op := WriteOp(Persisted(p.writes[i]), chunker, k);
            Pending(Program(p, chunker), 0, Target(op)) && Goal(Program(p, chunker), Target(op)) == Settled(op)
  {
    hide Goal, Settled, Target, RowOfNote, RowOfDraft, Coherent;
    var ops := Program(p, chunker);
    ProgramCoherent(p, chunker);
    assert (6 * i + k) / 6 == i && (6 * i + k) % 6 == k;
    assert ops[6 * i + k] == WriteOp(Persisted(p.writes[i]), chunker, k);
    GoalIs(ops, 6 * i + k);
  }

  lemma TailGoal(p: Payload, chunker: Chunker, k: nat)
    requires PayloadOk(p) && GoodChunker(chunker) && k < 3
    ensures Pending(Program(p, chunker), 0, Target(TailOp(p, k)))
    ensures Goal(Program(p, chunker), Target(TailOp(p, k))) == Settled(TailOp(p, k))
  {
    hide Goal, Settled, Target, RowOfNote, RowOfDraft, Coherent;
    var ops := Program(p, chunker);
    ProgramCoherent(p, chunker);
    assert ops[6 * |p.writes| + k] == TailOp(p, k);
    GoalIs(ops, 6 * |p.writes| + k);
  }

  /** The cells that the entry writes. */
  ghost predicate Writes(p: Payload, c: Cell) {
    match c
    case FileCell(path) => exists i :: 0 <= i < |p.writes| && p.writes[i].path == path
    case RowCell(id) => id == p.draft.noteId || exists i :: 0 <= i < |p.writes| && p.writes[i].noteId == id
    case ChunkCell(id) => exists i :: 0 <= i < |p.writes| && p.writes[i].noteId == id
    case FullTextCell(id) => exists i :: 0 <= i < |p.writes| && p.writes[i].noteId == id
    case EventCell(id) => id == p.decision.eventId
    case DraftCell(path) => path == p.draft.path
  }

  lemma OpWrites(p: Payload, chunker: Chunker, j: nat)
    requires j < 6 * |p.writes| + 3
    ensures Writes(p, Target(ProgramOp(p, chunker, j)))
  {
    if j < 6 * |p.writes| {
      var i := j / 6;
      assert 0 <= i < |p.writes| && p.writes[i].noteId == Persisted(p.writes[i]).noteId;
    }
  }

  lemma PendingIsWrite(p: Payload, chunker: Chunker, c: Cell)
    requires Pending(Program(p, chunker), 0, c)
    ensures Writes(p, c)
  {
    hide Target, ProgramOp, Writes;
    var ops := Program(p, chunker);
    var j :| 0 <= j < |ops| && Target(ops[j]) == c;
    OpWrites(p, chunker, j);
  }

  /** The tables after the entry: every note of the payload filed, rowed and indexed, everything else as before. */
  ghost predicate Filed(p: Payload, chunker: Chunker, t: Tables, t': Tables) {
    && KeyedTable(t'.chunks)
    && (forall i :: 0 <= i < |p.writes| ==>
          var note := Persisted(p.writes[i]);
          && View(t', FileCell(note.path)) == FileIs(note)
          && View(t', RowCell(note.noteId)) == RowIs(RowOfNote(note))
          && View(t', ChunkCell(note.noteId)) == ChunksAre(InsertChunks(map[], chunker(note)))
          && View(t', FullTextCell(note.noteId)) == FullTextIs(chunker(note)))
    && View(t', RowCell(p.draft.noteId)) == RowIs(RowOfDraft(PersistedDraft(p.draft)))
    && View(t', DraftCell(p.draft.path)) == DraftIs(PersistedDraft(p.draft))
    && View(t', EventCell(p.decision.eventId)) == EventIs(p.decision)
    && (forall c: Cell {:trigger View(t', c)} :: !Writes(p, c) ==> View(t', c) == View(t, c))
  }

  /** An uninterrupted replay files the payload. */
  lemma {:induction false} ReplayFiles(p: Payload, chunker: Chunker, t: Tables)
    requires PayloadOk(p) && GoodChunker(chunker) && KeyedTable(t.chunks)
    requires Admissible(Program(p, chunker), t.rows)
    ensures Run(Program(p, chunker), t).ok
    ensures Filed(p, chunker, t, Run(Program(p, chunker), t).tables)
  {
    hide View, Goal, Coherent, Admissible, Run, Writes, Pending, Program, GoodChunker, PayloadOk;
    var ops := Program(p, chunker);
    ProgramCoherent(p, chunker);
    RunResult(ops, t);
    var t' := Run(ops, t).tables;
    forall i | 0 <= i < |p.writes|
      ensures var note := Persisted(p.writes[i]);
        && View(t', FileCell(note.path)) == FileIs(note)
        && View(t', RowCell(note.noteId)) == RowIs(RowOfNote(note))
        && View(t', ChunkCell(note.noteId)) == ChunksAre(InsertChunks(map[], chunker(note)))
        && View(t', FullTextCell(note.noteId)) == FullTextIs(chunker(note))
    {
      WriteGoal(p, chunker, i, 0);
      WriteGoal(p, chunker, i, 1);
      WriteGoal(p, chunker, i, 3);
      WriteGoal(p, chunker, i, 5);
    }
    TailGoal(p, chunker, 0);
    TailGoal(p, chunker, 1);
    TailGoal(p, chunker, 2);
    forall c: Cell | !Writes(p, c) ensures View(t', c) == View(t, c) {
      if Pending(ops, 0, c) {
        PendingIsWrite(p, chunker, c);
      }
    }
  }

  /** The policy and path conditions of a payload, without its program. */
  ghost predicate Fits(p: Payload, rows: map<string, NoteRow>) {
    && (forall i :: 0 <= i < |p.writes| ==> CorpusPolicy(Persisted(p.writes[i])))
    && (forall i :: 0 <= i < |p.writes| ==> p.writes[i].path != p.draft.path)
    && (forall i, id :: 0 <= i < |p.writes| && id in rows && id != p.writes[i].noteId ==>
         rows[id].path != p.writes[i].path)
    && (forall id :: id in rows && id != p.draft.noteId ==> rows[id].path != p.draft.path)
  }

  lemma FittingIsAdmissible(p: Payload, chunker: Chunker, rows: map<string, NoteRow>)
    requires PayloadOk(p) && Fits(p, rows)
    ensures Admissible(Program(p, chunker), rows)
  {
    hide CorpusPolicy, Touched, Persisted, PersistedDraft;
    var ops := Program(p, chunker);
    forall j | 0 <= j < |ops| && ops[j].UpsertNote? ensures UpsertAt(p, ops, j) {
      UpsertPosition(p, chunker, j);
    }
    forall j | 0 <= j < |ops| && ops[j].WriteFile? ensures CorpusPolicy(ops[j].note) {
      assert ops[j] == ProgramOp(p, chunker, j);
    }
    forall i, j | 0 <= i < j < |ops| && ops[i].UpsertNote? && ops[j].UpsertNote?
      ensures ops[i].row.path != ops[j].row.path
    {
      assert UpsertAt(p, ops, i) && UpsertAt(p, ops, j);
    }
    forall j, id | 0 <= j < |ops| && ops[j].UpsertNote? && id in rows
      ensures id == ops[j].row.noteId || Touched(ops, j, RowCell(id)) || rows[id].path != ops[j].row.path
    {
      assert UpsertAt(p, ops, j);
    }
  }

  /** Where a row is written, and what of it matters for paths. */
  ghost predicate UpsertAt(p: Payload, ops: seq<Op>, j: nat)
    requires j < |ops| && ops[j].UpsertNote?
  {
    if j < 6 * |p.writes|
    then j / 6 < |p.writes| && j == 6 * (j / 6) + 1
         && ops[j].row.noteId == p.writes[j / 6].noteId && ops[j].row.path == p.writes[j / 6].path
    else j == 6 * |p.writes| + 2 && ops[j].row.noteId == p.draft.noteId && ops[j].row.path == p.draft.path
  }

  lemma UpsertPosition(p: Payload, chunker: Chunker, j: nat)
    requires j < 6 * |p.writes| + 3 && Program(p, chunker)[j].UpsertNote?
    ensures UpsertAt(p, Program(p, chunker), j)
  {
    assert Program(p, chunker)[j] == ProgramOp(p, chunker, j);
  }

  // ----- Filed, read table by table -----

  lemma RowWhenFiled(p: Payload, chunker: Chunker, t: Tables, t': Tables, i: nat)
    requires Filed(p, chunker, t, t') && i < |p.writes|
    ensures p.writes[i].noteId in t'.rows && t'.rows[p.writes[i].noteId] == RowOfNote(Persisted(p.writes[i]))
  {
    hide RowOfNote, RowOfDraft, InsertChunks, Writes;
    assert View(t', RowCell(p.writes[i].noteId)) == RowIs(RowOfNote(Persisted(p.writes[i])));
  }

  lemma DraftWhenFiled(p: Payload, chunker: Chunker, t: Tables, t': Tables)
    requires Filed(p, chunker, t, t')
    ensures p.draft.noteId in t'.rows && t'.rows[p.draft.noteId] == RowOfDraft(PersistedDraft(p.draft))
    ensures p.draft.path in t'.drafts && t'.drafts[p.draft.path] == PersistedDraft(p.draft)
  {
    hide RowOfNote, RowOfDraft, InsertChunks, Writes;
  }

  lemma OtherRowWhenFiled(p: Payload, chunker: Chunker, t: Tables, t': Tables, id: string)
    requires Filed(p, chunker, t, t')
    requires id != p.draft.noteId && forall i :: 0 <= i < |p.writes| ==> p.writes[i].noteId != id
    ensures id in t'.rows <==> id in t.rows
    ensures id in t.rows ==> t'.rows[id] == t.rows[id]
  {
    hide RowOfNote, RowOfDraft, InsertChunks;
    assert !Writes(p, RowCell(id));
    assert View(t', RowCell(id)) == View(t, RowCell(id));
  }

  lemma OtherDraftWhenFiled(p: Payload, chunker: Chunker, t: Tables, t': Tables, path: string)
    requires Filed(p, chunker, t, t') && path != p.draft.path
    ensures path in t'.drafts <==> path in t.drafts
    ensures path in t.drafts ==> t'.drafts[path] == t.drafts[path]
  {
    hide RowOfNote, RowOfDraft, InsertChunks;
    assert !Writes(p, DraftCell(path));
    assert View(t', DraftCell(path)) == View(t, DraftCell(path));
  }

  lemma OtherFileWhenFiled(p: Payload, chunker: Chunker, t: Tables, t': Tables, path: string)
    requires Filed(p, chunker, t, t') && forall i :: 0 <= i < |p.writes| ==> p.writes[i].path != path
    ensures path in t'.files <==> path in t.files
    ensures path in t.files ==> t'.files[path] == t.files[path]
  {
    hide RowOfNote, RowOfDraft, InsertChunks;
    assert !Writes(p, FileCell(path));
    assert View(t', FileCell(path)) == View(t, FileCell(path));
  }

  lemma OtherNoteWhenFiled(p: Payload, chunker: Chunker, t: Tables, t': Tables, id: string)
    requires Filed(p, chunker, t, t') && forall i :: 0 <= i < |p.writes| ==> p.writes[i].noteId != id
    ensures id != p.draft.noteId ==> View(t', RowCell(id)) == View(t, RowCell(id))
    ensures View(t', ChunkCell(id)) == View(t, ChunkCell(id)) && View(t', FullTextCell(id)) == View(t, FullTextCell(id))
  {
    hide RowOfNote, RowOfDraft, InsertChunks, View;
    assert id != p.draft.noteId ==> !Writes(p, RowCell(id));
    assert !Writes(p, ChunkCell(id)) && !Writes(p, FullTextCell(id));
  }

  lemma RowOfNotePath(note: Note)
    ensures RowOfNote(note).path == note.path && RowOfNote(note).noteId == note.noteId
  {
  }

  lemma RowOfDraftPath(d: Draft)
    ensures RowOfDraft(d).path == d.path && RowOfDraft(d).noteId == d.noteId
  {
  }

  /** A row after the entry: written by it, or an old one. */
  lemma RowAfter(t: Tables, chunker: Chunker, p: Payload, t': Tables, id: string)
    requires Filed(p, chunker, t, t')
    ensures (id in t'.rows && id == p.draft.noteId && t'.rows[id].path == p.draft.path)
            || (id in t'.rows
                && exists i :: 0 <= i < |p.writes| && p.writes[i].noteId == id && p.writes[i].path == t'.rows[id].path)
            || ((id in t'.rows <==> id in t.rows) && (id in t.rows ==> t'.rows[id] == t.rows[id]))
  {
    hide Filed, RowOfNote, RowOfDraft;
    if i :| 0 <= i < |p.writes| && p.writes[i].noteId == id {
      RowWhenFiled(p, chunker, t, t', i);
      RowOfNotePath(Persisted(p.writes[i]));
    } else if id == p.draft.noteId {
      DraftWhenFiled(p, chunker, t, t');
      RowOfDraftPath(PersistedDraft(p.draft));
    } else {
      OtherRowWhenFiled(p, chunker, t, t', id);
    }
  }

  lemma FiledIsKeyed(p: Payload, chunker: Chunker, t: Tables, t': Tables)
    requires Filed(p, chunker, t, t')
    ensures KeyedTable(t'.chunks)
  {
  }
}
