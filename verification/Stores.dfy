/** The stores a promotion writes to, and its port calls, each one atomic:
    canonical files, note rows, chunk rows, full-text rows, promotion events and draft files. */
module Stores {
  import opened Text
  import opened Domain

  datatype NoteRow = NoteRow(
    noteId: string,
    corpusId: string,
    path: string,
    noteType: string,
    lifecycle: string,
    updated: string,
    currentState: bool,
    validFrom: Option<string>,
    validUntil: Option<string>,
    summary: string,
    scope: string,
    tags: set<string>,
    contentHash: Option<string>,
    semanticSignature: Option<(string, string, string)>)

  datatype Decision = Decision(
    eventId: string,
    draftId: string,
    canonicalId: string,
    supersededIds: seq<string>,
    promotedAt: string)

  /** A file is kept as the record whose text it holds; what a reader of that text sees is in module Reading.
      Full-text rows have no key, so they are kept as the list of inserted rows. */
  datatype Tables = Tables(
    files: map<string, Note>,
    rows: map<string, NoteRow>,
    chunks: map<ChunkId, Chunk>,
    fullText: seq<Chunk>,
    events: map<string, Decision>,
    drafts: map<string, Draft>)

  /** One port call of the promotion path. */
  datatype Op =
    | WriteFile(note: Note)
    | UpsertNote(row: NoteRow)
    | RemoveChunks(noteId: string)
    | UpsertChunks(noteId: string, chunks: seq<Chunk>)
    | RemoveFullText(noteId: string)
    | UpsertFullText(noteId: string, chunks: seq<Chunk>)
    | RecordPromotion(decision: Decision)
    | WriteDraft(draft: Draft)

  /** What a canonical write must respect: notes stay under their corpus root,
      and general notes are never current. */
  predicate CorpusPolicy(note: Note) {
    && StartsWith(note.path, note.corpusId + "/")
    && (note.corpusId == GENERAL_NOTES ==>
          !note.frontmatter.currentState && TAG_CURRENT !in note.frontmatter.tags)
  }

  /** The row breaks the UNIQUE constraint on note paths. */
  predicate PathTaken(rows: map<string, NoteRow>, row: NoteRow) {
    exists id :: id in rows && id != row.noteId && rows[id].path == row.path
  }

  function InsertChunks(table: map<ChunkId, Chunk>, chunks: seq<Chunk>): map<ChunkId, Chunk> {
    if chunks == [] then table
    else
      var last := chunks[|chunks| - 1];
      InsertChunks(table, chunks[..|chunks| - 1])[last.id := last]
  }

  function ChunksWithout(table: map<ChunkId, Chunk>, noteId: string): map<ChunkId, Chunk> {
    map c | c in table && table[c].noteId != noteId :: table[c]
  }

  function WithoutNote(table: seq<Chunk>, noteId: string): (t: seq<Chunk>)
    ensures forall c :: c in t <==> c in table && c.noteId != noteId
  {
    if table == [] then []
    else (if table[0].noteId == noteId then [] else [table[0]]) + WithoutNote(table[1..], noteId)
  }

  /** The effect of one port call; None when it throws, which rolls it back. */
  function Apply(op: Op, t: Tables): (r: Option<Tables>) {
    match op
    case WriteFile(note) =>
      if CorpusPolicy(note) then Some(t.(files := t.files[note.path := note])) else None
    case UpsertNote(row) =>
      if PathTaken(t.rows, row) then None else Some(t.(rows := t.rows[row.noteId := row]))
    case RemoveChunks(id) =>
      Some(t.(chunks := ChunksWithout(t.chunks, id)))
    case UpsertChunks(id, chunks) =>
      if chunks != [] && id !in t.rows then None
      else Some(t.(chunks := InsertChunks(t.chunks, chunks)))
    case RemoveFullText(id) =>
      Some(t.(fullText := WithoutNote(t.fullText, id)))
    case UpsertFullText(id, chunks) =>
      if chunks == [] then Some(t)
      else Some(t.(fullText := WithoutNote(t.fullText, id) + chunks))
    case RecordPromotion(decision) =>
      Some(t.(events := t.events[decision.eventId := decision]))
    case WriteDraft(draft) =>
      Some(t.(drafts := t.drafts[draft.path := draft]))
  }

  /** A canonical file is written exactly when it lies below the directory of its corpus, and general notes neither are
      nor call themselves current. */
  lemma WriteIsAllowedIff(note: Note, t: Tables)
    ensures Apply(WriteFile(note), t).Some? <==>
            && |note.path| > |note.corpusId| && note.path[..|note.corpusId|] == note.corpusId
            && note.path[|note.corpusId|] == '/'
            && (note.corpusId == "general_notes" ==>
                 !note.frontmatter.currentState && "status/current" !in note.frontmatter.tags)
  {
    var root, n := note.corpusId + "/", |note.corpusId|;
    assert root[..n] == note.corpusId && root[n] == '/';
    if |note.path| > n {
      assert note.path[..n + 1] == note.path[..n] + [note.path[n]];
      assert note.path[..n + 1][..n] == note.path[..n];
    }
  }

  /** The other calls that throw: a row under a path of another note, and chunks without a row for their note. Handing
      no chunks at all to an index changes nothing. */
  lemma CallThrowsIff(op: Op, t: Tables)
    ensures op.UpsertNote? ==>
              (Apply(op, t).None? <==>
                exists id :: id in t.rows && id != op.row.noteId && t.rows[id].path == op.row.path)
    ensures op.UpsertChunks? ==> (Apply(op, t).None? <==> op.chunks != [] && op.noteId !in t.rows)
    ensures !op.WriteFile? && !op.UpsertNote? && !op.UpsertChunks? ==> Apply(op, t).Some?
    ensures (op.UpsertChunks? || op.UpsertFullText?) && op.chunks == [] ==> Apply(op, t) == Some(t)
  {
    if op.UpsertChunks? && op.chunks == [] {
      assert InsertChunks(t.chunks, []) == t.chunks;
    }
  }

  // ----- Cells: the smallest parts of the tables that one call can change -----

  datatype Cell =
    | FileCell(path: string)
    | RowCell(noteId: string)
    | ChunkCell(noteId: string)
    | FullTextCell(noteId: string)
    | EventCell(eventId: string)
    | DraftCell(path: string)

  datatype Content =
    | Absent
    | FileIs(note: Note)
    | RowIs(row: NoteRow)
    | ChunksAre(table: map<ChunkId, Chunk>)
    | FullTextIs(list: seq<Chunk>)
    | EventIs(decision: Decision)
    | DraftIs(draft: Draft)

  function ChunksOf(table: map<ChunkId, Chunk>, noteId: string): map<ChunkId, Chunk> {
    map c | c in table && table[c].noteId == noteId :: table[c]
  }

  function FullTextOf(table: seq<Chunk>, noteId: string): seq<Chunk> {
    if table == [] then []
    else (if table[0].noteId == noteId then [table[0]] else []) + FullTextOf(table[1..], noteId)
  }

  function View(t: Tables, c: Cell): Content {
    match c
    case FileCell(path) => if path in t.files then FileIs(t.files[path]) else Absent
    case RowCell(id) => if id in t.rows then RowIs(t.rows[id]) else Absent
    case ChunkCell(id) => ChunksAre(ChunksOf(t.chunks, id))
    case FullTextCell(id) => FullTextIs(FullTextOf(t.fullText, id))
    case EventCell(id) => if id in t.events then EventIs(t.events[id]) else Absent
    case DraftCell(path) => if path in t.drafts then DraftIs(t.drafts[path]) else Absent
  }

  /** The same files, rows, chunk rows, events and drafts, and for every note the same full-text rows. */
  ghost predicate SameTables(a: Tables, b: Tables) {
    forall c :: View(a, c) == View(b, c)
  }

  lemma SameTablesMeansEqualTables(a: Tables, b: Tables)
    requires SameTables(a, b)
    ensures a.files == b.files && a.rows == b.rows && a.chunks == b.chunks
    ensures a.events == b.events && a.drafts == b.drafts
    ensures forall id :: FullTextOf(a.fullText, id) == FullTextOf(b.fullText, id)
  {
    forall p ensures (p in a.files <==> p in b.files) && (p in a.files ==> a.files[p] == b.files[p]) {
      assert View(a, FileCell(p)) == View(b, FileCell(p));
    }
    forall p ensures (p in a.rows <==> p in b.rows) && (p in a.rows ==> a.rows[p] == b.rows[p]) {
      assert View(a, RowCell(p)) == View(b, RowCell(p));
    }
    forall p ensures (p in a.events <==> p in b.events) && (p in a.events ==> a.events[p] == b.events[p]) {
      assert View(a, EventCell(p)) == View(b, EventCell(p));
    }
    forall p ensures (p in a.drafts <==> p in b.drafts) && (p in a.drafts ==> a.drafts[p] == b.drafts[p]) {
      assert View(a, DraftCell(p)) == View(b, DraftCell(p));
    }
    forall c | c in a.chunks || c in b.chunks
      ensures c in a.chunks && c in b.chunks && a.chunks[c] == b.chunks[c]
    {
      var id := if c in a.chunks then a.chunks[c].noteId else b.chunks[c].noteId;
      assert View(a, ChunkCell(id)) == View(b, ChunkCell(id));
      assert c in ChunksOf(a.chunks, id) || c in ChunksOf(b.chunks, id);
    }
    forall id ensures FullTextOf(a.fullText, id) == FullTextOf(b.fullText, id) {
      assert View(a, FullTextCell(id)) == View(b, FullTextCell(id));
    }
  }

  function Target(op: Op): Cell {
    match op
    case WriteFile(note) => FileCell(note.path)
    case UpsertNote(row) => RowCell(row.noteId)
    case RemoveChunks(id) => ChunkCell(id)
    case UpsertChunks(id, _) => ChunkCell(id)
    case RemoveFullText(id) => FullTextCell(id)
    case UpsertFullText(id, _) => FullTextCell(id)
    case RecordPromotion(decision) => EventCell(decision.eventId)
    case WriteDraft(draft) => DraftCell(draft.path)
  }

  /** What the call is meant to leave in its cell. */
  function Settled(op: Op): Content {
    match op
    case WriteFile(note) => FileIs(note)
    case UpsertNote(row) => RowIs(row)
    case RemoveChunks(_) => ChunksAre(map[])
    case UpsertChunks(_, chunks) => ChunksAre(InsertChunks(map[], chunks))
    case RemoveFullText(_) => FullTextIs([])
    case UpsertFullText(_, chunks) => FullTextIs(chunks)
    case RecordPromotion(decision) => EventIs(decision)
    case WriteDraft(draft) => DraftIs(draft)
  }

  predicate IsRemoval(op: Op) {
    op.RemoveChunks? || op.RemoveFullText?
  }

  predicate IsInsertion(op: Op) {
    op.UpsertChunks? || op.UpsertFullText?
  }

  predicate IsCleared(content: Content) {
    content == ChunksAre(map[]) || content == FullTextIs([])
  }

  /** Inserted chunks belong to the note the call names. */
  predicate OwnChunks(op: Op) {
    IsInsertion(op) ==>
      && (forall i :: 0 <= i < |op.chunks| ==> op.chunks[i].noteId == op.noteId && op.chunks[i].id.noteId == op.noteId)
      && (forall i, j :: 0 <= i < j < |op.chunks| ==> op.chunks[i].id != op.chunks[j].id)
  }

  /** Chunk rows are stored under ids that carry their note's id. */
  ghost predicate KeyedTable(table: map<ChunkId, Chunk>) {
    forall c :: c in table ==> table[c].noteId == c.noteId
  }

  lemma InsertChunksMerges(table: map<ChunkId, Chunk>, chunks: seq<Chunk>)
    ensures InsertChunks(table, chunks) == table + InsertChunks(map[], chunks)
  {
    if chunks != [] {
      InsertChunksMerges(table, chunks[..|chunks| - 1]);
    }
  }

  /** The chunks of one note, alone in a table. */
  lemma InsertedChunksOwned(id: string, chunks: seq<Chunk>)
    requires OwnChunks(UpsertChunks(id, chunks))
    ensures forall c :: c in InsertChunks(map[], chunks) ==> InsertChunks(map[], chunks)[c].noteId == c.noteId == id
  {
    if chunks != [] {
      InsertedChunksOwned(id, chunks[..|chunks| - 1]);
    }
  }

  /** Rows of other notes stay; rows of this note are the given chunks if there were none before or these. */
  lemma InsertChunksView(table: map<ChunkId, Chunk>, id: string, chunks: seq<Chunk>)
    requires KeyedTable(table) && OwnChunks(UpsertChunks(id, chunks))
    ensures KeyedTable(InsertChunks(table, chunks))
    ensures forall other :: other != id ==> ChunksOf(InsertChunks(table, chunks), other) == ChunksOf(table, other)
    ensures ChunksOf(table, id) == map[] || ChunksOf(table, id) == InsertChunks(map[], chunks) ==>
              ChunksOf(InsertChunks(table, chunks), id) == InsertChunks(map[], chunks)
  {
    var alone := InsertChunks(map[], chunks);
    InsertChunksMerges(table, chunks);
    InsertedChunksOwned(id, chunks);
    forall other | other != id ensures ChunksOf(table + alone, other) == ChunksOf(table, other) {
    }
    if ChunksOf(table, id) == map[] || ChunksOf(table, id) == alone {
      forall c | c in table && c.noteId == id ensures c in alone {
        assert c in ChunksOf(table, id);
      }
    }
  }

  lemma RemoveChunksView(table: map<ChunkId, Chunk>, id: string)
    ensures forall other ::
              ChunksOf(ChunksWithout(table, id), other) == if other == id then map[] else ChunksOf(table, other)
  {
    forall other
      ensures ChunksOf(ChunksWithout(table, id), other) == if other == id then map[] else ChunksOf(table, other)
    {
    }
  }

  lemma FullTextOfAppend(a: seq<Chunk>, b: seq<Chunk>, id: string)
    ensures FullTextOf(a + b, id) == FullTextOf(a, id) + FullTextOf(b, id)
  {
    if a == [] {
      assert a + b == b;
    } else {
      assert (a + b)[1..] == a[1..] + b;
    }
  }

  lemma FullTextOfOwn(chunks: seq<Chunk>, id: string, other: string)
    requires forall i :: 0 <= i < |chunks| ==> chunks[i].noteId == id
    ensures FullTextOf(chunks, other) == if other == id then chunks else []
  {
    if chunks != [] {
      FullTextOfOwn(chunks[1..], id, other);
    }
  }

  lemma FullTextOfWithout(table: seq<Chunk>, id: string, other: string)
    ensures FullTextOf(WithoutNote(table, id), other) == if other == id then [] else FullTextOf(table, other)
  {
    if table != [] {
      FullTextOfAppend(if table[0].noteId == id then [] else [table[0]], WithoutNote(table[1..], id), other);
    }
  }

  lemma UpsertFullTextView(table: seq<Chunk>, id: string, chunks: seq<Chunk>, other: string)
    requires forall i :: 0 <= i < |chunks| ==> chunks[i].noteId == id
    ensures FullTextOf(WithoutNote(table, id) + chunks, other) ==
            if other == id then chunks else FullTextOf(table, other)
  {
    FullTextOfWithout(table, id, other);
    FullTextOfOwn(chunks, id, other);
    FullTextOfAppend(WithoutNote(table, id), chunks, other);
  }

  lemma ApplyKeepsKeys(op: Op, t: Tables)
    requires OwnChunks(op) && KeyedTable(t.chunks)
    requires Apply(op, t).Some?
    ensures KeyedTable(Apply(op, t).value.chunks)
  {
    if op.UpsertChunks? {
      InsertChunksView(t.chunks, op.noteId, op.chunks);
    }
  }

  /** A port call changes no cell but its own. */
  lemma ApplyFrame(op: Op, t: Tables, c: Cell)
    requires OwnChunks(op) && KeyedTable(t.chunks)
    requires Apply(op, t).Some? && c != Target(op)
    ensures View(Apply(op, t).value, c) == View(t, c)
  {
    match op {
      case RemoveChunks(id) => RemoveChunksView(t.chunks, id);
      case UpsertChunks(id, chunks) => InsertChunksView(t.chunks, id, chunks);
      case RemoveFullText(id) =>
        if c.FullTextCell? { FullTextOfWithout(t.fullText, id, c.noteId); }
      case UpsertFullText(id, chunks) =>
        if c.FullTextCell? { UpsertFullTextView(t.fullText, id, chunks, c.noteId); }
      case _ =>
    }
  }

  /** A port call leaves in its cell what it is meant to leave;
      an insertion does so when the cell was cleared before or already held it. */
  lemma ApplyTarget(op: Op, t: Tables)
    requires OwnChunks(op) && KeyedTable(t.chunks)
    requires Apply(op, t).Some?
    requires IsInsertion(op) ==> IsCleared(View(t, Target(op))) || View(t, Target(op)) == Settled(op)
    ensures View(Apply(op, t).value, Target(op)) == Settled(op)
  {
    match op {
      case RemoveChunks(id) => RemoveChunksView(t.chunks, id);
      case UpsertChunks(id, chunks) => InsertChunksView(t.chunks, id, chunks);
      case RemoveFullText(id) => FullTextOfWithout(t.fullText, id, id);
      case UpsertFullText(id, chunks) => UpsertFullTextView(t.fullText, id, chunks, id);
      case _ =>
    }
  }
}
