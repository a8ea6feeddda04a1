/** Whole serial runs: what every vault that they reach has in common, and what its indexes hold. */
module VaultRuns {
  import opened Domain
  import opened Keys
  import opened Planning
  import opened Promotion
  import opened PromotionEffects
  import opened Reading
  import opened Replay
  import opened SerialRuns
  import opened Stores
  import opened Supersession
  import opened Text
  import opened VaultNotes

  function RunActions(v: Vault, actions: seq<Action>, chunker: Chunker): Vault
    decreases |actions|
  {
    if actions == [] then v else RunActions(Act(v, actions[0], chunker), actions[1..], chunker)
  }

  ghost predicate AllowedRun(v: Vault, actions: seq<Action>, chunker: Chunker)
    decreases |actions|
  {
    actions == [] || (Allowed(v.tables, actions[0]) && AllowedRun(Act(v, actions[0], chunker), actions[1..], chunker))
  }

  /** What a caller can check before a promotion: the draft, as its file reads, has plain keys. */
  predicate PlainStep(t: Tables, action: Action) {
    action.Promote? && action.request.asCurrent ==>
      var draft := FindDraft(t.drafts, action.draw.staging, action.request.draftId);
      draft.Some? ==> PlainKeys(draft.value.frontmatter)
  }

  predicate PlainRun(v: Vault, actions: seq<Action>, chunker: Chunker)
    decreases |actions|
  {
    actions == [] || (PlainStep(v.tables, actions[0]) && PlainRun(Act(v, actions[0], chunker), actions[1..], chunker))
  }

  /** A promotion of a draft with plain keys leaves one current note per key. */
  lemma PlainPromotionKeepsOneCurrent(v: Vault, chunker: Chunker, req: Request, draw: Draw)
    requires Ready(v, chunker, req, draw) && OneCurrent(CardsOf(v.tables.files)) &&
               PlainStep(v.tables, Promote(req, draw))
    ensures OneCurrent(CardsOf(Act(v, Promote(req, draw), chunker).tables.files))
  {
    hide Plan, Act, VaultInv, Allowed, GoodChunker, OneCurrent, CardsOf, FindDraft, PlainKeys, KeyOf, KeyAsRead;
    var e := PlanWrites(v.tables, req, draw);
    HasDraft(v.tables, req, draw, e);
    PromotionKeepsOneCurrentIff(v, chunker, req, draw, e.draft);
    KeySurvivesIff(req.corpusId, e.draft.frontmatter);
  }

  lemma HasDraft(t: Tables, req: Request, draw: Draw, e: Effect)
    requires IsEffect(t, req, draw, e)
    ensures FindDraft(t.drafts, draw.staging, req.draftId) == Some(e.draft)
  {
  }

  lemma ActKeepsInv(v: Vault, chunker: Chunker, action: Action)
    requires GoodChunker(chunker) && VaultInv(v, chunker) && Allowed(v.tables, action)
    ensures VaultInv(Act(v, action, chunker), chunker)
    ensures OneCurrent(CardsOf(v.tables.files)) && PlainStep(v.tables, action) ==>
              OneCurrent(CardsOf(Act(v, action, chunker).tables.files))
  {
    hide Plan, VaultInv, GoodChunker, FreshName, ListingOk, OneCurrent, CardsOf, PlainStep, Run, Program, StoredDraft;
    match action
    case CreateDraft(draft) => CreateDraftKeepsInv(v, chunker, draft);
    case EditDraft(draft) => EditDraftKeepsInv(v, chunker, draft);
    case Promote(req, draw) =>
      if Plan(v.tables, req, draw).Some? {
        PromoteKeepsInv(v, chunker, req, draw);
        if OneCurrent(CardsOf(v.tables.files)) && PlainStep(v.tables, action) {
          PlainPromotionKeepsOneCurrent(v, chunker, req, draw);
        }
      }
  }

  lemma {:induction false} RunsKeepInv(v: Vault, actions: seq<Action>, chunker: Chunker)
    requires GoodChunker(chunker) && VaultInv(v, chunker) && AllowedRun(v, actions, chunker)
    ensures VaultInv(RunActions(v, actions, chunker), chunker)
    ensures OneCurrent(CardsOf(v.tables.files)) && PlainRun(v, actions, chunker) ==>
              OneCurrent(CardsOf(RunActions(v, actions, chunker).tables.files))
    decreases |actions|
  {
    hide VaultInv, Act, Allowed, GoodChunker, OneCurrent, CardsOf, PlainStep;
    if actions != [] {
      ActKeepsInv(v, chunker, actions[0]);
      RunsKeepInv(Act(v, actions[0], chunker), actions[1..], chunker);
    }
  }

  lemma EmptyVaultInv(chunker: Chunker)
    ensures VaultInv(EmptyVault, chunker) && OneCurrent(CardsOf(EmptyVault.tables.files))
  {
    hide InsertChunks, CardOf, FileOk, WellKept, Conflict, DraftOk, InSync, IsSnapshotPath, IsHeir, IsThere;
    assert CardsOf(EmptyVault.tables.files) == map[];
  }

  /** Over every serial run, whatever the texts hold: every canonical file can be read, `supersededBy` and `supersedes`
      mirror each other and lead to later notes, and rows and indexes are those of the records last written. If no
      promoted draft has a key with escapes or an untrimmed project, no two current notes share a key. */
  lemma {:induction false} SerialRunInvariant(actions: seq<Action>, chunker: Chunker)
    requires GoodChunker(chunker) && AllowedRun(EmptyVault, actions, chunker)
    ensures var v := RunActions(EmptyVault, actions, chunker);
            && FilesOk(v.tables.files) && CardsOf(v.tables.files).Keys == v.tables.files.Keys
            && RelationInv(CardsOf(v.tables.files), v.born, v.clock)
            && IndexInv(v.tables, chunker) && RowsInv(v.tables.rows)
            && (PlainRun(EmptyVault, actions, chunker) ==> OneCurrent(CardsOf(v.tables.files)))
  {
    hide GoodChunker, OneCurrent, RelationInv, FilesOk, IndexInv, RowsInv, DraftsInv, RunActions, AllowedRun,
         PlainRun, CardsOf;
    EmptyVaultInv(chunker);
    RunsKeepInv(EmptyVault, actions, chunker);
    CardsCover(RunActions(EmptyVault, actions, chunker).tables.files);
  }

  // ----- What the invariant means for the indexes -----

  lemma InsertedMember(chunks: seq<Chunk>, c: ChunkId)
    requires c in InsertChunks(map[], chunks)
    ensures InsertChunks(map[], chunks)[c] in chunks && InsertChunks(map[], chunks)[c].id == c
  {
  }

  lemma FullTextMember(table: seq<Chunk>, id: string, c: Chunk)
    ensures c in FullTextOf(table, id) <==> c in table && c.noteId == id
  {
  }

  /** An indexed chunk, in either index, is a chunk of the stored file of its note. */
  lemma IndexedChunkHasFile(t: Tables, chunker: Chunker, c: Chunk) returns (p: string)
    requires IndexInv(t, chunker) && GoodChunker(chunker)
    requires c in t.fullText || (c.id in t.chunks && t.chunks[c.id] == c)
    ensures p in t.files && t.files[p].noteId == c.noteId && c in chunker(t.files[p])
    ensures InSync(t, chunker, t.files[p])
  {
    hide RowOfNote, InsertChunks, FullTextOf, GoodChunker;
    var id := c.noteId;
    FullTextMember(t.fullText, id, c);
    assert c in t.fullText || c.id in ChunksOf(t.chunks, id);
    assert View(t, ChunkCell(id)) == ChunksAre(ChunksOf(t.chunks, id));
    assert View(t, FullTextCell(id)) == FullTextIs(FullTextOf(t.fullText, id));
    if NoFileOf(t.files, id) {
      assert false;
    }
    p :| p in t.files && t.files[p].noteId == id;
    assert InSync(t, chunker, t.files[p]);
    if c !in t.fullText {
      assert c.id in ChunksOf(t.chunks, id);
      InsertedMember(chunker(t.files[p]), c.id);
    }
  }

  /** Chunk rows and full-text rows hold the same chunks, those of chunking the stored files. */
  lemma {:induction false} IndexesAgree(v: Vault, chunker: Chunker, c: Chunk)
    requires VaultInv(v, chunker) && GoodChunker(chunker)
    ensures c in v.tables.fullText <==> c.id in v.tables.chunks && v.tables.chunks[c.id] == c
    ensures c in v.tables.fullText <==>
            exists p :: p in v.tables.files && v.tables.files[p].noteId == c.noteId && c in chunker(v.tables.files[p])
  {
    hide FilesOk, RelationInv, RowsInv, DraftsInv, IndexInv, InSync, RowOfNote, GoodChunker, FullTextOf, InsertChunks,
         ChunksOf;
    var t := v.tables;
    if c in t.fullText || (c.id in t.chunks && t.chunks[c.id] == c) {
      var p := IndexedChunkHasFile(t, chunker, c);
    }
    if p :| p in t.files && t.files[p].noteId == c.noteId && c in chunker(t.files[p]) {
      FileChunkIsIndexed(t, chunker, p, c);
    }
  }

  lemma FileChunkIsIndexed(t: Tables, chunker: Chunker, p: string, c: Chunk)
    requires IndexInv(t, chunker) && GoodChunker(chunker) && p in t.files && c in chunker(t.files[p])
    ensures c in t.fullText && c.id in t.chunks && t.chunks[c.id] == c
  {
    hide RowOfNote, GoodChunker;
    var note := t.files[p];
    ChunkOfNote(chunker, note, c);
    assert InSync(t, chunker, note);
    FullTextMember(t.fullText, note.noteId, c);
    InsertedHolds(chunker(note), c);
    assert c.id in ChunksOf(t.chunks, note.noteId);
  }

  lemma ChunkOfNote(chunker: Chunker, note: Note, c: Chunk)
    requires GoodChunker(chunker) && c in chunker(note)
    ensures c.noteId == note.noteId && ChunksOfNote(note, chunker(note))
    ensures c.staleness.Superseded? <==> note.frontmatter.status == STATUS_SUPERSEDED
  {
    assert ChunksOfNote(note, chunker(note));
  }

  lemma InsertedHolds(chunks: seq<Chunk>, c: Chunk)
    requires c in chunks && forall i, j :: 0 <= i < j < |chunks| ==> chunks[i].id != chunks[j].id
    ensures c.id in InsertChunks(map[], chunks) && InsertChunks(map[], chunks)[c.id] == c
  {
    var last := chunks[|chunks| - 1];
    if c != last {
      assert c in chunks[..|chunks| - 1];
      InsertedHolds(chunks[..|chunks| - 1], c);
    }
  }

  /** The rows that a full-text search may return: matching rows of the asked corpora and types. */
  predicate Hit(table: seq<Chunk>, c: Chunk, matches: Chunk -> bool, corpora: set<string>, types: set<string>,
                includeSuperseded: bool) {
    && c in table && matches(c) && c.corpusId in corpora
    && (types != {} ==> c.noteType in types)
    && (includeSuperseded || !c.staleness.Superseded?)
  }

  lemma SupersededAsRead(files: Files, p: string)
    requires FilesOk(files) && p in files
    ensures p in CardsOf(files) && CardsOf(files)[p].superseded == (files[p].frontmatter.status == STATUS_SUPERSEDED)
  {
    hide Sound, KeyOf, IsSnapshotId, IsSnapshotPath, StartsWith;
    assert FileOk(p, files[p]);
    CardAsRead(files[p]);
  }

  /** A search that does not ask for superseded notes returns only chunks of notes that are not superseded,
      and loses no matching chunk of such a note. */
  lemma {:induction false} SearchSkipsExactlySuperseded(v: Vault, chunker: Chunker, c: Chunk,
      matches: Chunk -> bool, corpora: set<string>, types: set<string>)
    requires VaultInv(v, chunker) && GoodChunker(chunker)
    requires Hit(v.tables.fullText, c, matches, corpora, types, true)
    ensures Hit(v.tables.fullText, c, matches, corpora, types, false) <==>
            exists p :: p in CardsOf(v.tables.files) && CardsOf(v.tables.files)[p].noteId == c.noteId
                        && !CardsOf(v.tables.files)[p].superseded
  {
    hide RowsInv, DraftsInv, IndexInv, InSync, GoodChunker, Mirror, Closed, Ranked, CardsOf, FilesOk;
    var p := IndexedChunkHasFile(v.tables, chunker, c);
    ChunkOfNote(chunker, v.tables.files[p], c);
    CardsCover(v.tables.files);
    SupersededAsRead(v.tables.files, p);
  }
}
