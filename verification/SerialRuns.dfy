/** Serial runs: drafts are written and promotions planned and processed to their end, one after the other. */
module SerialRuns {
  import opened Domain
  import opened FrontmatterRoundTrip
  import opened Keys
  import opened Planning
  import opened Promotion
  import opened PromotionEffects
  import opened Reading
  import opened Replay
  import opened Stores
  import opened Supersession
  import opened Text
  import opened VaultNotes

  /** `born` numbers the promotions in the order in which they happened. */
  datatype Vault = Vault(tables: Tables, born: map<string, nat>, clock: nat)

  datatype Action =
    | CreateDraft(draft: Draft)
    | EditDraft(draft: Draft)
    | Promote(request: Request, draw: Draw)

  const EmptyVault := Vault(Tables(map[], map[], map[], [], map[], map[]), map[], 0)

  /** The draft service stores what the validator hands back. */
  function StoredDraft(d: Draft): Draft {
    PersistedDraft(d.(lifecycle := STATUS_DRAFT, frontmatter := Normalized(d.frontmatter, d.frontmatter.tags)))
  }

  /** A draft is created by the draft service, edited by hand in its file, or promoted. */
  function Act(v: Vault, action: Action, chunker: Chunker): Vault {
    match action
    case CreateDraft(draft) =>
      var d := StoredDraft(draft);
      v.(tables := v.tables.(drafts := v.tables.drafts[d.path := d], rows := v.tables.rows[d.noteId := RowOfDraft(d)]))
    case EditDraft(draft) =>
      v.(tables := v.tables.(drafts := v.tables.drafts[draft.path := draft]))
    case Promote(req, draw) =>
      match Plan(v.tables, req, draw)
      case None => v
      case Some(payload) =>
        Vault(Run(Program(payload, chunker), v.tables).tables, v.born[draw.noteId := v.clock], v.clock + 1)
  }

  /** New ids are fresh plain words, default paths are fresh, an edit leaves the id alone, and the listing is that of
      the corpus directory. */
  ghost predicate Allowed(t: Tables, action: Action) {
    match action
    case CreateDraft(d) => FreshName(t, d.noteId, d.path)
    case EditDraft(d) =>
      d.path in t.drafts && t.drafts[d.path].noteId == d.noteId == d.frontmatter.noteId
    case Promote(req, draw) =>
      && FreshName(t, draw.noteId, draw.path) && Plain(draw.today)
      && IsCorpus(req.corpusId) && StartsWith(draw.path, req.corpusId + "/")
      && ListingOk(t.files, req.corpusId, draw.listing)
  }

  ghost predicate FreshName(t: Tables, id: string, path: string) {
    && Plain(id) && id !in t.rows && !IsSnapshotId(id) && !IsSnapshotPath(path)
    && path !in t.files && path !in t.drafts
    && forall other :: other in t.rows ==> t.rows[other].path != path
  }

  ghost predicate ListingOk(files: Files, corpusId: string, listing: seq<string>) {
    && (forall p :: p in listing <==> p in files && StartsWith(p, corpusId + "/"))
    && (forall i, j :: 0 <= i < j < |listing| ==> listing[i] != listing[j])
  }

  // ----- The invariant -----

  ghost predicate RowsInv(rows: map<string, NoteRow>) {
    && (forall id :: id in rows ==>
         rows[id].noteId == id && (IsSnapshotPath(rows[id].path) ==> id == SnapshotId(rows[id].path)))
    && (forall a, b :: a in rows && b in rows && rows[a].path == rows[b].path ==> a == b)
  }

  /** A draft has its own row and path, and never the id of a canonical note. */
  ghost predicate DraftOk(t: Tables, p: string)
    requires p in t.drafts
  {
    var d := t.drafts[p];
    && d.path == p && d.frontmatter.noteId == d.noteId && Plain(d.noteId)
    && d.noteId in t.rows && t.rows[d.noteId].path == p
    && !IsSnapshotPath(p) && !IsSnapshotId(d.noteId)
    && NoFileOf(t.files, d.noteId)
  }

  ghost predicate DraftsInv(t: Tables) {
    forall p :: p in t.drafts ==> DraftOk(t, p)
  }

  /** The row, the chunk rows and the full-text rows of a note are those of the record last written to its file. */
  ghost predicate InSync(t: Tables, chunker: Chunker, note: Note) {
    && View(t, RowCell(note.noteId)) == RowIs(RowOfNote(note))
    && View(t, ChunkCell(note.noteId)) == ChunksAre(InsertChunks(map[], chunker(note)))
    && View(t, FullTextCell(note.noteId)) == FullTextIs(chunker(note))
  }

  ghost predicate NoFileOf(files: Files, id: string) {
    forall p :: p in files ==> files[p].noteId != id
  }

  ghost predicate IndexInv(t: Tables, chunker: Chunker) {
    && (forall p :: p in t.files ==> InSync(t, chunker, t.files[p]))
    && (forall id :: NoFileOf(t.files, id) ==>
          View(t, ChunkCell(id)) == ChunksAre(map[]) && View(t, FullTextCell(id)) == FullTextIs([]))
  }

  ghost predicate VaultInv(v: Vault, chunker: Chunker) {
    && FilesOk(v.tables.files) && RelationInv(CardsOf(v.tables.files), v.born, v.clock)
    && RowsInv(v.tables.rows) && DraftsInv(v.tables) && IndexInv(v.tables, chunker)
    && KeyedTable(v.tables.chunks)
  }

  /** A promotion of a sound vault that is planned to its end. */
  ghost predicate Ready(v: Vault, chunker: Chunker, req: Request, draw: Draw) {
    VaultInv(v, chunker) && GoodChunker(chunker) && Allowed(v.tables, Promote(req, draw)) &&
        Plan(v.tables, req, draw).Some?
  }

  // ----- What a plan writes -----

  /** The draft as read, the paths of the notes found, and the notes newly written. */
  datatype Effect = Effect(draft: Draft, found: seq<string>, canonical: Note, snapshot: Option<Note>)

  ghost predicate IsEffect(t: Tables, req: Request, draw: Draw, e: Effect) {
    && FindDraft(t.drafts, draw.staging, req.draftId) == Some(e.draft)
    && e.found == (if req.asCurrent then FindSuperseded(t.files, draw.listing, e.draft.frontmatter) else [])
    && e.canonical == CanonicalNote(req, draw, e.draft, IdsOf(NotesAt(t.files, e.found)))
    && e.snapshot == (if req.asCurrent then Some(SnapshotNote(e.canonical)) else None)
  }

  ghost predicate PlansTo(t: Tables, req: Request, draw: Draw, e: Effect, p: Payload)
    requires IsEffect(t, req, draw, e)
  {
    && p.writes == Retire(NotesAt(t.files, e.found), draw.noteId, draw.today) + [e.canonical]
                   + (if e.snapshot.Some? then [e.snapshot.value] else [])
    && p.draft.noteId == e.draft.noteId && p.draft.path == e.draft.path
    && (req.asCurrent ==> req.corpusId == CONTEXT_BRAIN)
  }

  lemma CanonicalParts(req: Request, draw: Draw, draft: Draft, ids: seq<string>)
    ensures var note := CanonicalNote(req, draw, draft, ids);
            && note.frontmatter.updated == draw.today && note.noteId == draw.noteId
            && note.corpusId == req.corpusId && note.path == draw.path && note.body == draft.body
  {
  }

  lemma PlanWrites(t: Tables, req: Request, draw: Draw) returns (e: Effect)
    requires Plan(t, req, draw).Some?
    ensures IsEffect(t, req, draw, e) && PlansTo(t, req, draw, e, Plan(t, req, draw).value)
  {
    hide ReadNote, ReadDraft, CanonicalNote, SnapshotNote, FindDraft, FindSuperseded, ExactDuplicate, Retire,
         Listable, CanRead, NotesAt;
    var draft := FindDraft(t.drafts, draw.staging, req.draftId).value;
    var found := if req.asCurrent then FindSuperseded(t.files, draw.listing, draft.frontmatter) else [];
    NothingAt(t.files);
    var canonical := CanonicalNote(req, draw, draft, IdsOf(NotesAt(t.files, found)));
    e := Effect(draft, found, canonical, if req.asCurrent then Some(SnapshotNote(canonical)) else None);
    if req.asCurrent {
      assert PrepareSnapshot(canonical).Some?;
      CanonicalParts(req, draw, draft, IdsOf(NotesAt(t.files, found)));
    }
    assert Retire(NotesAt(t.files, found), draw.noteId, draw.today) + [canonical] + [] ==
           Retire(NotesAt(t.files, found), draw.noteId, draw.today) + [canonical];
  }

  lemma NothingAt(files: Files)
    ensures NotesAt(files, []) == []
  {
  }

  ghost function ChangeOf(e: Effect): Change {
    Change(e.canonical.path, WrittenCard(e.canonical), (set q | q in e.found),
           if e.snapshot.Some? then e.snapshot.value.path else "",
           if e.snapshot.Some? then Some(WrittenCard(e.snapshot.value)) else None)
  }

  ghost predicate IsNew(t: Tables, note: Note) {
    Writable(note) && FreshName(t, note.noteId, note.path)
  }

  predicate IsSnapshot(note: Note) {
    Writable(note) && IsSnapshotPath(note.path) && note.noteId == SnapshotId(note.path)
  }

  ghost predicate AllRewrite(files: Files, e: Effect, writes: seq<Note>)
    requires |e.found| <= |writes|
  {
    forall i :: 0 <= i < |e.found| ==> Rewrites(files, e.found[i], writes[i], e.canonical.noteId)
  }

  /** A payload planned on these tables, write by write: the predecessors, the new note, its snapshot. */
  ghost predicate Planned(t: Tables, p: Payload, e: Effect) {
    var n := |e.found|;
    && |p.writes| == n + (if e.snapshot.Some? then 2 else 1)
    && AllRewrite(t.files, e, p.writes)
    && (forall i, j :: 0 <= i < j < n ==> e.found[i] != e.found[j])
    && p.writes[n] == e.canonical && IsNew(t, e.canonical)
    && (e.snapshot.Some? ==> p.writes[n + 1] == e.snapshot.value && IsSnapshot(e.snapshot.value))
    && p.draft.noteId == e.draft.noteId
    && p.draft.path in t.drafts && t.drafts[p.draft.path].noteId == p.draft.noteId
  }

  lemma FileHasRow(t: Tables, chunker: Chunker, p: string)
    requires IndexInv(t, chunker) && p in t.files
    ensures t.files[p].noteId in t.rows && t.rows[t.files[p].noteId] == RowOfNote(t.files[p])
  {
    hide RowOfNote, InsertChunks, ChunksOf, FullTextOf;
    assert InSync(t, chunker, t.files[p]);
  }

  /** The cards of sound files, one for each. */
  lemma CardsCover(files: Files)
    requires FilesOk(files)
    ensures CardsOf(files).Keys == files.Keys
    ensures forall p :: p in files ==>
              && CardsOf(files)[p].noteId == files[p].noteId
              && CardsOf(files)[p].isSnapshot == IsSnapshotId(files[p].noteId)
              && CardsOf(files)[p].key.corpusId == files[p].corpusId
  {
    hide ReadNote, Sound, IsSnapshotId, IsSnapshotPath;
    forall p | p in files
      ensures ReadNote(files[p]).Some? && SamePlace(ReadNote(files[p]).value, files[p])
    {
      assert FileOk(p, files[p]);
      SoundIsRead(files[p]);
    }
  }

  lemma FoundAreReadable(files: Files, req: Request, draw: Draw, e: Effect, t: Tables, i: nat)
    requires t.files == files && FilesOk(files) && IsEffect(t, req, draw, e) && i < |e.found|
    ensures CanRead(files, e.found[i]) && Matches(NoteAt(files, e.found[i]), e.draft.frontmatter)
    ensures Plain(NotesAt(files, e.found)[i].noteId)
  {
    hide FindDraft, ReadNote, CanonicalNote, SnapshotNote, Sound, Matches;
    assert e.found[i] in e.found;
    assert FileOk(e.found[i], files[e.found[i]]);
    SoundIsRead(files[e.found[i]]);
    SoundWords(NoteAt(files, e.found[i]));
    SoundId(NoteAt(files, e.found[i]));
  }

  lemma SoundId(note: Note)
    requires Sound(note)
    ensures note.frontmatter.noteId == note.noteId
  {
  }

  /** The cards of the notes newly written. */
  ghost predicate NewCards(files: Files, req: Request, draw: Draw, e: Effect)
    requires forall q :: q in e.found ==> CanRead(files, q)
  {
    && WrittenCard(e.canonical) == Card(draw.noteId, false, req.asCurrent, false, None,
         SetOf(IdsOf(NotesAt(files, e.found))), KeyAsRead(req.corpusId, e.draft.frontmatter))
    && (e.snapshot.Some? ==>
          var card := WrittenCard(e.snapshot.value);
          card == Card(e.snapshot.value.noteId, true, false, false, None, {}, card.key))
  }

  lemma FoundAreRewritten(t: Tables, req: Request, draw: Draw, e: Effect, p: Payload)
    requires FilesOk(t.files) && Shape(CardsOf(t.files)) && Plain(draw.noteId) && Plain(draw.today)
    requires IsEffect(t, req, draw, e) && PlansTo(t, req, draw, e, p)
    ensures e.canonical.noteId == draw.noteId && AllRewrite(t.files, e, p.writes)
    ensures AllPlain(IdsOf(NotesAt(t.files, e.found)))
  {
    hide CardsOf, Sound, Plain, FindDraft, FindSuperseded, Matches, SnapshotNote, SupersededNote, Rewrites, CanRead,
         NoteAt, Shape, FilesOk;
    var ids := IdsOf(NotesAt(t.files, e.found));
    CanonicalParts(req, draw, e.draft, ids);
    forall i | 0 <= i < |e.found| ensures Rewrites(t.files, e.found[i], p.writes[i], draw.noteId) && Plain(ids[i]) {
      FoundAreReadable(t.files, req, draw, e, t, i);
      RetiredWrite(t.files, e.draft.frontmatter, e.found[i], draw.noteId, draw.today);
    }
  }

  lemma NewAreWritten(t: Tables, req: Request, draw: Draw, e: Effect, p: Payload)
    requires IsEffect(t, req, draw, e) && PlansTo(t, req, draw, e, p) && AllPlain(IdsOf(NotesAt(t.files, e.found)))
    requires Readable(e.draft.frontmatter) && Allowed(t, Promote(req, draw))
    ensures NewCards(t.files, req, draw, e) && IsNew(t, e.canonical)
    ensures e.snapshot.Some? ==> IsSnapshot(e.snapshot.value)
  {
    hide CardsOf, WrittenCard, Writable, Sound, KeyAsRead, Plain, Readable, FindDraft, FindSuperseded, SnapshotNote,
         CanonicalNote, ListingOk, CanRead, NoteAt, IsSnapshotPath, IsSnapshotId, StartsWith;
    var ids := IdsOf(NotesAt(t.files, e.found));
    CanonicalWrite(req, draw, e.draft, ids);
    if req.asCurrent {
      CanonicalIsSound(req, draw, e.draft, ids);
      CanonicalParts(req, draw, e.draft, ids);
      SnapshotWrite(e.canonical);
    }
  }

  lemma WritesInOrder(t: Tables, req: Request, draw: Draw, e: Effect, p: Payload)
    requires IsEffect(t, req, draw, e) && PlansTo(t, req, draw, e, p)
    ensures var n := |e.found|;
            && |p.writes| == n + (if e.snapshot.Some? then 2 else 1)
            && p.writes[n] == e.canonical && (e.snapshot.Some? ==> p.writes[n + 1] == e.snapshot.value)
            && p.draft.noteId == e.draft.noteId && p.draft.path == e.draft.path
            && FindDraft(t.drafts, draw.staging, req.draftId) == Some(e.draft)
  {
    hide FindDraft, FindSuperseded, CanonicalNote, SnapshotNote, CanRead;
  }

  lemma PlanIsPlannedAt(t: Tables, req: Request, draw: Draw, e: Effect, p: Payload)
    requires FilesOk(t.files) && Shape(CardsOf(t.files)) && DraftsInv(t) && Allowed(t, Promote(req, draw))
    requires IsEffect(t, req, draw, e) && PlansTo(t, req, draw, e, p)
    ensures Planned(t, p, e) && NewCards(t.files, req, draw, e)
  {
    hide IsEffect, PlansTo, DraftsInv, CardsOf, Readable, Plain, NewCards, IsNew, IsSnapshot, FindDraft, Shape,
         FilesOk, AllRewrite, Allowed, IdsOf, NotesAt, ListingOk;
    WritesInOrder(t, req, draw, e, p);
    AllowedParts(t, req, draw);
    DraftIsKnown(t, draw.staging, req.draftId);
    FoundAreRewritten(t, req, draw, e, p);
    NewAreWritten(t, req, draw, e, p);
    FoundAreDistinct(t, req, draw, e);
  }

  /** What a promotion plans: each predecessor marked at its own path, one fresh note, and the snapshot at its own
      place. */
  lemma PlanIsPlanned(v: Vault, chunker: Chunker, req: Request, draw: Draw) returns (e: Effect)
    requires VaultInv(v, chunker) && Allowed(v.tables, Promote(req, draw)) && Plan(v.tables, req, draw).Some?
    ensures IsEffect(v.tables, req, draw, e) && Planned(v.tables, Plan(v.tables, req, draw).value, e)
    ensures NewCards(v.tables.files, req, draw, e)
  {
    hide Plan, IsEffect, PlansTo, Mirror, Closed, Ranked, RowsInv, IndexInv, DraftsInv, CardsOf, NewCards, Shape,
         FilesOk, Allowed, KeyedTable, Planned;
    e := PlanWrites(v.tables, req, draw);
    PlanIsPlannedAt(v.tables, req, draw, e, Plan(v.tables, req, draw).value);
  }

  lemma AllowedParts(t: Tables, req: Request, draw: Draw)
    requires Allowed(t, Promote(req, draw))
    ensures Plain(draw.noteId) && Plain(draw.today) && ListingOk(t.files, req.corpusId, draw.listing)
  {
    hide Plain, ListingOk, IsSnapshotId, IsSnapshotPath, StartsWith;
  }

  /** The draft found is one of the vault, under its own id. */
  lemma DraftIsKnown(t: Tables, order: seq<string>, id: string)
    requires DraftsInv(t) && FindDraft(t.drafts, order, id).Some?
    ensures var draft := FindDraft(t.drafts, order, id).value;
            && Readable(draft.frontmatter)
            && draft.path in t.drafts && t.drafts[draft.path].noteId == draft.noteId
  {
    hide FindDraft, Readable, Plain, NoFileOf, IsSnapshotId, IsSnapshotPath, ReadDraft;
    var path := FoundDraftIsReadable(t.drafts, order, id);
    assert DraftOk(t, path);
    DraftId(t.drafts[path], FindDraft(t.drafts, order, id).value);
  }

  lemma FoundAreDistinct(t: Tables, req: Request, draw: Draw, e: Effect)
    requires IsEffect(t, req, draw, e) && ListingOk(t.files, req.corpusId, draw.listing)
    ensures forall i, j :: 0 <= i < j < |e.found| ==> e.found[i] != e.found[j]
  {
    hide CanonicalNote, SnapshotNote, FindDraft;
  }

  lemma DraftId(draft: Draft, found: Draft)
    requires ReadDraft(draft) == Some(found) && draft.frontmatter.noteId == draft.noteId && Plain(draft.noteId)
    ensures found.noteId == draft.noteId && found.path == draft.path
  {
    hide ReadDraft, Readable, Plain, BodyAsRead;
    DraftAsRead(draft);
    PlainIsKept(draft.noteId);
  }

  /** The ids that the new note names as its predecessors are those of the notes it replaces. */
  lemma IdsAreReplaced(files: Files, found: seq<string>, id: string)
    requires forall q :: q in found ==> CanRead(files, q)
    ensures id in IdsOf(NotesAt(files, found)) <==>
              exists q :: q in found && q in CardsOf(files) && CardsOf(files)[q].noteId == id
  {
    hide ReadNote, KeyOf, IsSnapshotId;
    var ids := IdsOf(NotesAt(files, found));
    if id in ids {
      var i :| 0 <= i < |found| && ids[i] == id;
      assert found[i] in found && CardsOf(files)[found[i]].noteId == id;
    }
    if q :| q in found && q in CardsOf(files) && CardsOf(files)[q].noteId == id {
      var i :| 0 <= i < |found| && found[i] == q;
      assert ids[i] == id;
    }
  }

  ghost predicate FilesHaveRows(t: Tables) {
    forall p :: p in t.files ==> t.files[p].noteId in t.rows && t.rows[t.files[p].noteId].path == t.files[p].path
  }

  lemma RowsOfFiles(t: Tables, chunker: Chunker)
    requires IndexInv(t, chunker)
    ensures FilesHaveRows(t)
  {
    hide IndexInv;
    forall p | p in t.files
      ensures t.files[p].noteId in t.rows && t.rows[t.files[p].noteId].path == t.files[p].path
    {
      FileHasRow(t, chunker, p);
    }
  }

  lemma SnapshotIdInjective(p: string, q: string)
    ensures SnapshotId(p) == SnapshotId(q) <==> p == q
  {
    assert SnapshotId(p)[|SNAPSHOT_ID|..] == p && SnapshotId(q)[|SNAPSHOT_ID|..] == q;
  }

  lemma SnapshotTakesItsPlace(t: Tables, e: Effect)
    requires FilesOk(t.files) && IsNew(t, e.canonical) && e.snapshot.Some? && IsSnapshot(e.snapshot.value)
    requires WellKept(WrittenCard(e.snapshot.value)) && WrittenCard(e.snapshot.value).isSnapshot
    requires WrittenCard(e.snapshot.value).noteId == e.snapshot.value.noteId
    requires WrittenCard(e.canonical).noteId == e.canonical.noteId
    ensures SnapshotFits(CardsOf(t.files), ChangeOf(e), WrittenCard(e.snapshot.value))
  {
    hide CardsOf, Sound, WrittenCard, WellKept, CorpusPolicy, StartsWith;
    var s := e.snapshot.value;
    CardsCover(t.files);
    assert IsSnapshotId(s.noteId);
    forall p | p in t.files
      ensures p == s.path <==> t.files[p].noteId == s.noteId
      ensures p == s.path ==> IsSnapshotId(t.files[p].noteId)
    {
      assert FileOk(p, t.files[p]);
      SnapshotIdInjective(p, s.path);
    }
  }

  lemma ReplacedAreCurrent(files: Files, e: Effect, writes: seq<Note>)
    requires |e.found| <= |writes| && AllRewrite(files, e, writes)
    ensures forall q :: q in e.found ==> q in CardsOf(files) && CardsOf(files)[q].current
  {
    hide CardsOf, Writable, WrittenCard, Retired, IsSnapshotPath;
    forall i | 0 <= i < |e.found| ensures e.found[i] in CardsOf(files) && CardsOf(files)[e.found[i]].current {
      assert Rewrites(files, e.found[i], writes[i], e.canonical.noteId);
    }
  }

  lemma HeirIsNew(t: Tables, note: Note)
    requires FilesOk(t.files) && FilesHaveRows(t) && IsNew(t, note)
    ensures note.path !in CardsOf(t.files) && !IsThere(CardsOf(t.files), note.noteId)
  {
    hide CardsOf, FilesOk, Writable, IsSnapshotPath, IsSnapshotId;
    CardsCover(t.files);
  }

  lemma NewCardParts(t: Tables, req: Request, draw: Draw, e: Effect)
    requires IsEffect(t, req, draw, e) && NewCards(t.files, req, draw, e)
    ensures e.canonical.noteId == draw.noteId && e.canonical.path == draw.path
    ensures var card := WrittenCard(e.canonical);
            && WellKept(card) && !card.superseded && !card.isSnapshot && card.noteId == e.canonical.noteId
            && card.current == req.asCurrent && (e.found != [] ==> req.asCurrent)
            && (forall q :: q in e.found ==> CanRead(t.files, q))
            && card.supersedes == SetOf(IdsOf(NotesAt(t.files, e.found)))
            && card.key == KeyAsRead(req.corpusId, e.draft.frontmatter)
    ensures e.snapshot.Some? ==>
              var card := WrittenCard(e.snapshot.value);
              WellKept(card) && card.isSnapshot && card.noteId == e.snapshot.value.noteId
  {
    hide WrittenCard, FindDraft, FindSuperseded, SnapshotNote, CanonicalNote, CanRead, KeyAsRead, IdsOf, NotesAt, SetOf;
    CanonicalParts(req, draw, e.draft, IdsOf(NotesAt(t.files, e.found)));
  }

  /** A plan is a lawful change of the relation. */
  lemma PlanIsLawful(t: Tables, req: Request, draw: Draw, p: Payload, e: Effect)
    requires FilesOk(t.files) && FilesHaveRows(t)
    requires IsEffect(t, req, draw, e) && Planned(t, p, e) && NewCards(t.files, req, draw, e)
    ensures Lawful(CardsOf(t.files), ChangeOf(e))
  {
    hide CardsOf, FilesOk, CanRead, WrittenCard, SnapshotFits, NewCards, IsEffect, WellKept, IsSnapshot, IdsOf,
         NotesAt, AllRewrite, IsNew;
    NewCardParts(t, req, draw, e);
    HeirIsNew(t, e.canonical);
    ReplacedAreCurrent(t.files, e, p.writes);
    forall id
      ensures id in WrittenCard(e.canonical).supersedes <==>
              exists q :: q in ChangeOf(e).replaced && CardsOf(t.files)[q].noteId == id
    {
      IdsAreReplaced(t.files, e.found, id);
    }
    if e.snapshot.Some? {
      SnapshotTakesItsPlace(t, e);
    }
  }

  // ----- A planned payload can be replayed -----

  predicate HasRow(rows: map<string, NoteRow>, w: Note) {
    w.noteId in rows && rows[w.noteId].path == w.path && !IsSnapshotPath(w.path) && !IsSnapshotId(w.noteId)
  }

  /** A payload whose predecessors have their rows, whose new note is still new and whose draft is there. */
  ghost predicate Waits(t: Tables, p: Payload, e: Effect) {
    var n := |e.found|;
    && |p.writes| == n + (if e.snapshot.Some? then 2 else 1)
    && (forall i :: 0 <= i < n ==> HasRow(t.rows, p.writes[i]) && Writable(p.writes[i]))
    && p.writes[n] == e.canonical && IsNew(t, e.canonical)
    && (e.snapshot.Some? ==> p.writes[n + 1] == e.snapshot.value && IsSnapshot(e.snapshot.value))
    && p.draft.path in t.drafts && t.drafts[p.draft.path].noteId == p.draft.noteId
  }

  lemma PlannedWaits(t: Tables, p: Payload, e: Effect)
    requires FilesOk(t.files) && FilesHaveRows(t) && Planned(t, p, e)
    ensures Waits(t, p, e)
  {
    hide CardsOf, WrittenCard, IsNew, IsSnapshot, Retired, IsSnapshotPath, IsSnapshotId, Sound, CorpusPolicy,
         StartsWith;
    forall i | 0 <= i < |e.found| ensures HasRow(t.rows, p.writes[i]) && Writable(p.writes[i]) {
      assert Rewrites(t.files, e.found[i], p.writes[i], e.canonical.noteId);
      assert FileOk(e.found[i], t.files[e.found[i]]);
    }
  }

  /** Each write has an id and a path of its own, and no write is the draft. */
  lemma PlannedPayloadOk(t: Tables, p: Payload, e: Effect)
    requires FilesOk(t.files) && FilesHaveRows(t) && Planned(t, p, e) && RowsInv(t.rows) && DraftsInv(t)
    ensures PayloadOk(p)
  {
    hide CardsOf, WrittenCard, IsNew, IsSnapshot, Retired, IsSnapshotPath, IsSnapshotId, FileOk, CorpusPolicy, Plain,
         RowsInv, FilesOk;
    PlannedWaits(t, p, e);
    assert DraftOk(t, p.draft.path);
    forall i | 0 <= i < |e.found|
      ensures p.writes[i].path == e.found[i] && p.writes[i].noteId != p.draft.noteId
    {
      assert Rewrites(t.files, e.found[i], p.writes[i], e.canonical.noteId);
    }
    WaitingPayloadOk(t, p, e);
  }

  lemma WaitingPayloadOk(t: Tables, p: Payload, e: Effect)
    requires Waits(t, p, e) && RowsInv(t.rows) && DraftsInv(t)
    requires forall i, j :: 0 <= i < j < |e.found| ==> p.writes[i].path != p.writes[j].path
    requires forall i :: 0 <= i < |e.found| ==> p.writes[i].noteId != p.draft.noteId
    ensures PayloadOk(p)
  {
    hide Writable, Plain, NoFileOf, IsSnapshotPath, IsSnapshotId;
    var d, n := p.draft, |e.found|;
    assert DraftOk(t, d.path);
    if e.snapshot.Some? {
      SnapshotPathHasId(e.snapshot.value);
    }
    forall i, j | 0 <= i < j < |p.writes|
      ensures p.writes[i].noteId != p.writes[j].noteId && p.writes[i].path != p.writes[j].path
    {
      assert (i < n && HasRow(t.rows, p.writes[i])) || i == n;
      assert (j < n && HasRow(t.rows, p.writes[j])) || j == n || j == n + 1;
    }
  }

  lemma SnapshotPathHasId(note: Note)
    requires IsSnapshot(note)
    ensures IsSnapshotPath(note.path) && IsSnapshotId(note.noteId) && note.noteId == SnapshotId(note.path) &&
              Writable(note)
  {
    hide Sound, CorpusPolicy;
  }

  /** The policy and the paths allow every write of a waiting payload. */
  lemma WaitingFits(t: Tables, p: Payload, e: Effect)
    requires Waits(t, p, e) && PayloadOk(p) && RowsInv(t.rows) && DraftsInv(t)
    ensures Fits(p, t.rows)
  {
    hide IsSnapshotPath, IsSnapshotId, Sound, Plain, NoFileOf, FileOk, CorpusPolicy;
    var n := |e.found|;
    assert DraftOk(t, p.draft.path);
    if e.snapshot.Some? {
      SnapshotPathHasId(e.snapshot.value);
    }
    forall i | 0 <= i < |p.writes|
      ensures CorpusPolicy(Persisted(p.writes[i])) && p.writes[i].path != p.draft.path
      ensures forall id :: id in t.rows && id != p.writes[i].noteId ==> t.rows[id].path != p.writes[i].path
    {
      WritableIsPersisted(p.writes[i]);
      assert (i < n && HasRow(t.rows, p.writes[i])) || i == n || i == n + 1;
    }
  }

  lemma WritableIsPersisted(note: Note)
    requires Writable(note)
    ensures Persisted(note) == note && CorpusPolicy(note)
  {
    hide Readable, Plain;
  }

  // ----- After the promotion -----

  ghost function PayloadOf(v: Vault, req: Request, draw: Draw): Payload
    requires Plan(v.tables, req, draw).Some?
  {
    Plan(v.tables, req, draw).value
  }

  function TablesAfter(v: Vault, chunker: Chunker, req: Request, draw: Draw): Tables
    requires Plan(v.tables, req, draw).Some?
  {
    Run(Program(Plan(v.tables, req, draw).value, chunker), v.tables).tables
  }

  /** A waiting payload is replayed to its end. */
  lemma WaitingIsFiled(t: Tables, chunker: Chunker, p: Payload, e: Effect)
    requires Waits(t, p, e) && PayloadOk(p) && RowsInv(t.rows) && DraftsInv(t) && KeyedTable(t.chunks) &&
               GoodChunker(chunker)
    ensures Run(Program(p, chunker), t).ok && Filed(p, chunker, t, Run(Program(p, chunker), t).tables)
  {
    hide Waits, PayloadOk, RowsInv, DraftsInv, GoodChunker, Program, Run, Filed, Fits, KeyedTable;
    WaitingFits(t, p, e);
    FittingIsAdmissible(p, chunker, t.rows);
    ReplayFiles(p, chunker, t);
  }

  lemma WrittenFile(p: Payload, chunker: Chunker, t: Tables, t': Tables, i: nat)
    requires Filed(p, chunker, t, t') && i < |p.writes| && Writable(p.writes[i])
    ensures p.writes[i].path in t'.files && t'.files[p.writes[i].path] == p.writes[i]
  {
    hide RowOfNote, RowOfDraft, InsertChunks, ChunksOf, FullTextOf, PromotionEffects.Writes, Writable;
    WritableIsPersisted(p.writes[i]);
    assert View(t', FileCell(Persisted(p.writes[i]).path)) == FileIs(Persisted(p.writes[i]));
  }

  lemma PlannedAreWritable(t: Tables, p: Payload, e: Effect)
    requires Planned(t, p, e)
    ensures forall i :: 0 <= i < |p.writes| ==> Writable(p.writes[i])
  {
    hide Writable, CardsOf, WrittenCard, Retired;
    if e.snapshot.Some? {
      SnapshotPathHasId(e.snapshot.value);
    }
    forall i | 0 <= i < |e.found| ensures Writable(p.writes[i]) {
      assert Rewrites(t.files, e.found[i], p.writes[i], e.canonical.noteId);
    }
  }

  /** Every file of the new vault is a write of the payload or an old file. */
  lemma FilesStayOk(t: Tables, chunker: Chunker, p: Payload, t': Tables)
    requires FilesOk(t.files) && Filed(p, chunker, t, t') && forall i :: 0 <= i < |p.writes| ==> Writable(p.writes[i])
    ensures FilesOk(t'.files)
  {
    hide Filed, FileOk, CorpusPolicy;
    forall q | q in t'.files ensures FileOk(q, t'.files[q]) {
      if i :| 0 <= i < |p.writes| && p.writes[i].path == q {
        WrittenFile(p, chunker, t, t', i);
      } else {
        OtherFileWhenFiled(p, chunker, t, t', q);
      }
    }
  }

  lemma CardAt(files: Files, q: string)
    requires q in files && Writable(files[q])
    ensures q in CardsOf(files) && CardsOf(files)[q] == WrittenCard(files[q])
  {
    hide CardOf;
    SoundIsRead(files[q]);
  }

  lemma OtherCard(p: Payload, chunker: Chunker, t: Tables, t': Tables, q: string)
    requires Filed(p, chunker, t, t') && forall i :: 0 <= i < |p.writes| ==> p.writes[i].path != q
    ensures q in CardsOf(t'.files) <==> q in CardsOf(t.files)
    ensures q in CardsOf(t.files) ==> CardsOf(t'.files)[q] == CardsOf(t.files)[q]
  {
    hide Filed, CardOf, ReadNote;
    OtherFileWhenFiled(p, chunker, t, t', q);
  }

  /** Reading the files after the promotion shows the planned change. */
  lemma FilesLead(t: Tables, chunker: Chunker, p: Payload, e: Effect, t': Tables)
    requires Planned(t, p, e) && Filed(p, chunker, t, t') && WrittenCard(e.canonical).noteId == e.canonical.noteId
    ensures Leads(CardsOf(t.files), ChangeOf(e), CardsOf(t'.files))
  {
    hide Filed, CardsOf, WrittenCard, Writable, IsNew, IsSnapshot, Retired;
    var n := |e.found|;
    PlannedAreWritable(t, p, e);
    forall i | 0 <= i < |p.writes|
      ensures p.writes[i].path in CardsOf(t'.files) && CardsOf(t'.files)[p.writes[i].path] == WrittenCard(p.writes[i])
      ensures i < n ==> Rewrites(t.files, e.found[i], p.writes[i], e.canonical.noteId)
    {
      WrittenFile(p, chunker, t, t', i);
      CardAt(t'.files, p.writes[i].path);
    }
    forall q | q in e.found
      ensures q in CardsOf(t.files) && q in CardsOf(t'.files)
      ensures Retired(CardsOf(t.files)[q], CardsOf(t'.files)[q], e.canonical.noteId)
    {
      var i :| 0 <= i < n && e.found[i] == q;
      assert p.writes[i].path == q;
    }
    forall q | q !in e.found && q != e.canonical.path && !IsSnapshotPlace(ChangeOf(e), q)
      ensures q in CardsOf(t'.files) <==> q in CardsOf(t.files)
      ensures q in CardsOf(t.files) ==> CardsOf(t'.files)[q] == CardsOf(t.files)[q]
    {
      forall i | 0 <= i < |p.writes| ensures p.writes[i].path != q {
        assert i < n ==> e.found[i] in e.found;
      }
      OtherCard(p, chunker, t, t', q);
    }
  }

  /** One promotion from plan to end: tables before, payload, the new note's id, tables after. */
  datatype Replayed = Replayed(t: Tables, p: Payload, heir: string, t': Tables)

  ghost predicate UniqueIds(files: Files) {
    forall p, q :: p in files && q in files && files[p].noteId == files[q].noteId ==> p == q
  }

  ghost predicate KeepsIds(files: Files, heir: string, files': Files) {
    && (forall q :: q in files ==> q in files' && files'[q].noteId == files[q].noteId)
    && (forall q :: q in files' ==>
          files'[q].noteId == heir || IsSnapshotId(files'[q].noteId) ||
              (q in files && files[q].noteId == files'[q].noteId))
  }

  /** A write of the payload: stored as it is, under an id that fits its path. */
  ghost predicate GoodWrite(d: Replayed, w: Note) {
    && Persisted(w) == w
    && (w.noteId == d.heir || IsSnapshotId(w.noteId) || (w.path in d.t.files && d.t.files[w.path].noteId == w.noteId))
    && (IsSnapshotPath(w.path) ==> w.noteId == SnapshotId(w.path))
    && w.path in d.t'.files && d.t'.files[w.path] == w
  }

  /** Everything about a promotion that the invariants of rows, drafts and indexes depend on. */
  ghost predicate Done(d: Replayed, chunker: Chunker) {
    && RowsInv(d.t.rows) && DraftsInv(d.t) && IndexInv(d.t, chunker)
    && PayloadOk(d.p) && Fits(d.p, d.t.rows) && Filed(d.p, chunker, d.t, d.t')
    && UniqueIds(d.t'.files) && KeepsIds(d.t.files, d.heir, d.t'.files)
    && (forall i :: 0 <= i < |d.p.writes| ==> GoodWrite(d, d.p.writes[i]))
    && d.p.draft.path in d.t.drafts && d.t.drafts[d.p.draft.path].noteId == d.p.draft.noteId
    && d.heir !in d.t.rows && !IsSnapshotId(d.heir)
  }

  // ----- Rows -----

  /** The row is one that the entry writes. */
  ghost predicate WrittenRow(p: Payload, row: NoteRow) {
    || (row.noteId == p.draft.noteId && row.path == p.draft.path)
    || (exists i :: 0 <= i < |p.writes| && row.noteId == p.writes[i].noteId && row.path == p.writes[i].path)
  }

  lemma RowOrigin(d: Replayed, chunker: Chunker, id: string)
    requires Done(d, chunker) && id in d.t'.rows
    ensures d.t'.rows[id].noteId == id
    ensures IsSnapshotPath(d.t'.rows[id].path) ==> id == SnapshotId(d.t'.rows[id].path)
    ensures WrittenRow(d.p, d.t'.rows[id]) ||
              (id in d.t.rows && d.t'.rows[id] == d.t.rows[id] && !Writes(d.p, RowCell(id)))
  {
    hide IndexInv, Fits, Filed, RowOfNote, RowOfDraft;
    if i :| 0 <= i < |d.p.writes| && d.p.writes[i].noteId == id {
      RowWhenFiled(d.p, chunker, d.t, d.t', i);
      RowOfNotePath(d.p.writes[i]);
      assert GoodWrite(d, d.p.writes[i]);
    } else if id == d.p.draft.noteId {
      DraftWhenFiled(d.p, chunker, d.t, d.t');
      RowOfDraftPath(PersistedDraft(d.p.draft));
      assert DraftOk(d.t, d.p.draft.path);
    } else {
      OtherRowWhenFiled(d.p, chunker, d.t, d.t', id);
    }
  }

  lemma OldPathDiffers(p: Payload, rows: map<string, NoteRow>, row: NoteRow, other: string)
    requires Fits(p, rows) && other in rows && !Writes(p, RowCell(other)) && WrittenRow(p, row)
    ensures rows[other].path != row.path
  {
  }

  lemma RowPathsDiffer(d: Replayed, chunker: Chunker, a: string, b: string)
    requires Done(d, chunker) && a in d.t'.rows && b in d.t'.rows && d.t'.rows[a].path == d.t'.rows[b].path
    ensures a == b
  {
    hide IndexInv, Filed, DraftsInv, IsSnapshotPath;
    RowOrigin(d, chunker, a);
    RowOrigin(d, chunker, b);
    var ra, rb := d.t'.rows[a], d.t'.rows[b];
    if WrittenRow(d.p, ra) && !WrittenRow(d.p, rb) {
      OldPathDiffers(d.p, d.t.rows, ra, b);
    } else if WrittenRow(d.p, rb) && !WrittenRow(d.p, ra) {
      OldPathDiffers(d.p, d.t.rows, rb, a);
    }
  }

  lemma RowsKept(d: Replayed, chunker: Chunker)
    requires Done(d, chunker)
    ensures RowsInv(d.t'.rows)
  {
    hide Done;
    forall id | id in d.t'.rows
      ensures d.t'.rows[id].noteId == id &&
                (IsSnapshotPath(d.t'.rows[id].path) ==> id == SnapshotId(d.t'.rows[id].path))
    {
      RowOrigin(d, chunker, id);
    }
    forall a, b | a in d.t'.rows && b in d.t'.rows && d.t'.rows[a].path == d.t'.rows[b].path ensures a == b {
      RowPathsDiffer(d, chunker, a, b);
    }
  }

  // ----- Drafts -----

  /** The id of a draft is not the id of a note before, nor after. */
  lemma NoFileUnderDraftId(d: Replayed, chunker: Chunker, id: string)
    requires Done(d, chunker) && id in d.t.rows && !IsSnapshotId(id) && NoFileOf(d.t.files, id)
    ensures NoFileOf(d.t'.files, id)
  {
    hide RowsInv, DraftsInv, IndexInv, Fits, Filed, IsSnapshotId;
  }

  lemma DraftRowStays(d: Replayed, chunker: Chunker, q: string)
    requires Done(d, chunker) && q in d.t.drafts && q != d.p.draft.path
    ensures var id := d.t.drafts[q].noteId; id in d.t'.rows && d.t'.rows[id] == d.t.rows[id]
  {
    hide RowsInv, IndexInv, Fits, Filed;
    var id := d.t.drafts[q].noteId;
    assert DraftOk(d.t, q) && DraftOk(d.t, d.p.draft.path);
    forall i | 0 <= i < |d.p.writes| ensures d.p.writes[i].noteId != id {
      assert GoodWrite(d, d.p.writes[i]);
    }
    OtherRowWhenFiled(d.p, chunker, d.t, d.t', id);
  }

  lemma DraftKept(d: Replayed, chunker: Chunker, q: string)
    requires Done(d, chunker) && q in d.t'.drafts
    ensures DraftOk(d.t', q)
  {
    hide RowsInv, IndexInv, Fits, Filed, RowOfDraft;
    assert DraftOk(d.t, d.p.draft.path);
    if q == d.p.draft.path {
      DraftWhenFiled(d.p, chunker, d.t, d.t');
      RowOfDraftPath(PersistedDraft(d.p.draft));
    } else {
      OtherDraftWhenFiled(d.p, chunker, d.t, d.t', q);
      assert DraftOk(d.t, q);
      DraftRowStays(d, chunker, q);
    }
    NoFileUnderDraftId(d, chunker, d.t'.drafts[q].noteId);
  }

  lemma DraftsKept(d: Replayed, chunker: Chunker)
    requires Done(d, chunker)
    ensures DraftsInv(d.t')
  {
    hide Done, DraftOk;
    forall q | q in d.t'.drafts ensures DraftOk(d.t', q) {
      DraftKept(d, chunker, q);
    }
  }

  // ----- Indexes -----

  lemma SyncKept(d: Replayed, chunker: Chunker, q: string)
    requires Done(d, chunker) && q in d.t'.files
    ensures InSync(d.t', chunker, d.t'.files[q])
  {
    hide RowsInv, Fits, View, RowOfNote, RowOfDraft, DraftsInv;
    if i :| 0 <= i < |d.p.writes| && d.p.writes[i].path == q {
      assert GoodWrite(d, d.p.writes[i]);
    } else {
      UnwrittenFile(d, chunker, q);
    }
  }

  lemma UnwrittenFile(d: Replayed, chunker: Chunker, q: string)
    requires Done(d, chunker) && q in d.t'.files
    requires forall i :: 0 <= i < |d.p.writes| ==> d.p.writes[i].path != q
    ensures q in d.t.files && d.t'.files[q] == d.t.files[q]
    ensures InSync(d.t', chunker, d.t'.files[q])
  {
    hide RowsInv, Fits, RowOfNote, View, Filed, DraftOk, NoFileOf;
    OtherFileWhenFiled(d.p, chunker, d.t, d.t', q);
    var id := d.t.files[q].noteId;
    forall i | 0 <= i < |d.p.writes| ensures d.p.writes[i].noteId != id {
      assert GoodWrite(d, d.p.writes[i]);
    }
    NoDraftIsAFile(d, chunker, q);
    OtherNoteWhenFiled(d.p, chunker, d.t, d.t', id);
    assert InSync(d.t, chunker, d.t.files[q]);
  }

  lemma NoDraftIsAFile(d: Replayed, chunker: Chunker, q: string)
    requires Done(d, chunker) && q in d.t.files
    ensures d.t.files[q].noteId != d.p.draft.noteId
  {
    hide RowsInv, IndexInv, Fits, Filed;
    assert DraftOk(d.t, d.p.draft.path);
  }

  lemma NothingForOthers(d: Replayed, chunker: Chunker, id: string)
    requires Done(d, chunker) && NoFileOf(d.t'.files, id)
    ensures View(d.t', ChunkCell(id)) == ChunksAre(map[]) && View(d.t', FullTextCell(id)) == FullTextIs([])
  {
    hide RowsInv, Fits, Filed, View;
    forall i | 0 <= i < |d.p.writes| ensures d.p.writes[i].noteId != id {
      assert GoodWrite(d, d.p.writes[i]);
    }
    assert NoFileOf(d.t.files, id);
    OtherNoteWhenFiled(d.p, chunker, d.t, d.t', id);
  }

  lemma IndexKept(d: Replayed, chunker: Chunker)
    requires Done(d, chunker)
    ensures IndexInv(d.t', chunker)
  {
    hide Done, View, InSync;
    forall q | q in d.t'.files ensures InSync(d.t', chunker, d.t'.files[q]) {
      SyncKept(d, chunker, q);
    }
    forall id | NoFileOf(d.t'.files, id)
      ensures View(d.t', ChunkCell(id)) == ChunksAre(map[]) && View(d.t', FullTextCell(id)) == FullTextIs([])
    {
      NothingForOthers(d, chunker, id);
    }
  }


  // ----- One promotion -----

  lemma ShapeMeansUniqueIds(files: Files)
    requires FilesOk(files) && Shape(CardsOf(files))
    ensures UniqueIds(files)
  {
    hide CardsOf, FilesOk, WellKept;
    CardsCover(files);
  }

  lemma IdsAreKept(t: Tables, chunker: Chunker, p: Payload, e: Effect, t': Tables)
    requires FilesOk(t.files) && Planned(t, p, e) && Filed(p, chunker, t, t')
    ensures KeepsIds(t.files, e.canonical.noteId, t'.files)
  {
    hide Filed, CardsOf, WrittenCard, Retired, Writable, IsSnapshotPath, IsSnapshotId, Sound, StartsWith;
    var n := |e.found|;
    PlannedAreWritable(t, p, e);
    if e.snapshot.Some? {
      SnapshotPathHasId(e.snapshot.value);
    }
    forall q | q in t.files ensures q in t'.files && t'.files[q].noteId == t.files[q].noteId {
      if i :| 0 <= i < |p.writes| && p.writes[i].path == q {
        WrittenFile(p, chunker, t, t', i);
        assert i < n ==> Rewrites(t.files, e.found[i], p.writes[i], e.canonical.noteId);
        assert FileOk(q, t.files[q]);
      } else {
        OtherFileWhenFiled(p, chunker, t, t', q);
      }
    }
    forall q | q in t'.files
      ensures || t'.files[q].noteId == e.canonical.noteId || IsSnapshotId(t'.files[q].noteId)
              || (q in t.files && t.files[q].noteId == t'.files[q].noteId)
    {
      if i :| 0 <= i < |p.writes| && p.writes[i].path == q {
        WrittenFile(p, chunker, t, t', i);
        assert i < n ==> Rewrites(t.files, e.found[i], p.writes[i], e.canonical.noteId);
      } else {
        OtherFileWhenFiled(p, chunker, t, t', q);
      }
    }
  }

  lemma WritesAreGood(t: Tables, chunker: Chunker, p: Payload, e: Effect, t': Tables, i: nat)
    requires Planned(t, p, e) && Filed(p, chunker, t, t') && i < |p.writes|
    ensures GoodWrite(Replayed(t, p, e.canonical.noteId, t'), p.writes[i])
  {
    hide Filed, CardsOf, WrittenCard, Retired, IsSnapshotPath, IsSnapshotId, Sound, StartsWith, CorpusPolicy;
    PlannedAreWritable(t, p, e);
    WrittenFile(p, chunker, t, t', i);
    WritableIsPersisted(p.writes[i]);
    if i < |e.found| {
      assert Rewrites(t.files, e.found[i], p.writes[i], e.canonical.noteId);
    } else if i > |e.found| {
      SnapshotPathHasId(e.snapshot.value);
    }
  }

  /** Reading the files after a promotion: the change that was planned, and the relation kept. */
  lemma PromotionLeads(v: Vault, chunker: Chunker, req: Request, draw: Draw) returns (e: Effect)
    requires Ready(v, chunker, req, draw)
    ensures IsEffect(v.tables, req, draw, e) && Planned(v.tables, PayloadOf(v, req, draw), e) &&
              NewCards(v.tables.files, req, draw, e)
    ensures Run(Program(PayloadOf(v, req, draw), chunker), v.tables).ok
    ensures PayloadOk(PayloadOf(v, req, draw)) && Waits(v.tables, PayloadOf(v, req, draw), e)
    ensures Filed(PayloadOf(v, req, draw), chunker, v.tables, TablesAfter(v, chunker, req, draw))
    ensures var t' := TablesAfter(v, chunker, req, draw);
            && FilesOk(t'.files) && Lawful(CardsOf(v.tables.files), ChangeOf(e))
            && Leads(CardsOf(v.tables.files), ChangeOf(e), CardsOf(t'.files))
    ensures e.canonical.noteId == draw.noteId == WrittenCard(e.canonical).noteId && e.canonical.path == draw.path
  {
    hide Plan, Program, Run, Allowed, IsEffect, Planned, NewCards, RowsInv, DraftsInv, IndexInv, FilesOk, RelationInv,
         KeyedTable, GoodChunker, Filed, PayloadOk, Waits, CardsOf, Lawful, Leads, ChangeOf, FilesHaveRows,
         WrittenCard, Writable;
    var t, t', p := v.tables, TablesAfter(v, chunker, req, draw), PayloadOf(v, req, draw);
    e := PlanIsPlanned(v, chunker, req, draw);
    RowsOfFiles(t, chunker);
    PlannedWaits(t, p, e);
    PlannedPayloadOk(t, p, e);
    WaitingIsFiled(t, chunker, p, e);
    PlanIsLawful(t, req, draw, p, e);
    PlannedAreWritable(t, p, e);
    FilesStayOk(t, chunker, p, t');
    NewCardParts(t, req, draw, e);
    FilesLead(t, chunker, p, e, t');
  }

  /** One promotion, planned and processed to its end, keeps the vault sound, whatever the titles hold. */
  lemma PromoteKeepsInv(v: Vault, chunker: Chunker, req: Request, draw: Draw)
    requires Ready(v, chunker, req, draw)
    ensures VaultInv(Act(v, Promote(req, draw), chunker), chunker)
  {
    hide Plan, Program, Run, FilesOk, RelationInv, RowsInv, DraftsInv, IndexInv, Lawful, Leads, Filed, CardsOf,
         WrittenCard, PayloadOk, Waits, GoodChunker, IsEffect, NewCards, Done, GoodWrite, KeepsIds, UniqueIds,
         ListingOk;
    var t, t', p := v.tables, TablesAfter(v, chunker, req, draw), PayloadOf(v, req, draw);
    var e := PromotionLeads(v, chunker, req, draw);
    RelationInvKept(CardsOf(t.files), ChangeOf(e), CardsOf(t'.files), v.born, v.clock);
    FiledIsKeyed(p, chunker, t, t');
    PromotionIsDone(v, chunker, req, draw, e);
    var d := Replayed(t, p, draw.noteId, t');
    RowsKept(d, chunker);
    DraftsKept(d, chunker);
    IndexKept(d, chunker);
  }

  lemma PromotionIsDone(v: Vault, chunker: Chunker, req: Request, draw: Draw, e: Effect)
    requires Ready(v, chunker, req, draw)
    requires var t' := TablesAfter(v, chunker, req, draw);
             FilesOk(t'.files) && RelationInv(CardsOf(t'.files), v.born[draw.noteId := v.clock], v.clock + 1)
    requires Planned(v.tables, PayloadOf(v, req, draw), e) && e.canonical.noteId == draw.noteId
    requires PayloadOk(PayloadOf(v, req, draw)) && Waits(v.tables, PayloadOf(v, req, draw), e)
    requires Filed(PayloadOf(v, req, draw), chunker, v.tables, TablesAfter(v, chunker, req, draw))
    ensures Done(Replayed(v.tables, PayloadOf(v, req, draw), draw.noteId, TablesAfter(v, chunker, req, draw)), chunker)
  {
    hide Plan, Program, Run, FilesOk, Shape, Mirror, Closed, Ranked, RowsInv, DraftsInv, IndexInv, Filed, CardsOf,
         WrittenCard, PayloadOk, GoodChunker, GoodWrite, KeepsIds, UniqueIds, Allowed, Fits, AllRewrite, Writable,
         IsSnapshot;
    var t, t', p := v.tables, TablesAfter(v, chunker, req, draw), PayloadOf(v, req, draw);
    WaitingFits(t, p, e);
    ShapeMeansUniqueIds(t'.files);
    IdsAreKept(t, chunker, p, e, t');
    forall i | 0 <= i < |p.writes| ensures GoodWrite(Replayed(t, p, draw.noteId, t'), p.writes[i]) {
      WritesAreGood(t, chunker, p, e, t', i);
    }
  }

  // ----- Drafts created and edited -----

  lemma IndexStays(t: Tables, t': Tables, chunker: Chunker)
    requires IndexInv(t, chunker) && t'.files == t.files && t'.chunks == t.chunks && t'.fullText == t.fullText
    requires forall p :: p in t.files ==> View(t', RowCell(t.files[p].noteId)) == View(t, RowCell(t.files[p].noteId))
    ensures IndexInv(t', chunker)
  {
    hide InsertChunks, ChunksOf, FullTextOf, RowOfNote;
    forall p | p in t'.files ensures InSync(t', chunker, t'.files[p]) {
      assert InSync(t, chunker, t.files[p]);
    }
    forall id | NoFileOf(t'.files, id)
      ensures View(t', ChunkCell(id)) == ChunksAre(map[]) && View(t', FullTextCell(id)) == FullTextIs([])
    {
      assert NoFileOf(t.files, id);
      assert View(t, ChunkCell(id)) == ChunksAre(map[]) && View(t, FullTextCell(id)) == FullTextIs([]);
    }
  }

  lemma StoredDraftParts(draft: Draft)
    ensures var d := StoredDraft(draft);
            && d.noteId == draft.noteId == d.frontmatter.noteId && d.path == draft.path
            && RowOfDraft(d).noteId == d.noteId && RowOfDraft(d).path == d.path
  {
  }

  lemma CreateDraftKeepsInv(v: Vault, chunker: Chunker, draft: Draft)
    requires VaultInv(v, chunker) && Allowed(v.tables, CreateDraft(draft))
    ensures VaultInv(Act(v, CreateDraft(draft), chunker), chunker)
  {
    hide FilesOk, RelationInv, IndexInv, RowOfDraft, StoredDraft, IsSnapshotPath, IsSnapshotId, Plain, KeyedTable,
         RowsInv, ChunksOf, FullTextOf;
    var t, t' := v.tables, Act(v, CreateDraft(draft), chunker).tables;
    StoredDraftParts(draft);
    RowsOfFiles(t, chunker);
    assert NoFileOf(t.files, draft.noteId);
    IndexStays(t, t', chunker);
    NewRowKeepsRows(t, RowOfDraft(StoredDraft(draft)));
    forall p | p in t'.drafts ensures DraftOk(t', p) {
      if p != draft.path {
        assert DraftOk(t, p);
      }
    }
  }

  lemma NewRowKeepsRows(t: Tables, row: NoteRow)
    requires RowsInv(t.rows) && FreshName(t, row.noteId, row.path)
    ensures RowsInv(t.rows[row.noteId := row])
  {
    hide Plain, IsSnapshotPath, IsSnapshotId;
  }

  lemma EditDraftKeepsInv(v: Vault, chunker: Chunker, draft: Draft)
    requires VaultInv(v, chunker) && Allowed(v.tables, EditDraft(draft))
    ensures VaultInv(Act(v, EditDraft(draft), chunker), chunker)
  {
    hide FilesOk, RelationInv, IndexInv, RowsInv, IsSnapshotPath, IsSnapshotId, Plain, KeyedTable, ChunksOf, FullTextOf;
    var t, t' := v.tables, Act(v, EditDraft(draft), chunker).tables;
    forall p | p in t'.drafts ensures DraftOk(t', p) {
      assert DraftOk(t, p);
    }
    IndexStays(t, t', chunker);
  }

  // ----- One current note per key -----

  /** The notes that the new one will conflict with, as its file reads, carry the key by which the draft looks for
      them. */
  ghost predicate RivalsAreFound(cards: Cards, asRead: Key, own: Key) {
    forall p :: p in cards && cards[p].current && Rivals(cards[p].key, asRead) ==> Rivals(cards[p].key, own)
  }

  lemma CorpusOfPath(p: string, note: Note, corpusId: string)
    requires FileOk(p, note) && IsCorpus(corpusId)
    ensures StartsWith(p, corpusId + "/") <==> note.corpusId == corpusId
  {
    hide Sound;
    assert p[0] == note.corpusId[0];
    if StartsWith(p, corpusId + "/") {
      assert p[0] == corpusId[0];
    }
  }

  lemma FoundIff(t: Tables, req: Request, draw: Draw, e: Effect, p: string)
    requires FilesOk(t.files) && IsEffect(t, req, draw, e) && req.asCurrent && p in t.files
    requires ListingOk(t.files, req.corpusId, draw.listing) && IsCorpus(req.corpusId)
    ensures p in CardsOf(t.files)
    ensures p in e.found <==>
            CardsOf(t.files)[p].current && Rivals(CardsOf(t.files)[p].key, KeyOf(req.corpusId, e.draft.frontmatter))
  {
    hide ReadNote, Sound, Folded, FindDraft, CanonicalNote, SnapshotNote, StartsWith, IsSnapshotId, IsSnapshotPath;
    assert FileOk(p, t.files[p]);
    SoundIsRead(t.files[p]);
    CorpusOfPath(p, t.files[p], req.corpusId);
  }

  /** A promotion keeps one current note per key exactly when every current note that conflicts with the new one,
      as its file will read, is found under the draft's own fields. */
  lemma {:induction false} PromotionKeepsOneCurrentIff(v: Vault, chunker: Chunker, req: Request, draw: Draw,
                                        draft: Draft)
    requires Ready(v, chunker, req, draw) && OneCurrent(CardsOf(v.tables.files))
    requires FindDraft(v.tables.drafts, draw.staging, req.draftId) == Some(draft)
    ensures OneCurrent(CardsOf(Act(v, Promote(req, draw), chunker).tables.files)) <==>
            (req.asCurrent ==> RivalsAreFound(CardsOf(v.tables.files), KeyAsRead(req.corpusId, draft.frontmatter),
                                              KeyOf(req.corpusId, draft.frontmatter)))
  {
    hide Plan, Program, Run, RowsInv, DraftsInv, IndexInv, Lawful, Leads, Filed, CardsOf, WrittenCard, FilesOk,
         Mirror, Closed, Ranked, Shape, PayloadOk, Waits, GoodChunker, ListingOk, OneCurrent, Planned, KeyAsRead,
         KeyOf, FindDraft, FreshName;
    var t, t' := v.tables, TablesAfter(v, chunker, req, draw);
    var e := PromotionLeads(v, chunker, req, draw);
    OneCurrentIff(CardsOf(t.files), ChangeOf(e), CardsOf(t'.files));
    NoRivalIff(t, req, draw, e);
  }

  lemma NoRivalIff(t: Tables, req: Request, draw: Draw, e: Effect)
    requires FilesOk(t.files) && IsEffect(t, req, draw, e) && NewCards(t.files, req, draw, e)
    requires ListingOk(t.files, req.corpusId, draw.listing) && IsCorpus(req.corpusId)
    ensures NoRival(CardsOf(t.files), ChangeOf(e)) <==>
            (req.asCurrent ==> RivalsAreFound(CardsOf(t.files), KeyAsRead(req.corpusId, e.draft.frontmatter),
                                              KeyOf(req.corpusId, e.draft.frontmatter)))
  {
    hide FilesOk, IsEffect, ListingOk, CardsOf, WrittenCard, KeyAsRead, KeyOf, IdsOf, NotesAt, SetOf;
    var cards := CardsOf(t.files);
    CardsCover(t.files);
    NewCardParts(t, req, draw, e);
    if req.asCurrent {
      forall p | p in cards
        ensures p in e.found <==> cards[p].current && Rivals(cards[p].key, KeyOf(req.corpusId, e.draft.frontmatter))
      {
        FoundIff(t, req, draw, e, p);
      }
    }
  }
}
