/** What one promotion leaves behind: the draft, the event, the new note, and the notes that it replaces. */
module PromotionResult {
  import opened Domain
  import opened FrontmatterRoundTrip
  import opened Keys
  import opened Planning
  import opened Promotion
  import opened PromotionEffects
  import opened Reading
  import opened Replay
  import opened SerialRuns
  import opened Stores
  import opened Supersession
  import opened Text
  import opened VaultNotes
  import Codec = FrontmatterCodec

  // ----- The draft -----

  /** The draft's file says that it has been promoted today; everything else is as it was read before. */
  ghost predicate DraftIsPromoted(t: Tables, draft: Draft, today: string) {
    var f := WrittenBack(draft.frontmatter).(status := STATUS_PROMOTED, updated := today, currentState := false);
    draft.path in t.drafts && ReadDraft(t.drafts[draft.path]) ==
      Some(Draft(draft.noteId, f.corpusId, draft.path, STATUS_PROMOTED, f, BodyAsRead(draft.body)))
  }

  /** The draft's row says the same. */
  ghost predicate DraftRowIsPromoted(t: Tables, draft: Draft, today: string) {
    draft.noteId in t.rows && RowSays(t.rows[draft.noteId], draft, today)
  }

  ghost predicate RowSays(row: NoteRow, draft: Draft, today: string) {
    var f := draft.frontmatter;
    && row.lifecycle == STATUS_PROMOTED && row.updated == today && !row.currentState
    && row.noteId == draft.noteId && row.path == draft.path && row.corpusId == draft.corpusId
    && row.noteType == f.noteType && row.summary == f.summary && row.scope == f.scope
    && (forall tag :: tag in row.tags <==> tag in f.tags)
    && row.validFrom == f.validFrom && row.validUntil == f.validUntil
    && row.contentHash.None? && row.semanticSignature.None?
  }

  // ----- The event -----

  /** The note at this path was current and is superseded now. */
  ghost predicate Replaced(before: Cards, after: Cards, p: string) {
    p in before && before[p].current && p in after && after[p].superseded
  }

  ghost predicate ReplacedId(before: Cards, after: Cards, id: string) {
    exists p :: Replaced(before, after, p) && before[p].noteId == id
  }

  /** The event names the draft, the new note and exactly the notes that it has replaced. */
  ghost predicate EventIsRecorded(t: Tables, t': Tables, draw: Draw, draftId: string) {
    && t'.events.Keys == t.events.Keys + {draw.outboxId}
    && (forall id :: id in t.events && id != draw.outboxId ==> t'.events[id] == t.events[id])
    && var event := t'.events[draw.outboxId];
       && event.eventId == draw.outboxId && event.draftId == draftId && event.canonicalId == draw.noteId
       && event.promotedAt == draw.now
       && forall id :: id in event.supersededIds <==> ReplacedId(CardsOf(t.files), CardsOf(t'.files), id)
  }

  // ----- The notes -----

  /** The new note holds the draft's own text under its trimmed fields. */
  ghost predicate NoteIsPromoted(t': Tables, req: Request, draw: Draw, draft: Draft) {
    && draw.path in t'.files && draw.outboxId in t'.events
    && IsPromotion(t'.files[draw.path], req, draw, draft, t'.events[draw.outboxId].supersededIds)
  }

  ghost predicate IsPromotion(note: Note, req: Request, draw: Draw, draft: Draft, replaced: seq<string>) {
    var f, was := note.frontmatter, draft.frontmatter;
    && note.noteId == f.noteId == draw.noteId && note.corpusId == f.corpusId == req.corpusId
    && note.path == draw.path && note.body == draft.body
    && f.status == STATUS_PROMOTED && f.updated == draw.today && f.currentState == req.asCurrent
    && f.supersedes == Some(replaced) && f.supersededBy == None
    && f.noteType == was.noteType && f.title == Trim(was.title) && f.project == Trim(was.project)
    && f.summary == Trim(was.summary) && f.scope == Trim(was.scope)
    && IsTrimmed(f.validFrom, was.validFrom) && IsTrimmed(f.validUntil, was.validUntil)
    && (forall tag :: tag in f.tags <==> TagAfter(draw.tags, tag, StateTags(),
         ["status/promoted"] + (if req.asCurrent then [TAG_CURRENT] else [])))
    && NoRepeats(f.tags)
  }

  /** A date without outer white space, and none when nothing is left of it. */
  predicate IsTrimmed(date: Option<string>, was: Option<string>) {
    match date
    case None => was.None? || Trim(was.value) == ""
    case Some(text) => was.Some? && text == Trim(was.value) && text != ""
  }

  /** The tags by which a note shows its state. */
  function StateTags(): seq<string> {
    ["status/draft", "status/staged", "status/superseded", "status/promoted", TAG_CURRENT]
  }

  predicate TagAfter(before: seq<string>, tag: string, dropped: seq<string>, added: seq<string>) {
    tag in added || (tag in before && tag !in dropped)
  }

  /** The file of a replaced note holds what was read from it, marked as superseded by the new one. */
  ghost predicate NoteIsRetired(t: Tables, t': Tables, draw: Draw, p: string) {
    && CanRead(t.files, p) && p in t'.files
    && var was, note := NoteAt(t.files, p), t'.files[p];
       var f := note.frontmatter;
       && note.noteId == was.noteId && note.corpusId == was.corpusId && note.path == was.path && note.body == was.body
       && f == was.frontmatter.(status := STATUS_SUPERSEDED, currentState := false, supersededBy := Some(draw.noteId),
            updated := draw.today, tags := f.tags)
       && (forall tag :: tag in f.tags <==>
            TagAfter(was.frontmatter.tags, tag, [TAG_CURRENT, "status/promoted"], ["status/superseded"]))
       && NoRepeats(f.tags)
  }

  // ----- The plan -----

  lemma PlanOfDraft(t: Tables, req: Request, draw: Draw, draft: Draft)
    requires Plan(t, req, draw).Some? && FindDraft(t.drafts, draw.staging, req.draftId) == Some(draft)
    ensures var p := Plan(t, req, draw).value;
            && p.draft == draft.(lifecycle := STATUS_PROMOTED, frontmatter := draft.frontmatter.(
                 status := STATUS_PROMOTED, updated := draw.today, currentState := false))
            && p.decision.eventId == draw.outboxId && p.decision.draftId == draft.noteId
            && p.decision.canonicalId == draw.noteId && p.decision.promotedAt == draw.now
  {
    hide ReadNote, ReadDraft, CanonicalNote, SnapshotNote, FindDraft, FindSuperseded, ExactDuplicate, Retire,
         Listable, CanRead, NotesAt;
  }

  lemma IdsOfPlan(t: Tables, req: Request, draw: Draw, e: Effect)
    requires Plan(t, req, draw).Some? && IsEffect(t, req, draw, e)
    ensures Plan(t, req, draw).value.decision.supersededIds == IdsOf(NotesAt(t.files, e.found))
  {
    hide ReadNote, ReadDraft, CanonicalNote, SnapshotNote, FindDraft, FindSuperseded, ExactDuplicate, Retire,
         Listable, CanRead, NoteAt;
    NothingAt(t.files);
  }

  lemma PromotedDraftReads(draft: Draft, today: string, t: Tables)
    requires Readable(draft.frontmatter) && Plain(today) && Plain(draft.noteId)
    requires draft.noteId == draft.frontmatter.noteId && draft.corpusId == draft.frontmatter.corpusId
    requires var update := PersistedDraft(draft.(lifecycle := STATUS_PROMOTED, frontmatter := draft.frontmatter.(
               status := STATUS_PROMOTED, updated := today, currentState := false)));
             && draft.path in t.drafts && t.drafts[draft.path] == update
             && draft.noteId in t.rows && t.rows[draft.noteId] == RowOfDraft(update)
    ensures DraftIsPromoted(t, draft, today) && DraftRowIsPromoted(t, draft, today)
  {
    hide ReadDraft, Codec.Escape, Codec.Separates, Codec.Escapes, EscapeAll, Present, BodyAsRead;
    var f := draft.frontmatter;
    var g := f.(status := STATUS_PROMOTED, updated := today, currentState := false);
    StatesArePlain();
    PlainIsKept(today);
    PlainIsKept(STATUS_PROMOTED);
    PlainIsKept(draft.noteId);
    var texts := [f.noteId, f.title, f.project, f.noteType, f.status, f.updated, f.summary, f.scope, f.corpusId];
    assert texts[0] == f.noteId && texts[1] == f.title && texts[2] == f.project && texts[3] == f.noteType;
    assert texts[6] == f.summary && texts[7] == f.scope && texts[8] == f.corpusId;
    DraftAsRead(draft.(lifecycle := STATUS_PROMOTED, frontmatter := g));
  }

  lemma RetiredByPlan(t: Tables, req: Request, draw: Draw, e: Effect, i: nat)
    requires Plan(t, req, draw).Some? && IsEffect(t, req, draw, e) && i < |e.found|
    ensures i < |Plan(t, req, draw).value.writes| && CanRead(t.files, e.found[i])
    ensures Plan(t, req, draw).value.writes[i] ==
              SupersededNote(NoteAt(t.files, e.found[i]), draw.noteId, draw.today)
  {
    hide ReadNote, ReadDraft, CanonicalNote, SnapshotNote, SupersededNote, FindDraft, ExactDuplicate, Listable,
         CanRead, NoteAt, Matches;
    assert e.found[i] in e.found;
  }

  lemma RetiredTagsAre(tags: seq<string>)
    ensures forall tag :: tag in SupersededTags(tags) <==>
              TagAfter(tags, tag, [TAG_CURRENT, "status/promoted"], ["status/superseded"])
    ensures NoRepeats(SupersededTags(tags))
  {
    hide Without, Unique;
    TagsDoNotRepeat(tags, false);
    WithoutIs(Unique(tags), TAG_CURRENT);
    WithoutIs(Without(Unique(tags), TAG_CURRENT), "status/promoted");
  }

  lemma WithoutIs(tags: seq<string>, tag: string)
    ensures forall t :: t in Without(tags, tag) <==> t in tags && t != tag
  {
  }

  lemma PromotedTagsAre(tags: seq<string>, current: bool)
    ensures forall tag :: tag in PromotedTags(tags, current) <==>
              TagAfter(tags, tag, StateTags(), ["status/promoted"] + (if current then [TAG_CURRENT] else []))
    ensures NoRepeats(PromotedTags(tags, current))
  {
    hide Without, Unique;
    TagsDoNotRepeat(tags, current);
    var a := Without(Unique(tags), "status/draft");
    var b := Without(a, "status/staged");
    var c := Without(b, "status/superseded");
    WithoutIs(Unique(tags), "status/draft");
    WithoutIs(a, "status/staged");
    WithoutIs(b, "status/superseded");
    WithoutIs(With(c, "status/promoted"), TAG_CURRENT);
  }

  // ----- When there is a plan -----

  /** A row of the corpus that is not superseded holds this text. */
  ghost predicate IsTaken(rows: map<string, NoteRow>, corpusId: string, body: string) {
    exists id :: id in rows && HoldsText(rows[id], corpusId, body)
  }

  predicate HoldsText(row: NoteRow, corpusId: string, body: string) {
    row.corpusId == corpusId && row.contentHash == Some(body) && row.lifecycle != STATUS_SUPERSEDED
  }

  /** What can be made the current state: notes of the context brain that are no snapshots. */
  predicate MayBeCurrent(req: Request, draw: Draw) {
    req.corpusId == CONTEXT_BRAIN && TAG_SNAPSHOT !in draw.tags
  }

  lemma PlanIff(t: Tables, req: Request, draw: Draw)
    ensures var found := FindDraft(t.drafts, draw.staging, req.draftId);
            Plan(t, req, draw).Some? <==>
              && found.Some? && draw.valid && !IsTaken(t.rows, req.corpusId, found.value.body)
              && (req.asCurrent ==>
                    && MayBeCurrent(req, draw)
                    && forall p :: p in draw.listing ==> p in t.files && ReadNote(t.files[p]).Some?)
  {
    hide ReadNote, ReadDraft, SnapshotNote, FindDraft, FindSuperseded, Retire, NotesAt, IdsOf, PromotedTags, Trim;
    var found := FindDraft(t.drafts, draw.staging, req.draftId);
    PromotedTagsAre(draw.tags, true);
    if found.Some? {
      TakenIff(t.rows, req.corpusId, found.value.body);
      hide ExactDuplicate, IsTaken;
      assert Listable(t.files, draw.listing) <==>
             forall p :: p in draw.listing ==> p in t.files && ReadNote(t.files[p]).Some? by {
        assert forall i :: 0 <= i < |draw.listing| ==> draw.listing[i] in draw.listing;
      }
    }
  }

  lemma TakenIff(rows: map<string, NoteRow>, corpusId: string, body: string)
    ensures ExactDuplicate(rows, corpusId, body) <==> IsTaken(rows, corpusId, body)
  {
    if ExactDuplicate(rows, corpusId, body) {
      var id :| id in rows && rows[id].corpusId == corpusId && rows[id].lifecycle != STATUS_SUPERSEDED &&
        rows[id].contentHash == Some(body);
      assert HoldsText(rows[id], corpusId, body);
    }
    if IsTaken(rows, corpusId, body) {
      var id :| id in rows && HoldsText(rows[id], corpusId, body);
    }
  }

  /** On a sound vault, where every file can be read, a promotion is planned exactly when its draft is found and valid,
      no note of the corpus that still stands holds its text, and it may be made current where it is to be. */
  lemma PlannedIff(v: Vault, chunker: Chunker, req: Request, draw: Draw)
    requires VaultInv(v, chunker) && Allowed(v.tables, Promote(req, draw))
    ensures var found := FindDraft(v.tables.drafts, draw.staging, req.draftId);
            Plan(v.tables, req, draw).Some? <==>
              && found.Some? && draw.valid && !IsTaken(v.tables.rows, req.corpusId, found.value.body)
              && (req.asCurrent ==> MayBeCurrent(req, draw))
  {
    hide Plan, FindDraft, IsTaken, RelationInv, RowsInv, DraftsInv, IndexInv, KeyedTable, FilesOk, ReadNote, Allowed,
         ListingOk;
    PlanIff(v.tables, req, draw);
    AllowedParts(v.tables, req, draw);
    ListedFilesRead(v.tables.files, req.corpusId, draw.listing);
  }

  lemma ListedFilesRead(files: Files, corpusId: string, listing: seq<string>)
    requires FilesOk(files) && ListingOk(files, corpusId, listing)
    ensures forall p :: p in listing ==> p in files && ReadNote(files[p]).Some?
  {
    hide ReadNote, Sound, StartsWith, IsSnapshotId, IsSnapshotPath;
    forall p | p in listing ensures p in files && ReadNote(files[p]).Some? {
      assert FileOk(p, files[p]);
      SoundIsRead(files[p]);
    }
  }

  // ----- What has been replaced -----

  lemma ReplacedAreFound(cards: Cards, e: Change, cards': Cards)
    requires Shape(cards) && Lawful(cards, e) && Leads(cards, e, cards')
    ensures forall p :: Replaced(cards, cards', p) <==> p in e.replaced
    ensures forall id :: id in e.canonical.supersedes <==> ReplacedId(cards, cards', id)
  {
    forall p | Replaced(cards, cards', p) ensures p in e.replaced {
      assert WellKept(cards[p]);
    }
  }

  // ----- The run -----

  lemma EventWhenFiled(p: Payload, chunker: Chunker, t: Tables, t': Tables)
    requires Filed(p, chunker, t, t')
    ensures t'.events.Keys == t.events.Keys + {p.decision.eventId} && t'.events[p.decision.eventId] == p.decision
    ensures forall id :: id in t.events && id != p.decision.eventId ==> t'.events[id] == t.events[id]
  {
    hide RowOfNote, RowOfDraft, InsertChunks, ChunksOf, FullTextOf;
    assert View(t', EventCell(p.decision.eventId)) == EventIs(p.decision);
    forall id | id != p.decision.eventId
      ensures (id in t'.events <==> id in t.events) && (id in t.events ==> t'.events[id] == t.events[id])
    {
      assert !PromotionEffects.Writes(p, EventCell(id));
      assert View(t', EventCell(id)) == View(t, EventCell(id));
    }
  }

  lemma EventResult(v: Vault, chunker: Chunker, req: Request, draw: Draw, draft: Draft, e: Effect)
    requires Ready(v, chunker, req, draw) && FindDraft(v.tables.drafts, draw.staging, req.draftId) == Some(draft)
    requires IsEffect(v.tables, req, draw, e) && NewCards(v.tables.files, req, draw, e)
    requires Filed(PayloadOf(v, req, draw), chunker, v.tables, TablesAfter(v, chunker, req, draw))
    requires Lawful(CardsOf(v.tables.files), ChangeOf(e))
    requires Leads(CardsOf(v.tables.files), ChangeOf(e), CardsOf(TablesAfter(v, chunker, req, draw).files))
    ensures EventIsRecorded(v.tables, TablesAfter(v, chunker, req, draw), draw, draft.noteId)
    ensures TablesAfter(v, chunker, req, draw).events[draw.outboxId].supersededIds ==
              IdsOf(NotesAt(v.tables.files, e.found))
  {
    hide Plan, Program, Run, IsEffect, NewCards, Filed, Lawful, Leads, CardsOf, WrittenCard, FindDraft, Mirror,
         Closed, Ranked, RowsInv, DraftsInv, IndexInv, FilesOk, KeyedTable, GoodChunker, Allowed, Shape, ReplacedId,
         IdsOf, NotesAt;
    var t := v.tables;
    PlanOfDraft(t, req, draw, draft);
    IdsOfPlan(t, req, draw, e);
    EventWhenFiled(PayloadOf(v, req, draw), chunker, t, TablesAfter(v, chunker, req, draw));
    ReplacedAreFound(CardsOf(t.files), ChangeOf(e), CardsOf(TablesAfter(v, chunker, req, draw).files));
    NewCardParts(t, req, draw, e);
  }

  lemma DraftResult(v: Vault, chunker: Chunker, req: Request, draw: Draw, draft: Draft)
    requires Ready(v, chunker, req, draw) && FindDraft(v.tables.drafts, draw.staging, req.draftId) == Some(draft)
    requires Filed(PayloadOf(v, req, draw), chunker, v.tables, TablesAfter(v, chunker, req, draw))
    ensures DraftIsPromoted(TablesAfter(v, chunker, req, draw), draft, draw.today)
    ensures DraftRowIsPromoted(TablesAfter(v, chunker, req, draw), draft, draw.today)
  {
    hide Plan, Program, Run, Filed, CardsOf, FindDraft, RelationInv, RowsInv, IndexInv, FilesOk, KeyedTable,
         GoodChunker, Allowed, Readable, Plain, ReadDraft, DraftIsPromoted, DraftRowIsPromoted, PersistedDraft,
         RowOfDraft, BodyAsRead, IsSnapshotId, IsSnapshotPath, NoFileOf;
    var t, t' := v.tables, TablesAfter(v, chunker, req, draw);
    PlanOfDraft(t, req, draw, draft);
    AllowedParts(t, req, draw);
    DraftIsKnown(t, draw.staging, req.draftId);
    DraftWhenFiled(PayloadOf(v, req, draw), chunker, t, t');
    assert DraftOk(t, draft.path);
    var path := FoundDraftIsReadable(t.drafts, draw.staging, req.draftId);
    DraftAsRead(t.drafts[path]);
    PromotedDraftReads(draft, draw.today, t');
  }

  lemma CanonicalIsPromotion(req: Request, draw: Draw, draft: Draft, ids: seq<string>)
    ensures IsPromotion(CanonicalNote(req, draw, draft, ids), req, draw, draft, ids)
  {
    hide Trim, PromotedTags, TagAfter;
    PromotedTagsAre(draw.tags, req.asCurrent);
  }

  lemma NoteResult(v: Vault, chunker: Chunker, req: Request, draw: Draw, draft: Draft, e: Effect)
    requires Ready(v, chunker, req, draw) && FindDraft(v.tables.drafts, draw.staging, req.draftId) == Some(draft)
    requires IsEffect(v.tables, req, draw, e) && Planned(v.tables, PayloadOf(v, req, draw), e)
    requires Filed(PayloadOf(v, req, draw), chunker, v.tables, TablesAfter(v, chunker, req, draw))
    requires var event := TablesAfter(v, chunker, req, draw).events;
             draw.outboxId in event && event[draw.outboxId].supersededIds == IdsOf(NotesAt(v.tables.files, e.found))
    ensures NoteIsPromoted(TablesAfter(v, chunker, req, draw), req, draw, draft)
  {
    hide Plan, Program, Run, Filed, CardsOf, FindDraft, FindSuperseded, RelationInv, RowsInv, DraftsInv, IndexInv,
         FilesOk, KeyedTable, GoodChunker, Allowed, Writable, IsSnapshot, AllRewrite, FreshName, SnapshotNote,
         CanonicalNote, IsPromotion, IdsOf, NotesAt;
    var t, t', p := v.tables, TablesAfter(v, chunker, req, draw), PayloadOf(v, req, draw);
    var n := |e.found|;
    WrittenFile(p, chunker, t, t', n);
    CanonicalParts(req, draw, draft, IdsOf(NotesAt(t.files, e.found)));
    CanonicalIsPromotion(req, draw, draft, IdsOf(NotesAt(t.files, e.found)));
  }

  lemma RetiredResult(v: Vault, chunker: Chunker, req: Request, draw: Draw, e: Effect, q: string)
    requires Ready(v, chunker, req, draw) && q in e.found
    requires IsEffect(v.tables, req, draw, e) && Planned(v.tables, PayloadOf(v, req, draw), e)
    requires Filed(PayloadOf(v, req, draw), chunker, v.tables, TablesAfter(v, chunker, req, draw))
    ensures NoteIsRetired(v.tables, TablesAfter(v, chunker, req, draw), draw, q)
  {
    hide Plan, Program, Run, Filed, CardsOf, IsEffect, RelationInv, RowsInv, DraftsInv, IndexInv, FilesOk, KeyedTable,
         GoodChunker, Allowed, Writable, IsSnapshot, IsNew, SupersededTags, TagAfter, ReadNote, WrittenCard;
    var t, t', p := v.tables, TablesAfter(v, chunker, req, draw), PayloadOf(v, req, draw);
    var i :| 0 <= i < |e.found| && e.found[i] == q;
    RetiredByPlan(t, req, draw, e, i);
    assert Rewrites(t.files, e.found[i], p.writes[i], e.canonical.noteId);
    WrittenFile(p, chunker, t, t', i);
    RetiredTagsAre(NoteAt(t.files, q).frontmatter.tags);
  }

  /** After a promotion, planned and processed to its end: the draft is closed in its file and its row; the event names
      the draft, the new note and exactly the notes that were current and are superseded now; the new note holds the
      draft's text; and each replaced file holds what was read from it, marked as superseded. */
  lemma PromotionLeaves(v: Vault, chunker: Chunker, req: Request, draw: Draw, draft: Draft)
    requires Ready(v, chunker, req, draw) && FindDraft(v.tables.drafts, draw.staging, req.draftId) == Some(draft)
    ensures var t, t' := v.tables, Act(v, Promote(req, draw), chunker).tables;
            && DraftIsPromoted(t', draft, draw.today) && DraftRowIsPromoted(t', draft, draw.today)
            && EventIsRecorded(t, t', draw, draft.noteId)
            && NoteIsPromoted(t', req, draw, draft)
            && forall p :: Replaced(CardsOf(t.files), CardsOf(t'.files), p) ==> NoteIsRetired(t, t', draw, p)
  {
    hide Plan, Program, Run, FilesOk, Mirror, Closed, Ranked, Shape, RowsInv, DraftsInv, IndexInv, Lawful, Leads,
         Filed, CardsOf, WrittenCard, PayloadOk, Waits, GoodChunker, IsEffect, NewCards, Planned, Allowed, KeyedTable,
         DraftIsPromoted, DraftRowIsPromoted, EventIsRecorded, NoteIsPromoted, NoteIsRetired, Replaced, FindDraft,
         IdsOf, NotesAt;
    var t, t' := v.tables, TablesAfter(v, chunker, req, draw);
    var e := PromotionLeads(v, chunker, req, draw);
    DraftResult(v, chunker, req, draw, draft);
    EventResult(v, chunker, req, draw, draft, e);
    assert draw.outboxId in t'.events by { EventNamed(t, t', draw, draft.noteId); }
    NoteResult(v, chunker, req, draw, draft, e);
    ReplacedAreFound(CardsOf(t.files), ChangeOf(e), CardsOf(t'.files));
    forall p | Replaced(CardsOf(t.files), CardsOf(t'.files), p) ensures NoteIsRetired(t, t', draw, p) {
      RetiredResult(v, chunker, req, draw, e, p);
    }
  }

  lemma EventNamed(t: Tables, t': Tables, draw: Draw, draftId: string)
    requires EventIsRecorded(t, t', draw, draftId)
    ensures draw.outboxId in t'.events
  {
  }

  // ----- Rows -----

  /** The row shows the record last written to a note's file. */
  ghost predicate RowShows(row: NoteRow, note: Note) {
    var f := note.frontmatter;
    && row.noteId == note.noteId && row.corpusId == note.corpusId && row.path == note.path
    && row.noteType == f.noteType && row.lifecycle == f.status && row.updated == f.updated
    && row.currentState == f.currentState && row.validFrom == f.validFrom && row.validUntil == f.validUntil
    && row.summary == f.summary && row.scope == f.scope && (forall tag :: tag in row.tags <==> tag in f.tags)
    && row.contentHash == Some(note.body) && row.semanticSignature == Some((f.title, f.summary, f.scope))
  }

  lemma RowsShowNotes(v: Vault, chunker: Chunker, p: string)
    requires VaultInv(v, chunker) && p in v.tables.files
    ensures v.tables.files[p].noteId in v.tables.rows
    ensures RowShows(v.tables.rows[v.tables.files[p].noteId], v.tables.files[p])
  {
    hide RelationInv, RowsInv, DraftsInv, IndexInv, FilesOk, KeyedTable, CardsOf;
    FileHasRow(v.tables, chunker, p);
  }

  /** A text that has just been promoted is not promoted again in its corpus, whichever draft it comes in. */
  lemma DuplicateIsRefused(v: Vault, chunker: Chunker, req: Request, draw: Draw, draft: Draft, again: Request,
                           later: Draw)
    requires Ready(v, chunker, req, draw) && FindDraft(v.tables.drafts, draw.staging, req.draftId) == Some(draft)
    requires again.corpusId == req.corpusId
    ensures var t' := Act(v, Promote(req, draw), chunker).tables;
            var other := FindDraft(t'.drafts, later.staging, again.draftId);
            other.Some? && other.value.body == draft.body ==> Plan(t', again, later).None?
  {
    hide Act, FindDraft, VaultInv, GoodChunker, Allowed, FindSuperseded, PayloadFor, Listable, NotesAt,
         DraftIsPromoted, DraftRowIsPromoted, EventIsRecorded, CardsOf, Ready, ReadDraft, StateTags;
    var v' := Act(v, Promote(req, draw), chunker);
    PromotionLeaves(v, chunker, req, draw, draft);
    PromoteKeepsInv(v, chunker, req, draw);
    RowsShowNotes(v', chunker, draw.path);
    var other := FindDraft(v'.tables.drafts, later.staging, again.draftId);
    if other.Some? && other.value.body == draft.body {
      assert STATUS_PROMOTED != STATUS_SUPERSEDED;
      assert ExactDuplicate(v'.tables.rows, again.corpusId, other.value.body);
    }
  }
}
