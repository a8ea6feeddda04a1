/** Runs from the empty vault that end with two current notes under one key. */
module TwoCurrent {
  import opened Domain
  import opened FrontmatterRoundTrip
  import opened Keys
  import opened Planning
  import opened Promotion
  import opened PromotionEffects
  import opened Reading
  import opened Replay
  import opened SerialRuns
  import opened StaleReplay
  import opened Stores
  import opened Supersession
  import opened Text
  import opened VaultNotes
  import opened VaultRuns
  import Codec = FrontmatterCodec

  const DRAFT_1 := "draft-1"
  const DRAFT_2 := "draft-2"
  const NOTE_1 := "note-1"
  const NOTE_2 := "note-2"

  function PathOf(name: string): string {
    CONTEXT_BRAIN + "/" + (name + ".md")
  }

  /** One of the four names and paths of the runs below. */
  predicate IsName(name: string) {
    name == DRAFT_1 || name == DRAFT_2 || name == NOTE_1 || name == NOTE_2
  }

  lemma NamesAreOrdinary(name: string)
    requires IsName(name)
    ensures Plain(name) && !IsSnapshotId(name) && !IsSnapshotPath(PathOf(name)) &&
              StartsWith(PathOf(name), CONTEXT_BRAIN + "/")
  {
    assert name[0] == 'd' || name[0] == 'n';
    assert SNAPSHOT_ROOT[14] == 'c' && PathOf(name)[14] == name[0];
  }

  lemma PathsDiffer(a: string, b: string)
    ensures PathOf(a) == PathOf(b) <==> a == b
  {
    assert PathOf(a)[14..|PathOf(a)| - 3] == a && PathOf(b)[14..|PathOf(b)| - 3] == b;
  }

  /** What the two promotions have in common, and the bodies of the two drafts. */
  datatype Setting = Setting(today: string, tags: seq<string>, body1: string, body2: string)

  predicate Proper(s: Setting) {
    && Plain(s.today) && TAG_SNAPSHOT !in s.tags
    && BodyAsRead(s.body1) != BodyAsRead(s.body2)
    && (BodyAsRead(s.body2) != "" ==> BodyAsRead(s.body2)[0] != '#')
  }

  function DraftOf(name: string, f: Frontmatter, body: string): Draft {
    Draft(name, CONTEXT_BRAIN, PathOf(name), STATUS_DRAFT, f.(noteId := name), body)
  }

  function RequestFor(draft: string): Request {
    Request(draft, CONTEXT_BRAIN, true)
  }

  function DrawFor(s: Setting, note: string, draft: string, listing: seq<string>): Draw {
    Draw(note, PathOf(note), note, s.today, s.today, true, s.tags, [PathOf(draft)], listing)
  }

  // ----- A promotion goes through -----

  lemma {:induction false} ListingOf(paths: set<string>) returns (listing: seq<string>)
    ensures forall p :: p in listing <==> p in paths
    ensures forall i, j :: 0 <= i < j < |listing| ==> listing[i] != listing[j]
    decreases paths
  {
    if paths == {} {
      listing := [];
    } else {
      var p :| p in paths;
      var rest := ListingOf(paths - {p});
      listing := [p] + rest;
    }
  }

  lemma SnapshotTagStaysOut(tags: seq<string>)
    requires TAG_SNAPSHOT !in tags
    ensures TAG_SNAPSHOT !in PromotedTags(tags, true)
  {
  }

  lemma FilesAreListable(files: Files, listing: seq<string>)
    requires FilesOk(files) && forall p :: p in listing ==> p in files
    ensures Listable(files, listing)
  {
    hide ReadNote, Sound;
    forall i | 0 <= i < |listing| ensures CanRead(files, listing[i]) {
      assert listing[i] in listing;
      assert FileOk(listing[i], files[listing[i]]);
      SoundIsRead(files[listing[i]]);
    }
  }

  lemma PayloadIsThere(req: Request, draw: Draw, draft: Draft, replaced: seq<Note>)
    requires req.corpusId == CONTEXT_BRAIN && req.asCurrent && TAG_SNAPSHOT !in draw.tags
    ensures PayloadFor(req, draw, draft, replaced).Some?
  {
    hide SnapshotNote, Retire, IdsOf, Trim, NonBlank, PromotedTags;
    SnapshotTagStaysOut(draw.tags);
  }

  lemma DraftIsFound(v: Vault, draft: Draft)
    requires draft.path in v.tables.drafts && v.tables.drafts[draft.path] == draft
    requires Readable(draft.frontmatter) && draft.frontmatter.noteId == draft.noteId && Plain(draft.noteId)
    ensures ReadDraft(draft).Some? && ReadDraft(draft).value.noteId == draft.noteId
    ensures ReadDraft(draft).value.frontmatter == WrittenBack(draft.frontmatter)
    ensures ReadDraft(draft).value.body == BodyAsRead(draft.body)
    ensures FindDraft(v.tables.drafts, [draft.path], draft.noteId) == ReadDraft(draft)
  {
    hide ReadDraft, Readable, Plain, BodyAsRead;
    DraftAsRead(draft);
    PlainIsKept(draft.noteId);
  }

  /** A staged draft can be promoted under a fresh name unless its body is there already. */
  lemma PromotionIsReady(v: Vault, chunker: Chunker, draft: Draft, s: Setting, note: string, draw: Draw)
    requires VaultInv(v, chunker) && GoodChunker(chunker)
    requires draft.path in v.tables.drafts && v.tables.drafts[draft.path] == draft && IsName(draft.noteId)
    requires draft.path == PathOf(draft.noteId) && Readable(draft.frontmatter) &&
               draft.frontmatter.noteId == draft.noteId
    requires Proper(s) && IsName(note) && FreshName(v.tables, note, PathOf(note))
    requires draw == DrawFor(s, note, draft.noteId, draw.listing) &&
               ListingOk(v.tables.files, CONTEXT_BRAIN, draw.listing)
    requires !ExactDuplicate(v.tables.rows, CONTEXT_BRAIN, BodyAsRead(draft.body))
    ensures Ready(v, chunker, RequestFor(draft.noteId), draw)
    ensures FindDraft(v.tables.drafts, draw.staging, draft.noteId) == ReadDraft(draft)
  {
    hide ReadDraft, FindDraft, Plain, VaultInv, GoodChunker, PathOf, Readable, Allowed, Plan, BodyAsRead,
         ExactDuplicate, Proper;
    NamesAreOrdinary(draft.noteId);
    DraftIsFound(v, draft);
    PromotionIsAllowed(v, RequestFor(draft.noteId), s, note, draft.noteId, draw);
    PromotionIsPlanned(v, chunker, RequestFor(draft.noteId), draw, ReadDraft(draft).value) by {
      hide Ready;
      ProperTags(s);
    }
  }

  lemma ProperTags(s: Setting)
    requires Proper(s)
    ensures TAG_SNAPSHOT !in s.tags
  {
    hide BodyAsRead, Plain;
  }

  lemma PromotionIsAllowed(v: Vault, req: Request, s: Setting, note: string, name: string, draw: Draw)
    requires Proper(s) && IsName(note) && FreshName(v.tables, note, PathOf(note)) && req.corpusId == CONTEXT_BRAIN
    requires draw == DrawFor(s, note, name, draw.listing) && ListingOk(v.tables.files, CONTEXT_BRAIN, draw.listing)
    ensures Allowed(v.tables, Promote(req, draw))
  {
    hide FreshName, ListingOk, PathOf, StartsWith, Plain, BodyAsRead;
    NamesAreOrdinary(note);
  }

  lemma PromotionIsPlanned(v: Vault, chunker: Chunker, req: Request, draw: Draw, draft: Draft)
    requires VaultInv(v, chunker) && req.corpusId == CONTEXT_BRAIN && req.asCurrent && draw.valid &&
               TAG_SNAPSHOT !in draw.tags
    requires FindDraft(v.tables.drafts, draw.staging, req.draftId) == Some(draft)
    requires ListingOk(v.tables.files, CONTEXT_BRAIN, draw.listing)
    requires !ExactDuplicate(v.tables.rows, CONTEXT_BRAIN, draft.body)
    ensures Plan(v.tables, req, draw).Some?
  {
    hide FindDraft, FindSuperseded, PayloadFor, RelationInv, RowsInv, DraftsInv, IndexInv, KeyedTable, StartsWith,
         FilesOk, ExactDuplicate, NotesAt, Listable, CanRead;
    FilesAreListable(v.tables.files, draw.listing);
    var found := FindSuperseded(v.tables.files, draw.listing, draft.frontmatter);
    PayloadIsThere(req, draw, draft, NotesAt(v.tables.files, found));
  }

  // ----- Two drafts, no notes -----

  /** The vault holds these two drafts and nothing else. */
  ghost predicate Staged(v: Vault, d1: Draft, d2: Draft) {
    && v.tables.files == map[]
    && v.tables.drafts == map[d1.path := d1, d2.path := d2]
    && v.tables.rows.Keys == {DRAFT_1, DRAFT_2}
    && (forall id :: id in v.tables.rows ==>
         v.tables.rows[id].path == PathOf(id) && v.tables.rows[id].contentHash.None?)
    && d1.noteId == d1.frontmatter.noteId == DRAFT_1 && d1.path == PathOf(DRAFT_1)
    && d2.noteId == d2.frontmatter.noteId == DRAFT_2 && d2.path == PathOf(DRAFT_2)
    && Readable(d1.frontmatter) && Readable(d2.frontmatter)
  }

  lemma NotesAreFresh(v: Vault, d1: Draft, d2: Draft, note: string)
    requires Staged(v, d1, d2) && (note == NOTE_1 || note == NOTE_2)
    ensures FreshName(v.tables, note, PathOf(note))
  {
    hide Plain, IsSnapshotId, IsSnapshotPath, PathOf, Readable;
    assert NOTE_1[0] == 'n' && NOTE_2[0] == 'n' && DRAFT_1[0] == 'd' && DRAFT_2[0] == 'd';
    NamesAreOrdinary(note);
    PathsDiffer(note, DRAFT_1);
    PathsDiffer(note, DRAFT_2);
  }

  lemma StagedIsReady(v: Vault, chunker: Chunker, d1: Draft, d2: Draft, s: Setting, first: bool, note: string)
    requires VaultInv(v, chunker) && GoodChunker(chunker) && Staged(v, d1, d2) && Proper(s)
    requires note == NOTE_1 || note == NOTE_2
    ensures var d := if first then d1 else d2;
            var draw := DrawFor(s, note, d.noteId, []);
            && Ready(v, chunker, RequestFor(d.noteId), draw)
            && FindDraft(v.tables.drafts, draw.staging, d.noteId) == ReadDraft(d)
  {
    hide ReadDraft, FindDraft, Readable, Plain, VaultInv, GoodChunker, PathOf, Ready, FreshName, Proper, BodyAsRead;
    assert DRAFT_1[6] != DRAFT_2[6];
    PathsDiffer(DRAFT_1, DRAFT_2);
    NotesAreFresh(v, d1, d2, note);
    var d := if first then d1 else d2;
    PromotionIsReady(v, chunker, d, s, note, DrawFor(s, note, d.noteId, []));
  }

  // ----- The first promotion, then the second -----

  /** After the first promotion its note is the only current one, under the key that its file shows. */
  lemma FirstPromotion(v: Vault, chunker: Chunker, d1: Draft, d2: Draft, s: Setting, first: bool, note: string)
    requires VaultInv(v, chunker) && GoodChunker(chunker) && Staged(v, d1, d2) && Proper(s)
    requires note == NOTE_1 || note == NOTE_2
    ensures var d := if first then d1 else d2;
            var v' := Act(v, Promote(RequestFor(d.noteId), DrawFor(s, note, d.noteId, [])), chunker);
            var cards := CardsOf(v'.tables.files);
            && VaultInv(v', chunker) && OneCurrent(cards)
            && PathOf(note) in cards && cards[PathOf(note)].current
            && cards[PathOf(note)].key == KeyAsRead(CONTEXT_BRAIN, WrittenBack(d.frontmatter))
            && (forall p :: p in cards && p != PathOf(note) ==> !cards[p].current)
  {
    hide VaultInv, CardsOf, Ready, GoodChunker, KeyAsRead, FindDraft, ReadDraft, Readable, PathOf, Proper, OneCurrent,
         BodyAsRead, Act, WrittenBack;
    var d := if first then d1 else d2;
    var req, draw := RequestFor(d.noteId), DrawFor(s, note, d.noteId, []);
    StagedIsReady(v, chunker, d1, d2, s, first, note);
    StagedDraftIsFound(v, d1, d2, first);
    ReadyIsPlanned(v, chunker, req, draw);
    PromoteKeepsInv(v, chunker, req, draw);
    PromotionOnEmpty(v, chunker, req, draw, ReadDraft(d).value);
  }

  /** A promotion on a vault without notes. */
  lemma PromotionOnEmpty(v: Vault, chunker: Chunker, req: Request, draw: Draw, draft: Draft)
    requires Ready(v, chunker, req, draw) && v.tables.files == map[] && req.asCurrent
    requires FindDraft(v.tables.drafts, draw.staging, req.draftId) == Some(draft)
    ensures var cards := CardsOf(Act(v, Promote(req, draw), chunker).tables.files);
            && OneCurrent(cards) && draw.path in cards && cards[draw.path].current
            && cards[draw.path].key == KeyAsRead(req.corpusId, draft.frontmatter)
            && (forall p :: p in cards && p != draw.path ==> !cards[p].current)
  {
    hide Plan, Program, Run, VaultInv, Lawful, Leads, Filed, CardsOf, FilesOk, Ready, IsEffect, NewCards, PayloadOk,
         Waits, GoodChunker, Planned, FindDraft, OneCurrent, ChangeOf, WrittenCard, KeyAsRead;
    ReadyIsPlanned(v, chunker, req, draw);
    var e := PromotionLeads(v, chunker, req, draw);
    HasDraft(v.tables, req, draw, e);
    NoCards();
    EffectOnEmpty(v.tables, req, draw, draft, e, CardsOf(TablesAfter(v, chunker, req, draw).files));
  }

  lemma EffectOnEmpty(t: Tables, req: Request, draw: Draw, draft: Draft, e: Effect, cards: Cards)
    requires IsEffect(t, req, draw, e) && NewCards(t.files, req, draw, e)
    requires FindDraft(t.drafts, draw.staging, req.draftId) == Some(draft)
    requires Leads(map[], ChangeOf(e), cards) && req.asCurrent
    ensures OneCurrent(cards) && draw.path in cards && cards[draw.path].current
    ensures cards[draw.path].key == KeyAsRead(req.corpusId, draft.frontmatter)
    ensures forall p :: p in cards && p != draw.path ==> !cards[p].current
  {
    hide Leads, WrittenCard, FindDraft, OneCurrent, KeyAsRead, WellKept, NewCards;
    NewCardParts(t, req, draw, e);
    HasDraft(t, req, draw, e);
    if e.snapshot.Some? {
      SnapshotIsNotCurrent(WrittenCard(e.snapshot.value));
    }
    OnEmptyCards(ChangeOf(e), cards);
  }

  lemma ReadyIsPlanned(v: Vault, chunker: Chunker, req: Request, draw: Draw)
    requires Ready(v, chunker, req, draw)
    ensures Plan(v.tables, req, draw).Some?
  {
    hide VaultInv, GoodChunker, Allowed, Plan;
  }

  lemma SnapshotIsNotCurrent(card: Card)
    requires WellKept(card) && card.isSnapshot
    ensures !card.current
  {
  }

  lemma NoCards()
    ensures CardsOf(map[]) == map[]
  {
  }

  /** On an empty vault the new note is the only current one. */
  lemma OnEmptyCards(e: Change, cards: Cards)
    requires Leads(map[], e, cards) && (e.snapshot.Some? ==> !e.snapshot.value.current)
    ensures e.path in cards && cards[e.path] == e.canonical && OneCurrent(cards)
    ensures forall p :: p in cards && p != e.path ==> !cards[p].current
  {
  }

  lemma StagedDraftIsFound(v: Vault, d1: Draft, d2: Draft, first: bool)
    requires Staged(v, d1, d2)
    ensures var d := if first then d1 else d2;
            && ReadDraft(d).Some? && ReadDraft(d).value.frontmatter == WrittenBack(d.frontmatter)
            && ReadDraft(d).value.body == BodyAsRead(d.body)
  {
    hide ReadDraft, FindDraft, Readable, Plain, PathOf, BodyAsRead;
    assert DRAFT_1[6] != DRAFT_2[6];
    PathsDiffer(DRAFT_1, DRAFT_2);
    var d := if first then d1 else d2;
    NamesAreOrdinary(d.noteId);
    DraftIsFound(v, d);
  }

  lemma NoDuplicateAfter(t: Tables, chunker: Chunker, p: Payload, t': Tables, corpusId: string, body: string)
    requires Filed(p, chunker, t, t') && forall i :: 0 <= i < |p.writes| ==> p.writes[i].body != body
    requires forall id :: id in t.rows ==> t.rows[id].contentHash.None?
    ensures !ExactDuplicate(t'.rows, corpusId, body)
  {
    hide Filed;
    forall id | id in t'.rows ensures t'.rows[id].contentHash != Some(body) {
      if i :| 0 <= i < |p.writes| && p.writes[i].noteId == id {
        RowWhenFiled(p, chunker, t, t', i);
      } else if id == p.draft.noteId {
        DraftWhenFiled(p, chunker, t, t');
      } else {
        OtherRowWhenFiled(p, chunker, t, t', id);
      }
    }
  }

  lemma SnapshotBodyStarts(note: Note)
    ensures SnapshotBody(note) != "" && SnapshotBody(note)[0] == '#'
  {
    var f := note.frontmatter;
    var rest := ["", f.summary, "", "## Details", "",
      "- Canonical note: " + note.path, "- Canonical note ID: " + note.noteId, "- Note type: " + f.noteType,
      "- Scope: " + f.scope, "- Updated: " + f.updated, "- Project: " + f.project, "", "## Sources", "",
          "- " + note.path];
    assert SnapshotBody(note) == Join(["## Summary"] + rest, "\n");
    assert (["## Summary"] + rest)[1..] == rest;
    assert SnapshotBody(note) == "## Summary" + "\n" + Join(rest, "\n");
  }

  /** The bodies of the notes that the first promotion writes: that of the draft, and one that starts with a heading. */
  lemma FirstBodies(t: Tables, req: Request, draw: Draw, e: Effect)
    requires IsEffect(t, req, draw, e) && t.files == map[]
    ensures e.found == [] && e.canonical.body == e.draft.body
    ensures e.snapshot.Some? ==> e.snapshot.value.body != "" && e.snapshot.value.body[0] == '#'
  {
    hide FindDraft, FindSuperseded, SnapshotNote, CanonicalNote, NotesAt, IdsOf, CanRead;
    NoneFound(t, req, draw, e);
    CanonicalParts(req, draw, e.draft, IdsOf(NotesAt(t.files, e.found)));
    SnapshotHasBody(e.canonical);
    SnapshotBodyStarts(e.canonical);
  }

  lemma NoneFound(t: Tables, req: Request, draw: Draw, e: Effect)
    requires IsEffect(t, req, draw, e) && t.files == map[]
    ensures e.found == []
  {
    hide FindDraft, FindSuperseded, CanonicalNote, SnapshotNote, ReadNote, Matches, NotesAt, IdsOf, NoteAt, CanRead;
    NothingToFind(draw.listing, e.draft.frontmatter);
  }

  lemma {:induction false} NothingToFind(listing: seq<string>, source: Frontmatter)
    ensures FindSuperseded(map[], listing, source) == []
  {
    hide ReadNote, Matches;
    if listing != [] {
      NothingToFind(listing[1..], source);
    }
  }

  lemma SnapshotHasBody(note: Note)
    ensures SnapshotNote(note).body == SnapshotBody(note)
  {
    hide SnapshotBody, SnapshotTags, SnapshotPath, Trim;
  }

  lemma OtherBodies(t: Tables, p: Payload, e: Effect, body: string)
    requires Planned(t, p, e) && e.found == [] && e.canonical.body != body && (body != "" ==> body[0] != '#')
    requires e.snapshot.Some? ==> e.snapshot.value.body != "" && e.snapshot.value.body[0] == '#'
    ensures forall i :: 0 <= i < |p.writes| ==> p.writes[i].body != body
  {
    hide AllRewrite, IsNew, IsSnapshot;
  }

  /** The second draft is untouched by the first promotion and can be promoted after it. */
  lemma SecondIsReady(v: Vault, chunker: Chunker, d1: Draft, d2: Draft, s: Setting, listing: seq<string>)
    requires VaultInv(v, chunker) && GoodChunker(chunker) && Staged(v, d1, d2) && Proper(s)
    requires BodyAsRead(d1.body) == BodyAsRead(s.body1) && BodyAsRead(d2.body) == BodyAsRead(s.body2)
    requires var v' := Act(v, Promote(RequestFor(DRAFT_1), DrawFor(s, NOTE_1, DRAFT_1, [])), chunker);
             ListingOk(v'.tables.files, CONTEXT_BRAIN, listing)
    ensures var v' := Act(v, Promote(RequestFor(DRAFT_1), DrawFor(s, NOTE_1, DRAFT_1, [])), chunker);
            var draw := DrawFor(s, NOTE_2, DRAFT_2, listing);
            && Ready(v', chunker, RequestFor(DRAFT_2), draw)
            && FindDraft(v'.tables.drafts, draw.staging, DRAFT_2) == ReadDraft(d2)
  {
    hide Plan, Program, Run, VaultInv, Lawful, Leads, Filed, CardsOf, WrittenCard, FilesOk, Ready, IsEffect, NewCards,
         ExactDuplicate, PayloadOk, Waits, GoodChunker, Planned, KeyAsRead, FindDraft, ReadDraft, Readable, PathOf,
         BodyAsRead, FreshName, Plain, ListingOk;
    var req, draw := RequestFor(DRAFT_1), DrawFor(s, NOTE_1, DRAFT_1, []);
    StagedIsReady(v, chunker, d1, d2, s, true, NOTE_1);
    StagedDraftIsFound(v, d1, d2, true);
    ReadyIsPlanned(v, chunker, req, draw);
    var e := PromotionLeads(v, chunker, req, draw);
    HasDraft(v.tables, req, draw, e);
    PromoteKeepsInv(v, chunker, req, draw);
    var t, t', p := v.tables, TablesAfter(v, chunker, req, draw), PayloadOf(v, req, draw);
    FirstBodies(t, req, draw, e);
    OtherBodies(t, p, e, BodyAsRead(d2.body));
    NoDuplicateAfter(t, chunker, p, t', CONTEXT_BRAIN, BodyAsRead(d2.body));
    NameStaysFree(v, chunker, d1, d2, p, e, t');
    DraftStays(v, chunker, d1, d2, p, e, t');
    PromotionIsReady(Act(v, Promote(req, draw), chunker), chunker, d2, s, NOTE_2, DrawFor(s, NOTE_2, DRAFT_2, listing));
  }

  lemma NameStaysFree(v: Vault, chunker: Chunker, d1: Draft, d2: Draft, p: Payload, e: Effect, t': Tables)
    requires VaultInv(v, chunker) && Staged(v, d1, d2) && Planned(v.tables, p, e) && Filed(p, chunker, v.tables, t')
    requires e.canonical.noteId == NOTE_1 && e.canonical.path == PathOf(NOTE_1)
    ensures FreshName(t', NOTE_2, PathOf(NOTE_2))
  {
    hide Filed, Planned, RelationInv, IndexInv, FilesOk, RowsInv, DraftsInv, KeyedTable, FreshName, PathOf, Readable;
    RowsOfFiles(v.tables, chunker);
    NotesAreFresh(v, d1, d2, NOTE_2);
    assert NOTE_1[5] != NOTE_2[5];
    PathsDiffer(NOTE_1, NOTE_2);
    FreshStaysFresh(v.tables, chunker, p, e, t', NOTE_2, PathOf(NOTE_2));
  }

  lemma DraftStays(v: Vault, chunker: Chunker, d1: Draft, d2: Draft, p: Payload, e: Effect, t': Tables)
    requires Staged(v, d1, d2) && Planned(v.tables, p, e) && Filed(p, chunker, v.tables, t') &&
               e.draft.noteId == DRAFT_1
    ensures d2.path in t'.drafts && t'.drafts[d2.path] == d2
  {
    hide Filed, PathOf, Readable, AllRewrite, IsNew, IsSnapshot;
    assert DRAFT_1[6] != DRAFT_2[6];
    PathsDiffer(DRAFT_1, DRAFT_2);
    OtherDraftWhenFiled(p, chunker, v.tables, t', d2.path);
  }

  // ----- Whole runs -----

  function Promotions(s: Setting, listing: seq<string>): seq<Action> {
    [Promote(RequestFor(DRAFT_1), DrawFor(s, NOTE_1, DRAFT_1, [])),
     Promote(RequestFor(DRAFT_2), DrawFor(s, NOTE_2, DRAFT_2, listing))]
  }

  /** Two actions, one after the other. */
  lemma TwoActions(v: Vault, a: Action, b: Action, chunker: Chunker)
    ensures RunActions(v, [a, b], chunker) == Act(Act(v, a, chunker), b, chunker)
    ensures AllowedRun(v, [a, b], chunker) <==> Allowed(v.tables, a) && Allowed(Act(v, a, chunker).tables, b)
  {
    hide Act, Allowed;
    assert [a, b][1..] == [b] && [b][1..] == [];
    var w := Act(v, a, chunker);
    assert RunActions(w, [b], chunker) == RunActions(Act(w, b, chunker), [], chunker);
    assert AllowedRun(w, [b], chunker) == (Allowed(w.tables, b) && AllowedRun(Act(w, b, chunker), [], chunker));
  }

  lemma {:induction false} RunsAppend(v: Vault, a: seq<Action>, b: seq<Action>, chunker: Chunker)
    ensures RunActions(v, a + b, chunker) == RunActions(RunActions(v, a, chunker), b, chunker)
    ensures AllowedRun(v, a + b, chunker) <==>
              AllowedRun(v, a, chunker) && AllowedRun(RunActions(v, a, chunker), b, chunker)
    decreases |a|
  {
    hide Act, Allowed;
    if a == [] {
      assert a + b == b;
    } else {
      assert (a + b)[0] == a[0] && (a + b)[1..] == a[1..] + b;
      RunsAppend(Act(v, a[0], chunker), a[1..], b, chunker);
    }
  }

  /** Promoting two staged drafts one after the other leaves one current note per key exactly when the first note, as
      its file reads, is no rival of the second or is found under the second draft's own fields. */
  lemma PromotingBothIff(v: Vault, chunker: Chunker, d1: Draft, d2: Draft, s: Setting) returns (listing: seq<string>)
    requires VaultInv(v, chunker) && GoodChunker(chunker) && Staged(v, d1, d2) && Proper(s)
    requires BodyAsRead(d1.body) == BodyAsRead(s.body1) && BodyAsRead(d2.body) == BodyAsRead(s.body2)
    ensures AllowedRun(v, Promotions(s, listing), chunker)
    ensures OneCurrent(CardsOf(RunActions(v, Promotions(s, listing), chunker).tables.files)) <==>
            var first := KeyAsRead(CONTEXT_BRAIN, WrittenBack(d1.frontmatter));
            var f := WrittenBack(d2.frontmatter);
            Rivals(first, KeyAsRead(CONTEXT_BRAIN, f)) ==> Rivals(first, KeyOf(CONTEXT_BRAIN, f))
  {
    hide VaultInv, GoodChunker, Proper, CardsOf, KeyAsRead, KeyOf, Act, Allowed, Ready, FindDraft, ReadDraft, PathOf,
         OneCurrent, WrittenBack, BodyAsRead, Staged, RunActions, AllowedRun, Rivals, Readable;
    var req1, draw1 := RequestFor(DRAFT_1), DrawFor(s, NOTE_1, DRAFT_1, []);
    var v' := Act(v, Promote(req1, draw1), chunker);
    listing := ListingOf(set p | p in v'.tables.files && StartsWith(p, CONTEXT_BRAIN + "/"));
    var req2, draw2 := RequestFor(DRAFT_2), DrawFor(s, NOTE_2, DRAFT_2, listing);
    StagedNames(v, d1, d2);
    StagedIsReady(v, chunker, d1, d2, s, true, NOTE_1);
    StagedDraftIsFound(v, d1, d2, false);
    FirstPromotion(v, chunker, d1, d2, s, true, NOTE_1);
    SecondIsReady(v, chunker, d1, d2, s, listing);
    ReadyIsAllowed(v, chunker, req1, draw1);
    ReadyIsAllowed(v', chunker, req2, draw2);
    TwoActions(v, Promote(req1, draw1), Promote(req2, draw2), chunker);
    PromotionKeepsOneCurrentIff(v', chunker, req2, draw2, ReadDraft(d2).value);
    OnlyRival(CardsOf(v'.tables.files), PathOf(NOTE_1), KeyAsRead(CONTEXT_BRAIN, WrittenBack(d2.frontmatter)),
              KeyOf(CONTEXT_BRAIN, WrittenBack(d2.frontmatter)));
  }

  lemma StagedNames(v: Vault, d1: Draft, d2: Draft)
    requires Staged(v, d1, d2)
    ensures d1.noteId == DRAFT_1 && d2.noteId == DRAFT_2
  {
    hide PathOf, Readable;
  }

  lemma ReadyIsAllowed(v: Vault, chunker: Chunker, req: Request, draw: Draw)
    requires Ready(v, chunker, req, draw)
    ensures Allowed(v.tables, Promote(req, draw)) && Plan(v.tables, req, draw).Some?
  {
    hide VaultInv, GoodChunker, Allowed, Plan;
  }

  lemma OnlyRival(cards: Cards, path: string, asRead: Key, own: Key)
    requires path in cards && cards[path].current && forall p :: p in cards && p != path ==> !cards[p].current
    ensures RivalsAreFound(cards, asRead, own) <==> (Rivals(cards[path].key, asRead) ==> Rivals(cards[path].key, own))
  {
  }

  function Creations(f: Frontmatter, g: Frontmatter, s: Setting): seq<Action> {
    [CreateDraft(DraftOf(DRAFT_1, f, s.body1)), CreateDraft(DraftOf(DRAFT_2, g, s.body2))]
  }

  /** The frontmatter that the draft service stores. */
  function StoredFields(name: string, f: Frontmatter): Frontmatter {
    StoredDraft(DraftOf(name, f, "")).frontmatter
  }

  lemma CreatedAreStaged(chunker: Chunker, f: Frontmatter, g: Frontmatter, s: Setting)
    requires GoodChunker(chunker) && Readable(StoredFields(DRAFT_1, f)) && Readable(StoredFields(DRAFT_2, g))
    ensures AllowedRun(EmptyVault, Creations(f, g, s), chunker)
    ensures var v := RunActions(EmptyVault, Creations(f, g, s), chunker);
            && VaultInv(v, chunker)
            && Staged(v, StoredDraft(DraftOf(DRAFT_1, f, s.body1)), StoredDraft(DraftOf(DRAFT_2, g, s.body2)))
  {
    hide VaultInv, GoodChunker, Readable, PathOf, Plain, Normalized, IsSnapshotId, IsSnapshotPath, RunActions,
         AllowedRun;
    var a, b := CreateDraft(DraftOf(DRAFT_1, f, s.body1)), CreateDraft(DraftOf(DRAFT_2, g, s.body2));
    EmptyVaultInv(chunker);
    NamesAreOrdinary(DRAFT_1);
    NamesAreOrdinary(DRAFT_2);
    assert DRAFT_1[6] != DRAFT_2[6];
    PathsDiffer(DRAFT_1, DRAFT_2);
    TwoActions(EmptyVault, a, b, chunker);
    RunsKeepInv(EmptyVault, [a, b], chunker);
  }

  lemma TrimmedLetter(c: string)
    requires c == "x" || c == "y"
    ensures Trim(c) == c && Codec.Escape(c) == c && Folded(c) == c && !Codec.Separates(c)
  {
    assert c[1..] == "";
    TrimOfTrimmed(c);
    Codec.EscapeShape(c);
    assert Lower(c)[0] == c[0];
  }

  /** A draft that differs in its scope, or in its title, has the same keys but for that one. */
  lemma OtherScopeKeys(f: Frontmatter, c: string)
    requires c == "x" || c == "y"
    requires Readable(StoredFields(DRAFT_1, f))
    ensures Readable(StoredFields(DRAFT_2, f.(scope := c)))
    ensures var a, b := WrittenBack(StoredFields(DRAFT_1, f)), WrittenBack(StoredFields(DRAFT_2, f.(scope := c)));
            && KeyOf(CONTEXT_BRAIN, b) == KeyOf(CONTEXT_BRAIN, a).(scope := c)
            && KeyAsRead(CONTEXT_BRAIN, b) == KeyAsRead(CONTEXT_BRAIN, a).(scope := c)
  {
    hide Trim, Folded, Codec.Escape, Codec.Separates, EscapeAll, Present, NonBlank;
    TrimmedLetter(c);
    NamesAreOrdinary(DRAFT_2);
    ReadableWith(StoredFields(DRAFT_1, f), StoredFields(DRAFT_2, f.(scope := c)));
  }

  lemma OtherTitleKeys(f: Frontmatter, c: string)
    requires c == "x" || c == "y"
    requires Readable(StoredFields(DRAFT_1, f))
    ensures Readable(StoredFields(DRAFT_2, f.(title := c)))
    ensures var a, b := WrittenBack(StoredFields(DRAFT_1, f)), WrittenBack(StoredFields(DRAFT_2, f.(title := c)));
            && KeyOf(CONTEXT_BRAIN, b) == KeyOf(CONTEXT_BRAIN, a).(title := c)
            && KeyAsRead(CONTEXT_BRAIN, b) == KeyAsRead(CONTEXT_BRAIN, a).(title := c)
  {
    hide Trim, Folded, Codec.Escape, Codec.Separates, EscapeAll, Present, NonBlank;
    TrimmedLetter(c);
    NamesAreOrdinary(DRAFT_2);
    ReadableWith(StoredFields(DRAFT_1, f), StoredFields(DRAFT_2, f.(title := c)));
  }

  /** Changing the id, the title, the scope and the project to readable ones keeps a frontmatter readable. */
  lemma ReadableWith(a: Frontmatter, b: Frontmatter)
    requires Readable(a) && b == a.(noteId := b.noteId, title := b.title, scope := b.scope, project := b.project)
    requires !Codec.Separates(b.noteId) && (b.title == a.title || !Codec.Separates(b.title))
    requires (b.scope == a.scope || !Codec.Separates(b.scope)) &&
               (b.project == a.project || !Codec.Separates(b.project))
    ensures Readable(b)
  {
    hide Codec.Separates;
    var was := [a.noteId, a.title, a.project, a.noteType, a.status, a.updated, a.summary, a.scope, a.corpusId];
    var now := [b.noteId, b.title, b.project, b.noteType, b.status, b.updated, b.summary, b.scope, b.corpusId];
    forall i | 0 <= i < |now| ensures !Codec.Separates(now[i]) {
      assert !Codec.Separates(was[i]);
    }
  }

  /** Necessity of the guard: for every draft whose stored file shows a key that writing and reading changes, creating
      it and a second draft that differs in its scope or its title, and promoting both, ends with two current notes
      whose files read the same key. */
  lemma {:induction false} UnplainKeysLeaveTwoCurrent(chunker: Chunker, f: Frontmatter, s: Setting)
    returns (g: Frontmatter, listing: seq<string>)
    requires GoodChunker(chunker) && Proper(s)
    requires Readable(StoredFields(DRAFT_1, f)) && !PlainKeys(WrittenBack(StoredFields(DRAFT_1, f)))
    ensures g == f.(scope := g.scope) || g == f.(title := g.title)
    ensures var actions := Creations(f, g, s) + Promotions(s, listing);
            && AllowedRun(EmptyVault, actions, chunker)
            && !OneCurrent(CardsOf(RunActions(EmptyVault, actions, chunker).tables.files))
  {
    hide GoodChunker, Proper, Readable, PlainKeys, WrittenBack, StoredFields, KeyOf, KeyAsRead, RunActions,
         AllowedRun, CardsOf, VaultInv, Staged, OneCurrent, BodyAsRead, Creations, Promotions, StoredDraft;
    var a := WrittenBack(StoredFields(DRAFT_1, f));
    var k, own := KeyAsRead(CONTEXT_BRAIN, a), KeyOf(CONTEXT_BRAIN, a);
    KeySurvivesIff(CONTEXT_BRAIN, a);
    if k.noteType != own.noteType || k.project != own.project || k.title != own.title {
      var c := if k.scope == "x" then "y" else "x";
      g := f.(scope := c);
      OtherScopeKeys(f, c);
    } else {
      KeyCorpus(a);
      var c := if k.title == "x" then "y" else "x";
      g := f.(title := c);
      OtherTitleKeys(f, c);
    }
    StoredBodies(f, g, s);
    CreatedAreStaged(chunker, f, g, s);
    var v := RunActions(EmptyVault, Creations(f, g, s), chunker);
    var d1, d2 := StoredDraft(DraftOf(DRAFT_1, f, s.body1)), StoredDraft(DraftOf(DRAFT_2, g, s.body2));
    listing := PromotingBothIff(v, chunker, d1, d2, s);
    RunsAppend(EmptyVault, Creations(f, g, s), Promotions(s, listing), chunker);
  }

  lemma KeyCorpus(f: Frontmatter)
    ensures KeyAsRead(CONTEXT_BRAIN, f).corpusId == KeyOf(CONTEXT_BRAIN, f).corpusId
  {
  }

  lemma StoredBodies(f: Frontmatter, g: Frontmatter, s: Setting)
    ensures StoredDraft(DraftOf(DRAFT_1, f, s.body1)).body == s.body1
    ensures StoredDraft(DraftOf(DRAFT_2, g, s.body2)).body == s.body2
    ensures StoredDraft(DraftOf(DRAFT_1, f, s.body1)).frontmatter == StoredFields(DRAFT_1, f)
    ensures StoredDraft(DraftOf(DRAFT_2, g, s.body2)).frontmatter == StoredFields(DRAFT_2, g)
  {
    hide Trim, NonBlank;
  }

  lemma EscapesAgain(s: string)
    ensures Codec.Escapes(Codec.Escape(s)) <==> Codec.Escapes(s)
  {
    hide Codec.Escapes, Codec.Escape;
    Codec.EscapeShape(s);
    if Codec.Escapes(s) {
      EscapesNeverSettle(s);
    }
  }

  /** What a caller of the draft service can check: the draft it stores reads with plain keys exactly when type,
      project, title and scope, without outer white space, hold nothing that JSON escapes. */
  lemma {:induction false} StoredKeysArePlainIff(name: string, f: Frontmatter)
    ensures PlainKeys(WrittenBack(StoredFields(name, f))) <==>
            && !Codec.Escapes(f.noteType) && !Codec.Escapes(Trim(f.project))
            && !Codec.Escapes(Trim(f.title)) && !Codec.Escapes(Trim(f.scope))
  {
    hide Trim, Codec.Escape, Codec.Escapes, EscapeAll, Present, NonBlank, Trimmed;
    EscapesAgain(f.noteType);
    KeyStaysTrimmed(f.project);
    KeyStaysTrimmed(f.title);
    KeyStaysTrimmed(f.scope);
  }

  lemma KeyStaysTrimmed(s: string)
    ensures var read := Codec.Escape(Trim(s));
            Trimmed(read) && Trim(read) == read && (Codec.Escapes(read) <==> Codec.Escapes(Trim(s)))
  {
    hide Trim, Codec.Escape, Codec.Escapes;
    TrimShape(s);
    EscapeStaysTrimmed(Trim(s));
    EscapesAgain(Trim(s));
  }

  /** One such run, with everything given: two drafts titled `Use "strict" mode`, under different scopes. */
  lemma {:induction false} QuotedTitleLeavesTwoCurrent(chunker: Chunker) returns (g: Frontmatter, listing: seq<string>)
    requires GoodChunker(chunker)
    ensures var f := QuotedTitle();
            var s := Setting("2024-01-01", [], "a", "b");
            var actions := Creations(f, g, s) + Promotions(s, listing);
            && (g == f.(scope := g.scope) || g == f.(title := g.title))
            && AllowedRun(EmptyVault, actions, chunker)
            && !OneCurrent(CardsOf(RunActions(EmptyVault, actions, chunker).tables.files))
  {
    hide GoodChunker, Proper, Readable, PlainKeys, WrittenBack, StoredFields, RunActions, AllowedRun, CardsOf,
         OneCurrent, Creations, Promotions, QuotedTitle, Codec.Escapes;
    var s := Setting("2024-01-01", [], "a", "b");
    SettingIsProper();
    QuotedTitleEscapes();
    StoredKeysArePlainIff(DRAFT_1, QuotedTitle());
    g, listing := UnplainKeysLeaveTwoCurrent(chunker, QuotedTitle(), s);
  }

  function QuotedTitle(): Frontmatter {
    Frontmatter("", "Use \"strict\" mode", "p", "decision", "", "2024-01-01", "s", [], "x", CONTEXT_BRAIN, false,
                None, None, None, None)
  }

  lemma QuotedTitleEscapes()
    ensures Codec.Escapes(Trim(QuotedTitle().title)) && Readable(StoredFields(DRAFT_1, QuotedTitle()))
  {
    TitleReads();
    ShortIsKept("p");
    ShortIsKept("s");
    ShortIsKept("x");
    QuotedTitleReads();
  }

  lemma TitleReads()
    ensures var title := QuotedTitle().title; Trim(title) == title && Codec.Escapes(title) && !Codec.Separates(title)
  {
    hide Trim, TrimStart, TrimEnd;
    var title := QuotedTitle().title;
    assert title[0] == 'U' && title[4] == '\"' && title[|title| - 1] == 'e';
    TrimOfTrimmed(title);
    assert Codec.NeedsEscape(title[4]);
  }

  lemma QuotedTitleReads()
    requires Trim(QuotedTitle().title) == QuotedTitle().title && !Codec.Separates(QuotedTitle().title)
    requires Trim("p") == "p" && Trim("s") == "s" && Trim("x") == "x"
    ensures Readable(StoredFields(DRAFT_1, QuotedTitle()))
  {
    hide Trim, Codec.Separates, Codec.Escape;
    WordsRead();
  }

  lemma WordsRead()
    ensures forall s :: s in [DRAFT_1, "p", "decision", STATUS_DRAFT, "2024-01-01", "s", "x", CONTEXT_BRAIN, ""] ==>
              !Codec.Separates(s)
  {
    var words := [DRAFT_1, "p", "decision", STATUS_DRAFT, "2024-01-01", "s", "x", CONTEXT_BRAIN, ""];
    forall k | 0 <= k < |words| ensures !Codec.Separates(words[k]) {
    }
  }

  lemma ShortIsKept(s: string)
    requires |s| == 1 && !IsSpace(s[0])
    ensures Trim(s) == s
  {
    TrimOfTrimmed(s);
  }

  lemma SettingIsProper()
    ensures Proper(Setting("2024-01-01", [], "a", "b"))
  {
    LetterAsRead("a");
    LetterAsRead("b");
    assert "a"[0] != "b"[0];
  }

  lemma LetterAsRead(c: string)
    requires c == "a" || c == "b"
    ensures BodyAsRead(c) == c
  {
    hide Trim, TrimEnd;
    assert c[1..] == "";
    assert Crlf(c) == [c[0]] + Crlf(c[1..]) == c;
    TrimOfTrimmed(c);
  }

  // ----- A project with outer white space -----

  /** White space that a scalar shows when it is read. */
  predicate Padding(s: string) {
    forall i :: 0 <= i < |s| ==> IsSpace(s[i]) && !Codec.NeedsEscape(s[i]) && !Codec.IsSeparator(s[i])
  }

  function Padded(d: Draft, a: string, b: string): Draft {
    d.(frontmatter := d.frontmatter.(project := a + d.frontmatter.project + b))
  }

  lemma BlankIsKept(s: string)
    requires Padding(s)
    ensures Codec.Escape(s) == s && !Codec.Separates(s)
  {
    EscapeIsIdentityIff(s);
  }

  /** Reading keeps the padding of a project, and trimming removes it. */
  lemma PaddingIsDropped(a: string, p: string, b: string)
    requires Padding(a) && Padding(b) && Trimmed(p)
    ensures Trim(a + p + b) == p && Codec.Escape(a + p + b) == a + Codec.Escape(p) + b
    ensures Codec.Separates(a + p + b) <==> Codec.Separates(p)
  {
    hide Trim, IsSpace, Codec.Escape, Codec.Separates, TrimStart, TrimEnd;
    BlankIsKept(a);
    BlankIsKept(b);
    TrimOfPadded(a, p, b);
    EscapeAppend(a + p, b);
    EscapeAppend(a, p);
    Codec.SeparatesAppend(a + p, b);
    Codec.SeparatesAppend(a, p);
  }

  lemma PaddedKeys(f: Frontmatter, a: string, b: string)
    requires Readable(f) && Trimmed(f.project) && Padding(a) && Padding(b)
    ensures var g := f.(project := a + f.project + b);
            && Readable(g)
            && KeyAsRead(CONTEXT_BRAIN, WrittenBack(g)) == KeyAsRead(CONTEXT_BRAIN, WrittenBack(f))
            && KeyOf(CONTEXT_BRAIN, WrittenBack(g)).project == a + WrittenBack(f).project + b
  {
    hide Trim, Folded, Codec.Escape, Codec.Separates, EscapeAll, Present, Trimmed, Padding;
    var g := f.(project := a + f.project + b);
    PaddingIsDropped(a, f.project, b);
    EscapeStaysTrimmed(f.project);
    PaddingIsDropped(a, Codec.Escape(f.project), b);
    ProjectReadable(f);
    ReadableWith(f, g);
  }

  lemma ProjectReadable(f: Frontmatter)
    requires Readable(f)
    ensures !Codec.Separates(f.project) && !Codec.Separates(f.noteId)
  {
    hide Codec.Separates;
    var texts := [f.noteId, f.title, f.project, f.noteType, f.status, f.updated, f.summary, f.scope, f.corpusId];
    assert texts[2] == f.project && texts[0] == f.noteId;
  }

  /** The second draft's file has been edited by hand: its project is padded with blanks. */
  lemma EditedAreStaged(chunker: Chunker, f: Frontmatter, s: Setting, a: string, b: string)
    requires GoodChunker(chunker) && Readable(StoredFields(DRAFT_1, f)) && Readable(StoredFields(DRAFT_2, f))
    requires Readable(Padded(StoredDraft(DraftOf(DRAFT_2, f, s.body2)), a, b).frontmatter)
    ensures var e2 := Padded(StoredDraft(DraftOf(DRAFT_2, f, s.body2)), a, b);
            var actions := Creations(f, f, s) + [EditDraft(e2)];
            var v := RunActions(EmptyVault, actions, chunker);
            && AllowedRun(EmptyVault, actions, chunker) && VaultInv(v, chunker)
            && Staged(v, StoredDraft(DraftOf(DRAFT_1, f, s.body1)), e2)
  {
    hide VaultInv, GoodChunker, Readable, PathOf, StoredFields, RunActions, AllowedRun, StoredDraft, Creations;
    var d1, d2 := StoredDraft(DraftOf(DRAFT_1, f, s.body1)), StoredDraft(DraftOf(DRAFT_2, f, s.body2));
    CreatedAreStaged(chunker, f, f, s);
    var v := RunActions(EmptyVault, Creations(f, f, s), chunker);
    OneAction(v, EditDraft(Padded(d2, a, b)), chunker);
    RunsAppend(EmptyVault, Creations(f, f, s), [EditDraft(Padded(d2, a, b))], chunker);
    EditDraftKeepsInv(v, chunker, Padded(d2, a, b));
    assert DRAFT_1[6] != DRAFT_2[6];
    PathsDiffer(DRAFT_1, DRAFT_2);
  }

  lemma OneAction(v: Vault, a: Action, chunker: Chunker)
    ensures RunActions(v, [a], chunker) == Act(v, a, chunker)
    ensures AllowedRun(v, [a], chunker) <==> Allowed(v.tables, a)
  {
    hide Act, Allowed;
    assert RunActions(v, [a], chunker) == RunActions(Act(v, a, chunker), [], chunker);
    assert AllowedRun(v, [a], chunker) == (Allowed(v.tables, a) && AllowedRun(Act(v, a, chunker), [], chunker));
  }

  /** Two drafts of the same frontmatter, the second one's project padded by hand, both promoted: two current notes
      with one key, whatever the frontmatter and the padding. */
  lemma {:induction false} UntrimmedProjectLeavesTwoCurrent(chunker: Chunker, f: Frontmatter, s: Setting, a: string,
                                                            b: string)
    returns (listing: seq<string>)
    requires GoodChunker(chunker) && Proper(s) && Padding(a) && Padding(b) && a + b != ""
    requires Readable(StoredFields(DRAFT_1, f))
    ensures var edit := EditDraft(Padded(StoredDraft(DraftOf(DRAFT_2, f, s.body2)), a, b));
            var actions := Creations(f, f, s) + [edit] + Promotions(s, listing);
            && AllowedRun(EmptyVault, actions, chunker)
            && !OneCurrent(CardsOf(RunActions(EmptyVault, actions, chunker).tables.files))
  {
    hide GoodChunker, Proper, Readable, WrittenBack, StoredFields, KeyOf, KeyAsRead, RunActions, AllowedRun, CardsOf,
         VaultInv, Staged, OneCurrent, BodyAsRead, Creations, Promotions, StoredDraft, Trimmed, Padding;
    var d1, d2 := StoredDraft(DraftOf(DRAFT_1, f, s.body1)), StoredDraft(DraftOf(DRAFT_2, f, s.body2));
    var e2 := Padded(d2, a, b);
    StoredBodies(f, f, s);
    SameButForId(f);
    PaddedKeys(StoredFields(DRAFT_2, f), a, b);
    EditedAreStaged(chunker, f, s, a, b);
    var before := Creations(f, f, s) + [EditDraft(e2)];
    var v := RunActions(EmptyVault, before, chunker);
    listing := PromotingBothIff(v, chunker, d1, e2, s);
    RunsAppend(EmptyVault, before, Promotions(s, listing), chunker);
    PaddingShows(WrittenBack(StoredFields(DRAFT_1, f)), a, WrittenBack(StoredFields(DRAFT_2, f)).project, b);
    SameKeysAreRivals(KeyAsRead(CONTEXT_BRAIN, WrittenBack(StoredFields(DRAFT_1, f))));
  }

  lemma SameKeysAreRivals(k: Key)
    ensures Rivals(k, k)
  {
  }

  /** The key that a note is found under has a trimmed project. */
  lemma PaddingShows(f: Frontmatter, a: string, p: string, b: string)
    requires Padding(a) && Padding(b) && a + b != ""
    ensures KeyAsRead(CONTEXT_BRAIN, f).project != a + p + b
  {
    hide Folded, Codec.Escape, Trim, IsSpace;
    TrimShape(f.project);
    EscapeStaysTrimmed(Trim(f.project));
    var q := a + p + b;
    if a != "" {
      assert q[0] == a[0];
    } else {
      assert q[|q| - 1] == b[|b| - 1];
    }
  }

  /** The two drafts store the same fields but for their ids, and the project is trimmed. */
  lemma SameButForId(f: Frontmatter)
    requires Readable(StoredFields(DRAFT_1, f))
    ensures Readable(StoredFields(DRAFT_2, f)) && Trimmed(StoredFields(DRAFT_2, f).project)
    ensures var a, b := WrittenBack(StoredFields(DRAFT_1, f)), WrittenBack(StoredFields(DRAFT_2, f));
            KeyOf(CONTEXT_BRAIN, b) == KeyOf(CONTEXT_BRAIN, a) &&
                KeyAsRead(CONTEXT_BRAIN, b) == KeyAsRead(CONTEXT_BRAIN, a)
  {
    hide Trim, Folded, Codec.Escape, Codec.Separates, EscapeAll, Present, NonBlank, Trimmed;
    NamesAreOrdinary(DRAFT_2);
    ReadableWith(StoredFields(DRAFT_1, f), StoredFields(DRAFT_2, f));
    TrimShape(f.project);
  }

  // ----- An old payload on a newer vault -----

  /** The paths that the payload for the first draft writes: its own and that of a snapshot. */
  lemma FirstWritePaths(t: Tables, req: Request, draw: Draw, p: Payload, e: Effect, q: string)
    requires IsEffect(t, req, draw, e) && Planned(t, p, e) && t.files == map[]
    requires q != e.canonical.path && !IsSnapshotPath(q)
    ensures q !in WritePaths(p)
  {
    hide IsEffect, AllRewrite, IsNew, IsSnapshotPath, IsSnapshotId, Writable;
    NoneFound(t, req, draw, e);
    if e.snapshot.Some? {
      SnapshotPathHasId(e.snapshot.value);
    }
  }

  lemma OnlyRivalOutside(cards: Cards, path: string, card: Card, other: string, overwritten: set<string>)
    requires path in cards && cards[path].current && forall p :: p in cards && p != path ==> !cards[p].current
    requires path != other && path !in overwritten && card.current
    ensures NoRivalOutside(cards, other, card, overwritten) <==> !Rivals(cards[path].key, card.key)
  {
    if !Rivals(cards[path].key, card.key) {
    } else {
      assert Conflict(cards[path], card);
    }
  }

  /** Two drafts are created and their promotions planned on the same vault; the second is processed, and then the
      outbox entry of the first is replayed. The replay goes through, and both notes are current under one key exactly
      when their files read keys that are rivals; in particular whenever the drafts have the same frontmatter. */
  lemma {:induction false} StaleReplayLeavesTwoCurrent(chunker: Chunker, f: Frontmatter, g: Frontmatter, s: Setting)
    requires GoodChunker(chunker) && Proper(s)
    requires Readable(StoredFields(DRAFT_1, f)) && Readable(StoredFields(DRAFT_2, g))
    ensures AllowedRun(EmptyVault, Creations(f, g, s), chunker)
    ensures var v := RunActions(EmptyVault, Creations(f, g, s), chunker);
            var req1, draw1 := RequestFor(DRAFT_1), DrawFor(s, NOTE_1, DRAFT_1, []);
            var req2, draw2 := RequestFor(DRAFT_2), DrawFor(s, NOTE_2, DRAFT_2, []);
            && Ready(v, chunker, req1, draw1) && Ready(v, chunker, req2, draw2)
            && var newer := Act(v, Promote(req2, draw2), chunker).tables;
               var replay := Run(Program(PayloadOf(v, req1, draw1), chunker), newer);
               && replay.ok && OneCurrent(CardsOf(newer.files))
               && (OneCurrent(CardsOf(replay.tables.files)) <==>
                   !Rivals(KeyAsRead(CONTEXT_BRAIN, WrittenBack(StoredFields(DRAFT_2, g))),
                           KeyAsRead(CONTEXT_BRAIN, WrittenBack(StoredFields(DRAFT_1, f)))))
  {
    hide GoodChunker, Proper, Readable, WrittenBack, StoredFields, KeyOf, KeyAsRead, RunActions, AllowedRun, CardsOf,
         Rivals, VaultInv, Staged, OneCurrent, Creations, StoredDraft, Act, Allowed, Ready, Plan, Run, Program,
         NoRivalOutside;
    var d1, d2 := StoredDraft(DraftOf(DRAFT_1, f, s.body1)), StoredDraft(DraftOf(DRAFT_2, g, s.body2));
    StoredBodies(f, g, s);
    CreatedAreStaged(chunker, f, g, s);
    var v := RunActions(EmptyVault, Creations(f, g, s), chunker);
    StagedReplayIff(v, chunker, d1, d2, s);
  }

  lemma StagedReplayIff(v: Vault, chunker: Chunker, d1: Draft, d2: Draft, s: Setting)
    requires VaultInv(v, chunker) && GoodChunker(chunker) && Staged(v, d1, d2) && Proper(s)
    ensures var req1, draw1 := RequestFor(DRAFT_1), DrawFor(s, NOTE_1, DRAFT_1, []);
            var req2, draw2 := RequestFor(DRAFT_2), DrawFor(s, NOTE_2, DRAFT_2, []);
            && Ready(v, chunker, req1, draw1) && Ready(v, chunker, req2, draw2)
            && var newer := Act(v, Promote(req2, draw2), chunker).tables;
               var replay := Run(Program(PayloadOf(v, req1, draw1), chunker), newer);
               && replay.ok && OneCurrent(CardsOf(newer.files))
               && (OneCurrent(CardsOf(replay.tables.files)) <==>
                   !Rivals(KeyAsRead(CONTEXT_BRAIN, WrittenBack(d2.frontmatter)),
                           KeyAsRead(CONTEXT_BRAIN, WrittenBack(d1.frontmatter))))
  {
    hide GoodChunker, Proper, Readable, WrittenBack, KeyOf, KeyAsRead, RunActions, AllowedRun, CardsOf, Rivals,
         FilesOk, Leads, VaultInv, OneCurrent, Act, Allowed, Ready, Plan, Run, Program, NoRivalOutside, PathOf,
         IsEffect, Planned, NewCards, Filed, Lawful, WrittenCard, PayloadOk, Waits, FindDraft, ReadDraft, WritePaths,
         BodyAsRead, ChangeOf;
    var req1, draw1 := RequestFor(DRAFT_1), DrawFor(s, NOTE_1, DRAFT_1, []);
    var req2, draw2 := RequestFor(DRAFT_2), DrawFor(s, NOTE_2, DRAFT_2, []);
    StagedIsReady(v, chunker, d1, d2, s, false, NOTE_2);
    ReadyIsAllowed(v, chunker, req2, draw2);
    FirstPromotion(v, chunker, d1, d2, s, false, NOTE_2);
    var e := FirstPlan(v, chunker, d1, d2, s);
    OneAction(v, Promote(req2, draw2), chunker);
    assert NOTE_1[5] != NOTE_2[5];
    PathsDiffer(NOTE_1, NOTE_2);
    StaleReplayIff(v, chunker, req1, draw1, e, [Promote(req2, draw2)]);
    OnlyRivalOutside(CardsOf(Act(v, Promote(req2, draw2), chunker).tables.files), PathOf(NOTE_2),
                     WrittenCard(e.canonical), PathOf(NOTE_1), WritePaths(PayloadOf(v, req1, draw1)));
  }

  /** What is planned for the first draft. */
  lemma FirstPlan(v: Vault, chunker: Chunker, d1: Draft, d2: Draft, s: Setting) returns (e: Effect)
    requires VaultInv(v, chunker) && GoodChunker(chunker) && Staged(v, d1, d2) && Proper(s)
    ensures var req, draw := RequestFor(DRAFT_1), DrawFor(s, NOTE_1, DRAFT_1, []);
            && Ready(v, chunker, req, draw) && Plan(v.tables, req, draw).Some? && IsEffect(v.tables, req, draw, e)
            && e.canonical.noteId == NOTE_1 && e.canonical.path == PathOf(NOTE_1)
            && WrittenCard(e.canonical).current
            && WrittenCard(e.canonical).key == KeyAsRead(CONTEXT_BRAIN, WrittenBack(d1.frontmatter))
            && PathOf(NOTE_2) !in WritePaths(PayloadOf(v, req, draw))
  {
    hide GoodChunker, Proper, Readable, WrittenBack, KeyAsRead, CardsOf, FilesOk, Leads, VaultInv, Ready, Plan, Run,
         Program, PathOf, IsEffect, Planned, NewCards, Filed, Lawful, WrittenCard, PayloadOk, Waits, FindDraft,
         ReadDraft, WritePaths, BodyAsRead, ChangeOf, WellKept;
    var req, draw := RequestFor(DRAFT_1), DrawFor(s, NOTE_1, DRAFT_1, []);
    StagedIsReady(v, chunker, d1, d2, s, true, NOTE_1);
    StagedDraftIsFound(v, d1, d2, true);
    ReadyIsAllowed(v, chunker, req, draw);
    e := PromotionLeads(v, chunker, req, draw);
    HasDraft(v.tables, req, draw, e);
    NewCardParts(v.tables, req, draw, e);
    assert NOTE_1[5] != NOTE_2[5];
    PathsDiffer(NOTE_1, NOTE_2);
    NamesAreOrdinary(NOTE_2);
    FirstWritePaths(v.tables, req, draw, PayloadOf(v, req, draw), e, PathOf(NOTE_2));
  }
}
