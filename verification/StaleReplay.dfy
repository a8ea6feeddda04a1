/** An old payload of the outbox, replayed on a vault that has moved on. */
module StaleReplay {
  import opened Domain
  import opened FrontmatterRoundTrip
  import opened Keys
  import opened Planning
  import opened Promotion
  import opened PromotionEffects
  import opened Reading
  import opened Replay
  import opened SerialRuns
  import opened Stores
  import opened Supersession
  import opened Text
  import opened VaultNotes
  import opened VaultRuns

  // ----- A payload keeps waiting -----

  /** The action draws neither the id nor the path of this note. */
  predicate Spares(action: Action, note: Note) {
    match action
    case CreateDraft(d) => d.noteId != note.noteId && d.path != note.path
    case EditDraft(_) => true
    case Promote(_, draw) => draw.noteId != note.noteId && draw.path != note.path
  }

  predicate SparesAll(actions: seq<Action>, note: Note) {
    forall i :: 0 <= i < |actions| ==> Spares(actions[i], note)
  }

  /** What a promotion leaves of rows: ids that are no snapshot's keep their path, and new ids and paths are its own. */
  lemma WriteOfPlan(t: Tables, p: Payload, e: Effect, i: nat)
    requires FilesOk(t.files) && FilesHaveRows(t) && Planned(t, p, e) && i < |p.writes|
    ensures var w := p.writes[i];
            || w == e.canonical
            || (IsSnapshotId(w.noteId) && IsSnapshotPath(w.path))
            || (HasRow(t.rows, w) && w.path in t.files)
  {
    hide CardsOf, WrittenCard, Retired, IsSnapshotPath, IsSnapshotId, Sound, StartsWith, CorpusPolicy;
    PlannedWaits(t, p, e);
    if i < |e.found| {
      assert Rewrites(t.files, e.found[i], p.writes[i], e.canonical.noteId);
    } else if i > |e.found| {
      SnapshotPathHasId(e.snapshot.value);
    }
  }

  lemma OldRowStays(t: Tables, chunker: Chunker, q: Payload, f: Effect, t': Tables, w: Note)
    requires FilesOk(t.files) && FilesHaveRows(t) && RowsInv(t.rows) && DraftsInv(t)
    requires Planned(t, q, f) && Filed(q, chunker, t, t') && HasRow(t.rows, w)
    ensures HasRow(t'.rows, w)
  {
    hide Filed, FilesOk, IsSnapshotPath, IsSnapshotId, Plain, NoFileOf, FilesHaveRows, Planned, RowsInv;
    RowAfter(t, chunker, q, t', w.noteId);
    assert q.draft.path in t.drafts && t.drafts[q.draft.path].noteId == q.draft.noteId by { PlannedDraft(t, q, f); }
    assert DraftOk(t, q.draft.path);
    if i :| 0 <= i < |q.writes| && q.writes[i].noteId == w.noteId && q.writes[i].path == t'.rows[w.noteId].path {
      WriteOfPlan(t, q, f, i);
      PlannedNew(t, q, f);
    }
  }

  lemma PlannedDraft(t: Tables, q: Payload, f: Effect)
    requires Planned(t, q, f)
    ensures q.draft.path in t.drafts && t.drafts[q.draft.path].noteId == q.draft.noteId
  {
  }

  lemma PlannedNew(t: Tables, q: Payload, f: Effect)
    requires Planned(t, q, f)
    ensures IsNew(t, f.canonical)
  {
  }

  lemma FreshStaysFresh(t: Tables, chunker: Chunker, q: Payload, f: Effect, t': Tables, id: string, path: string)
    requires FilesOk(t.files) && FilesHaveRows(t) && RowsInv(t.rows) && DraftsInv(t)
    requires Planned(t, q, f) && Filed(q, chunker, t, t') && FreshName(t, id, path)
    requires f.canonical.noteId != id && f.canonical.path != path
    ensures FreshName(t', id, path)
  {
    hide Filed, FilesOk, IsSnapshotPath, IsSnapshotId, Plain, NoFileOf, FilesHaveRows, Planned, RowsInv;
    PlannedDraft(t, q, f);
    assert DraftOk(t, q.draft.path);
    forall i | 0 <= i < |q.writes| ensures q.writes[i].noteId != id && q.writes[i].path != path {
      WriteOfPlan(t, q, f, i);
    }
    RowAfter(t, chunker, q, t', id);
    forall other | other in t'.rows ensures t'.rows[other].path != path {
      RowAfter(t, chunker, q, t', other);
    }
    OtherFileWhenFiled(q, chunker, t, t', path);
    OtherDraftWhenFiled(q, chunker, t, t', path);
  }

  lemma PromotionKeepsWaiting(v: Vault, chunker: Chunker, req: Request, draw: Draw, p: Payload, e: Effect)
    requires Ready(v, chunker, req, draw) && Waits(v.tables, p, e) && Spares(Promote(req, draw), e.canonical)
    ensures Waits(TablesAfter(v, chunker, req, draw), p, e)
  {
    hide Plan, Program, Run, FilesOk, RelationInv, IndexInv, RowsInv, DraftsInv, KeyedTable, GoodChunker, Allowed,
         Planned, NewCards, IsEffect, Filed, Lawful, Leads, CardsOf, WrittenCard, HasRow, Writable, FreshName,
         IsSnapshot, FilesHaveRows, ChangeOf;
    var t, t', q := v.tables, TablesAfter(v, chunker, req, draw), PayloadOf(v, req, draw);
    var f := PromotionLeads(v, chunker, req, draw);
    RowsOfFiles(t, chunker);
    assert FreshName(t, e.canonical.noteId, e.canonical.path);
    FreshStaysFresh(t, chunker, q, f, t', e.canonical.noteId, e.canonical.path);
    forall i | 0 <= i < |e.found| ensures HasRow(t'.rows, p.writes[i]) {
      OldRowStays(t, chunker, q, f, t', p.writes[i]);
    }
    PlannedDraft(t, q, f);
    DraftWhenFiled(q, chunker, t, t');
    if p.draft.path != q.draft.path {
      OtherDraftWhenFiled(q, chunker, t, t', p.draft.path);
    }
  }

  lemma ActKeepsWaiting(v: Vault, chunker: Chunker, action: Action, p: Payload, e: Effect)
    requires VaultInv(v, chunker) && GoodChunker(chunker) && Allowed(v.tables, action)
    requires Waits(v.tables, p, e) && Spares(action, e.canonical)
    ensures Waits(Act(v, action, chunker).tables, p, e)
  {
    hide Plan, VaultInv, GoodChunker, ListingOk, Run, Program, StoredDraft, Writable, IsSnapshot, IsSnapshotPath,
         IsSnapshotId, RowOfDraft, Plain;
    match action
    case CreateDraft(draft) => StoredDraftParts(draft);
    case EditDraft(_) =>
    case Promote(req, draw) =>
      if Plan(v.tables, req, draw).Some? {
        PromotionKeepsWaiting(v, chunker, req, draw, p, e);
      }
  }

  lemma {:induction false} RunKeepsWaiting(v: Vault, actions: seq<Action>, chunker: Chunker, p: Payload, e: Effect)
    requires VaultInv(v, chunker) && GoodChunker(chunker) && AllowedRun(v, actions, chunker)
    requires Waits(v.tables, p, e) && SparesAll(actions, e.canonical)
    ensures Waits(RunActions(v, actions, chunker).tables, p, e)
    decreases |actions|
  {
    hide VaultInv, GoodChunker, Allowed, Act, Waits, Spares;
    if actions != [] {
      ActKeepsWaiting(v, chunker, actions[0], p, e);
      ActKeepsInv(v, chunker, actions[0]);
      RunKeepsWaiting(Act(v, actions[0], chunker), actions[1..], chunker, p, e);
    }
  }

  // ----- Its replay -----

  ghost function WritePaths(p: Payload): set<string> {
    set i | 0 <= i < |p.writes| :: p.writes[i].path
  }

  /** All writes but that of the new note read as notes that are not current. */
  ghost predicate OnlyCurrent(p: Payload, e: Effect) {
    && |e.found| < |p.writes| && p.writes[|e.found|] == e.canonical
    && (forall i :: 0 <= i < |p.writes| ==> Writable(p.writes[i]))
    && (forall i :: 0 <= i < |p.writes| && i != |e.found| ==> !WrittenCard(p.writes[i]).current)
  }

  lemma PlannedOnlyCurrent(t: Tables, req: Request, draw: Draw, p: Payload, e: Effect)
    requires IsEffect(t, req, draw, e) && Planned(t, p, e) && NewCards(t.files, req, draw, e)
    ensures OnlyCurrent(p, e)
  {
    hide IsEffect, NewCards, CardsOf, WrittenCard, Writable, IsSnapshotPath, IsNew, IsSnapshot;
    PlannedAreWritable(t, p, e);
    NewCardParts(t, req, draw, e);
    forall i | 0 <= i < |e.found| ensures !WrittenCard(p.writes[i]).current {
      assert Rewrites(t.files, e.found[i], p.writes[i], e.canonical.noteId);
    }
  }

  lemma ReplayIsOverlay(t: Tables, chunker: Chunker, p: Payload, e: Effect, t': Tables)
    requires OnlyCurrent(p, e) && Filed(p, chunker, t, t') && PayloadOk(p)
    ensures Overlay(CardsOf(t.files), CardsOf(t'.files), e.canonical.path, WritePaths(p))
    ensures CardsOf(t'.files)[e.canonical.path] == WrittenCard(e.canonical)
  {
    hide Filed, CardsOf, WrittenCard, Writable;
    forall i | 0 <= i < |p.writes|
      ensures p.writes[i].path in CardsOf(t'.files) && CardsOf(t'.files)[p.writes[i].path] == WrittenCard(p.writes[i])
    {
      WrittenFile(p, chunker, t, t', i);
      CardAt(t'.files, p.writes[i].path);
    }
    forall q | q !in WritePaths(p)
      ensures q in CardsOf(t'.files) <==> q in CardsOf(t.files)
      ensures q in CardsOf(t.files) ==> CardsOf(t'.files)[q] == CardsOf(t.files)[q]
    {
      OtherCard(p, chunker, t, t', q);
    }
  }

  /** A payload planned earlier and replayed after any further actions that drew other names: the replay goes through,
      and afterwards there is one current note per key exactly when every current rival of its note, as the files then
      read, lies at a path that the payload overwrites. */
  lemma {:induction false} StaleReplayIff(v: Vault, chunker: Chunker, req: Request, draw: Draw, e: Effect,
                                        actions: seq<Action>)
    requires Ready(v, chunker, req, draw) && IsEffect(v.tables, req, draw, e)
    requires AllowedRun(v, actions, chunker) && SparesAll(actions, e.canonical)
    ensures var p := PayloadOf(v, req, draw);
            var t := RunActions(v, actions, chunker).tables;
            var replay := Run(Program(p, chunker), t);
            && replay.ok
            && (OneCurrent(CardsOf(t.files)) ==>
                  (OneCurrent(CardsOf(replay.tables.files)) <==>
                   NoRivalOutside(CardsOf(t.files), e.canonical.path, WrittenCard(e.canonical), WritePaths(p))))
  {
    hide Plan, Program, Run, FilesOk, RelationInv, IndexInv, RowsInv, DraftsInv, Allowed, GoodChunker, Planned,
         NewCards, IsEffect, Filed, Lawful, Leads, CardsOf, WrittenCard, Waits, PayloadOk, OnlyCurrent, Overlay,
         WritePaths, RunActions, AllowedRun, OneCurrent, NoRivalOutside, KeyedTable, ChangeOf, SparesAll;
    var p := PayloadOf(v, req, draw);
    var e' := PromotionLeads(v, chunker, req, draw);
    EffectIsOne(v.tables, req, draw, e, e');
    RunKeepsWaiting(v, actions, chunker, p, e);
    RunsKeepInv(v, actions, chunker);
    var t := RunActions(v, actions, chunker).tables;
    WaitingIsFiled(t, chunker, p, e);
    var t' := Run(Program(p, chunker), t).tables;
    PlannedOnlyCurrent(v.tables, req, draw, p, e);
    ReplayIsOverlay(t, chunker, p, e, t');
    if OneCurrent(CardsOf(t.files)) {
      OverlayOneCurrentIff(CardsOf(t.files), CardsOf(t'.files), e.canonical.path, WritePaths(p));
    }
  }

  lemma EffectIsOne(t: Tables, req: Request, draw: Draw, e: Effect, f: Effect)
    requires IsEffect(t, req, draw, e) && IsEffect(t, req, draw, f)
    ensures e == f
  {
    hide FindDraft, FindSuperseded, CanonicalNote, SnapshotNote, IdsOf, NotesAt;
  }
}
