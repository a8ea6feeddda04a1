/** The notes of the vault as their files read: their cards, and why everything a promotion writes can be read again. */
module VaultNotes {
  import opened Domain
  import opened FrontmatterRoundTrip
  import opened Keys
  import opened Planning
  import opened Promotion
  import opened Reading
  import opened Stores
  import opened Supersession
  import opened Text
  import Codec = FrontmatterCodec

  // ----- Cards -----

  function SetOf(ids: seq<string>): set<string> {
    set id | id in ids
  }

  /** What a note, as read, shows of its place in the relation. */
  function CardOf(note: Note): Card {
    var f := note.frontmatter;
    Card(note.noteId, IsSnapshotId(note.noteId), f.currentState, f.status == STATUS_SUPERSEDED, f.supersededBy,
         SetOf(Predecessors(f)), KeyOf(note.corpusId, f))
  }

  function CardsOf(files: Files): Cards {
    map p | p in files && ReadNote(files[p]).Some? :: CardOf(ReadNote(files[p]).value)
  }

  predicate IsCorpus(corpusId: string) {
    corpusId == CONTEXT_BRAIN || corpusId == GENERAL_NOTES
  }

  /** A file under its own path, readable, with an id that fits the path. */
  predicate FileOk(p: string, note: Note) {
    && note.path == p && IsCorpus(note.corpusId) && StartsWith(p, note.corpusId + "/") && Sound(note)
    && (IsSnapshotPath(p) <==> IsSnapshotId(note.noteId))
    && (IsSnapshotPath(p) ==> note.noteId == SnapshotId(p))
  }

  ghost predicate FilesOk(files: Files) {
    forall p :: p in files ==> FileOk(p, files[p])
  }

  /** The card of a sound record: its place is that of the record, its key that of the text. */
  lemma CardAsRead(note: Note)
    requires Sound(note)
    ensures ReadNote(note).Some?
    ensures var f := note.frontmatter;
            CardOf(ReadNote(note).value) ==
              Card(note.noteId, IsSnapshotId(note.noteId), f.currentState, f.status == STATUS_SUPERSEDED,
                  f.supersededBy,
                   SetOf(Predecessors(f)), KeyOf(note.corpusId, WrittenBack(f)))
  {
    hide ReadNote, Sound, KeyOf, WrittenBack, BodyAsRead;
    SoundIsRead(note);
  }

  /** Whatever its frontmatter says, a file is written under the id and corpus of its record, and a draft's file also
      under its state. */
  lemma WrittenUnderItsId(note: Note, draft: Draft)
    ensures ReadNote(Persisted(note)).Some? ==>
              var read := ReadNote(Persisted(note)).value;
              && read.noteId == read.frontmatter.noteId == Codec.Escape(note.noteId)
              && read.corpusId == read.frontmatter.corpusId == Codec.Escape(note.corpusId) && read.path == note.path
    ensures ReadDraft(PersistedDraft(draft)).Some? ==>
              var read := ReadDraft(PersistedDraft(draft)).value;
              && read.noteId == read.frontmatter.noteId == Codec.Escape(draft.noteId)
              && read.corpusId == read.frontmatter.corpusId == Codec.Escape(draft.corpusId) && read.path == draft.path
              && read.lifecycle == read.frontmatter.status == Codec.Escape(draft.lifecycle)
  {
    hide ReadNote, ReadDraft, Codec.Escape, Readable, EscapeAll, Present, BodyAsRead;
    NoteAsRead(Persisted(note));
    DraftAsRead(PersistedDraft(draft));
  }

  // ----- Words -----

  lemma StatesArePlain()
    ensures Plain(STATUS_PROMOTED) && Plain(STATUS_SUPERSEDED) && Plain(CONTEXT_BRAIN) && Plain(GENERAL_NOTES)
    ensures Plain(STATUS_DRAFT) && Plain("reference")
  {
  }

  lemma SnapshotWordsArePlain()
    ensures !Codec.Separates("Current-state snapshot for ") && !Codec.Separates(". ") && !Codec.Separates(" Current")
    ensures Plain(SNAPSHOT_ID + SNAPSHOT_ROOT) && Plain("/") && Plain("-current.md")
  {
  }

  lemma SoundWords(note: Note)
    requires Sound(note)
    ensures Plain(note.frontmatter.noteId) && Plain(note.frontmatter.corpusId) && Plain(note.frontmatter.status)
  {
    hide Plain, Readable;
    var words := [note.frontmatter.noteId, note.frontmatter.corpusId, note.frontmatter.status];
    assert Plain(words[0]) && Plain(words[1]) && Plain(words[2]);
  }

  lemma TrimSeparates(s: string)
    requires !Codec.Separates(s)
    ensures !Codec.Separates(Trim(s))
  {
    hide Codec.IsSeparator, TrimStart, TrimEnd;
    TrimStartShape(s);
    TrimEndShape(TrimStart(s));
    var t, u := TrimStart(s), Trim(s);
    forall i | 0 <= i < |u| ensures !Codec.IsSeparator(u[i]) {
      assert u[i] == t[i] == s[|s| - |t| + i];
    }
  }

  lemma NonBlankSeparates(s: Option<string>)
    requires s.Some? ==> !Codec.Separates(s.value)
    ensures NonBlank(s).Some? ==> !Codec.Separates(NonBlank(s).value)
  {
    if s.Some? {
      TrimSeparates(s.value);
    }
  }

  lemma PlainAppend(a: string, b: string)
    requires Plain(a) && (b == "" || Plain(b))
    ensures Plain(a + b)
  {
    forall i | 0 <= i < |a + b| ensures !Codec.NeedsEscape((a + b)[i]) && !Codec.IsSeparator((a + b)[i]) {
      assert (a + b)[i] == if i < |a| then a[i] else b[i - |a|];
    }
  }

  lemma SlugIsPlain(s: string)
    ensures Slug(s) == "" || Plain(Slug(s))
  {
    hide Slug;
    forall i | 0 <= i < |Slug(s)| ensures !Codec.NeedsEscape(Slug(s)[i]) && !Codec.IsSeparator(Slug(s)[i]) {
      assert Slug(s)[i] in Slug(s);
    }
  }

  // ----- What a promotion writes -----

  /** The draft that the planner found has been read, so its fields can be read again. */
  lemma FoundDraftIsReadable(drafts: map<string, Draft>, order: seq<string>, id: string) returns (p: string)
    requires FindDraft(drafts, order, id).Some?
    ensures p in drafts && ReadDraft(drafts[p]) == FindDraft(drafts, order, id)
    ensures var draft := FindDraft(drafts, order, id).value;
            Readable(draft.frontmatter) && draft.noteId == id && draft.path == drafts[p].path
  {
    hide ReadDraft, Readable, WrittenBack, BodyAsRead;
    p :| p in order && p in drafts && ReadDraft(drafts[p]) == FindDraft(drafts, order, id);
    DraftAsRead(drafts[p]);
    ReadableIsKept(drafts[p].frontmatter);
  }

  lemma CanonicalIsSound(req: Request, draw: Draw, draft: Draft, ids: seq<string>)
    requires Readable(draft.frontmatter) && IsCorpus(req.corpusId) && Plain(draw.noteId) && Plain(draw.today) &&
               AllPlain(ids)
    ensures Sound(CanonicalNote(req, draw, draft, ids))
  {
    hide Codec.Separates, Codec.Escapes, Trim, PromotedTags, NonBlank;
    var s := draft.frontmatter;
    StatesArePlain();
    var texts := [s.noteId, s.title, s.project, s.noteType, s.status, s.updated, s.summary, s.scope, s.corpusId];
    forall i | 0 <= i < |texts| ensures !Codec.Separates(Trim(texts[i])) {
      TrimSeparates(texts[i]);
    }
    assert texts[1] == s.title && texts[2] == s.project && texts[3] == s.noteType && texts[6] == s.summary &&
        texts[7] == s.scope;
    NonBlankSeparates(s.validFrom);
    NonBlankSeparates(s.validUntil);
  }

  lemma SnapshotIsSound(note: Note)
    requires Sound(note) && Plain(note.frontmatter.updated)
    ensures Sound(SnapshotNote(note))
  {
    hide Codec.Separates, Codec.Escapes, Trim, SnapshotTags, Slug, SnapshotBody, SnapshotPath;
    var s := note.frontmatter;
    StatesArePlain();
    SnapshotWordsArePlain();
    SoundWords(note);
    var texts := [s.noteId, s.title, s.project, s.noteType, s.status, s.updated, s.summary, s.scope, s.corpusId];
    assert texts[1] == s.title && texts[2] == s.project && texts[6] == s.summary && texts[7] == s.scope;
    Codec.SeparatesAppend(s.title, " Current");
    var summary := "Current-state snapshot for " + s.title + ". " + s.summary;
    Codec.SeparatesAppend("Current-state snapshot for ", s.title);
    Codec.SeparatesAppend("Current-state snapshot for " + s.title, ". ");
    Codec.SeparatesAppend("Current-state snapshot for " + s.title + ". ", s.summary);
    TrimSeparates(summary);
    SnapshotIdIsPlain(s.project, s.title);
    assert SnapshotNote(note).frontmatter.summary == Trim(summary);
  }

  lemma SnapshotIdIsPlain(project: string, title: string)
    ensures Plain(SnapshotId(SnapshotPath(project, title)))
  {
    hide Plain, Slug;
    SnapshotWordsArePlain();
    SlugIsPlain(project);
    SlugIsPlain(title);
    var lead := SNAPSHOT_ID + SNAPSHOT_ROOT;
    PlainAppend(lead, Slug(project));
    PlainAppend(lead + Slug(project), "/");
    PlainAppend(lead + Slug(project) + "/", Slug(title));
    PlainAppend(lead + Slug(project) + "/" + Slug(title), "-current.md");
    assert SnapshotId(SnapshotPath(project, title)) == lead + Slug(project) + "/" + Slug(title) + "-current.md";
  }

  lemma RetiredIsSound(note: Note, heir: string, today: string)
    requires Sound(note) && Plain(heir) && Plain(today)
    ensures Sound(SupersededNote(note, heir, today))
  {
    hide Codec.Separates, Codec.Escapes, SupersededTags;
    var s := note.frontmatter;
    StatesArePlain();
    SoundWords(note);
    var texts := [s.noteId, s.title, s.project, s.noteType, s.status, s.updated, s.summary, s.scope, s.corpusId];
    assert texts[1] == s.title && texts[2] == s.project && texts[3] == s.noteType && texts[6] == s.summary &&
        texts[7] == s.scope;
  }

  // ----- The writes, seen as cards -----

  /** The card of what reading the written record gives. */
  function WrittenCard(note: Note): Card {
    CardOf(if ReadNote(note).Some? then ReadNote(note).value else note)
  }

  /** A record that the vault accepts under its path. */
  predicate Writable(note: Note) {
    FileOk(note.path, note) && CorpusPolicy(note)
  }

  /** A predecessor, rewritten: its file, its id and its place in the relation. */
  ghost predicate Rewrites(files: Files, q: string, w: Note, heir: string) {
    && Writable(w) && w.path == q && !IsSnapshotPath(q)
    && q in files && w.noteId == files[q].noteId
    && q in CardsOf(files) && CardsOf(files)[q].current && CardsOf(files)[q].noteId == w.noteId
    && Retired(CardsOf(files)[q], WrittenCard(w), heir)
  }

  lemma RetiredWrite(files: Files, source: Frontmatter, q: string, heir: string, today: string)
    requires FilesOk(files) && Shape(CardsOf(files)) && Plain(heir) && Plain(today)
    requires CanRead(files, q) && Matches(NoteAt(files, q), source)
    ensures Rewrites(files, q, SupersededNote(NoteAt(files, q), heir, today), heir)
  {
    hide ReadNote, Sound, Readable, SharesKey, SupersededTags, KeyOf, Plain, WrittenBack, IsSnapshotId,
         IsSnapshotPath, BodyAsRead;
    var note := files[q];
    assert FileOk(q, note);
    SoundIsRead(note);
    CardAsRead(note);
    var n := NoteAt(files, q);
    var w := SupersededNote(n, heir, today);
    RetiredIsSound(n, heir, today);
    CardAsRead(w);
    assert q in CardsOf(files) && WellKept(CardsOf(files)[q]);
    RetiredTags(n.frontmatter.tags);
  }

  lemma RetiredTags(tags: seq<string>)
    ensures TAG_CURRENT !in SupersededTags(tags)
  {
  }

  /** The new note: where it stands, and the key under which it will be read. */
  lemma CanonicalWrite(req: Request, draw: Draw, draft: Draft, ids: seq<string>)
    requires Readable(draft.frontmatter) && IsCorpus(req.corpusId) && Plain(draw.noteId) && Plain(draw.today) &&
               AllPlain(ids)
    requires StartsWith(draw.path, req.corpusId + "/") && !IsSnapshotId(draw.noteId) && !IsSnapshotPath(draw.path)
    requires req.asCurrent ==> req.corpusId == CONTEXT_BRAIN
    ensures var note := CanonicalNote(req, draw, draft, ids);
            && Writable(note) && note.path == draw.path && note.noteId == draw.noteId
            && WrittenCard(note) == Card(draw.noteId, false, req.asCurrent, false, None, SetOf(ids),
                                         KeyAsRead(req.corpusId, draft.frontmatter))
  {
    hide Sound, Readable, Plain, Trim, NonBlank, PromotedTags, IsSnapshotId, IsSnapshotPath, Folded, Codec.Escape;
    var note := CanonicalNote(req, draw, draft, ids);
    CanonicalIsSound(req, draw, draft, ids);
    CardAsRead(note);
    CanonicalTags(draw.tags);
    KeyIsRead(req, draw, draft, ids);
  }

  lemma KeyIsRead(req: Request, draw: Draw, draft: Draft, ids: seq<string>)
    ensures KeyOf(req.corpusId, WrittenBack(CanonicalNote(req, draw, draft, ids).frontmatter)) ==
            KeyAsRead(req.corpusId, draft.frontmatter)
  {
    hide Trim, Codec.Escape, Folded, NonBlank, PromotedTags, EscapeAll;
  }

  lemma CanonicalTags(tags: seq<string>)
    ensures TAG_CURRENT !in PromotedTags(tags, false)
  {
  }

  lemma SnapshotWrite(note: Note)
    requires Sound(note) && Plain(note.frontmatter.updated) && note.corpusId == CONTEXT_BRAIN
    ensures var snapshot := SnapshotNote(note);
            && Writable(snapshot) && IsSnapshotPath(snapshot.path) && snapshot.noteId == SnapshotId(snapshot.path)
            && WrittenCard(snapshot) == Card(snapshot.noteId, true, false, false, None, {}, WrittenCard(snapshot).key)
  {
    hide Sound, Readable, Plain, Trim, SnapshotTags, SnapshotBody, KeyOf, WrittenBack, StartsWith, IsSnapshotPath,
         IsSnapshotId, SnapshotPath, SnapshotId;
    SnapshotIsSound(note);
    CardAsRead(SnapshotNote(note));
    SnapshotPlace(note.frontmatter.project, note.frontmatter.title);
    assert IsCorpus(CONTEXT_BRAIN) && CONTEXT_BRAIN != GENERAL_NOTES;
    assert STATUS_PROMOTED != STATUS_SUPERSEDED;
  }

  lemma SnapshotPlace(project: string, title: string)
    ensures var path := SnapshotPath(project, title);
            StartsWith(path, CONTEXT_BRAIN + "/") && IsSnapshotPath(path) && IsSnapshotId(SnapshotId(path))
  {
    hide Slug;
    var path := SnapshotPath(project, title);
    assert SNAPSHOT_ROOT == CONTEXT_BRAIN + "/" + "current-state/";
    assert path == CONTEXT_BRAIN + "/" + ("current-state/" + (Slug(project) + "/" + Slug(title) + "-current.md"));
  }
}
