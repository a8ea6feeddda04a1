/** Planning a promotion: which notes the new one supersedes, and what is going to be written. */
module Planning {
  import opened Domain
  import opened Promotion
  import opened Reading
  import opened Stores
  import opened Text

  const TAG_SNAPSHOT := "topic/current-state-snapshot"
  const SNAPSHOT_ROOT := "context_brain/current-state/"
  const SNAPSHOT_ID := "snapshot:"

  /** What a caller asks for. */
  datatype Request = Request(draftId: string, corpusId: string, asCurrent: bool)

  /** What the planner draws from outside: a new id, the target path, the clock, the validator's verdict and tags,
      and the orders in which the staging tree and the corpus directory are read. */
  datatype Draw = Draw(
    noteId: string,
    path: string,
    outboxId: string,
    today: string,
    now: string,
    valid: bool,
    tags: seq<string>,
    staging: seq<string>,
    listing: seq<string>)

  // ----- Tags -----

  function Without(tags: seq<string>, tag: string): (r: seq<string>)
    ensures forall t :: t in r <==> t in tags && t != tag
  {
    if tags == [] then []
    else (if tags[0] == tag then [] else [tags[0]]) + Without(tags[1..], tag)
  }

  function With(tags: seq<string>, tag: string): seq<string> {
    if tag in tags then tags else tags + [tag]
  }

  function PromotedTags(tags: seq<string>, current: bool): seq<string> {
    var others := Without(Without(Without(Unique(tags), "status/draft"), "status/staged"), "status/superseded");
    var t := With(others, "status/promoted");
    if current then With(t, TAG_CURRENT) else Without(t, TAG_CURRENT)
  }

  function SupersededTags(tags: seq<string>): seq<string> {
    With(Without(Without(Unique(tags), TAG_CURRENT), "status/promoted"), "status/superseded")
  }

  function SnapshotTags(tags: seq<string>): seq<string> {
    var others := Without(Without(Without(Unique(tags), TAG_CURRENT), "status/superseded"), "status/draft");
    With(With(others, "status/promoted"), TAG_SNAPSHOT)
  }

  predicate NoRepeats(tags: seq<string>) {
    forall i, j :: 0 <= i < j < |tags| ==> tags[i] != tags[j]
  }

  lemma {:induction false} WithoutRepeats(tags: seq<string>, tag: string)
    requires NoRepeats(tags)
    ensures NoRepeats(Without(tags, tag))
  {
    if tags != [] {
      WithoutRepeats(tags[1..], tag);
      var rest := Without(tags[1..], tag);
      assert forall k :: 0 <= k < |rest| ==> rest[k] in tags[1..];
      assert tags[0] !in tags[1..];
    }
  }

  lemma WithRepeats(tags: seq<string>, tag: string)
    requires NoRepeats(tags)
    ensures NoRepeats(With(tags, tag))
  {
  }

  /** The tags of the source are sets, listed in the order in which they were put in. */
  lemma TagsDoNotRepeat(tags: seq<string>, current: bool)
    ensures NoRepeats(PromotedTags(tags, current)) && NoRepeats(SupersededTags(tags)) && NoRepeats(SnapshotTags(tags))
  {
    hide Without, With, Unique, NoRepeats;
    var all := Unique(tags);
    UniqueRepeats(tags);
    WithoutRepeats(all, "status/draft");
    WithoutRepeats(Without(all, "status/draft"), "status/staged");
    WithoutRepeats(Without(Without(all, "status/draft"), "status/staged"), "status/superseded");
    var promoted := Without(Without(Without(all, "status/draft"), "status/staged"), "status/superseded");
    WithRepeats(promoted, "status/promoted");
    WithRepeats(With(promoted, "status/promoted"), TAG_CURRENT);
    WithoutRepeats(With(promoted, "status/promoted"), TAG_CURRENT);
    WithoutRepeats(all, TAG_CURRENT);
    WithoutRepeats(Without(all, TAG_CURRENT), "status/promoted");
    WithRepeats(Without(Without(all, TAG_CURRENT), "status/promoted"), "status/superseded");
    WithoutRepeats(Without(all, TAG_CURRENT), "status/superseded");
    WithoutRepeats(Without(Without(all, TAG_CURRENT), "status/superseded"), "status/draft");
    var others := Without(Without(Without(all, TAG_CURRENT), "status/superseded"), "status/draft");
    WithRepeats(others, "status/promoted");
    WithRepeats(With(others, "status/promoted"), TAG_SNAPSHOT);
  }

  lemma UniqueRepeats(tags: seq<string>)
    ensures NoRepeats(Unique(tags))
  {
  }

  // ----- Paths -----

  predicate IsSlugChar(c: char) {
    'a' <= c <= 'z' || '0' <= c <= '9'
  }

  /** Runs of other characters become one dash. */
  function Dashed(s: string, pending: bool): (r: string)
    ensures forall c :: c in r ==> IsSlugChar(c) || c == '-'
  {
    if s == [] then (if pending then "-" else "")
    else if IsSlugChar(s[0]) then (if pending then "-" else "") + [s[0]] + Dashed(s[1..], false)
    else Dashed(s[1..], true)
  }

  function Slug(s: string): (r: string)
    ensures forall c :: c in r ==> IsSlugChar(c) || c == '-'
  {
    var d := Dashed(Folded(s), false);
    var e := if StartsWith(d, "-") then d[1..] else d;
    if e != [] && e[|e| - 1] == '-' then e[..|e| - 1] else e
  }

  function FirstEight(id: string): string {
    if |id| <= 8 then id else id[..8]
  }

  function DefaultPath(corpusId: string, title: string, noteId: string): string {
    corpusId + "/" + (Slug(title) + "-" + FirstEight(noteId) + ".md")
  }

  function SnapshotPath(project: string, title: string): string {
    SNAPSHOT_ROOT + (Slug(project) + "/" + Slug(title) + "-current.md")
  }

  /** The id of a snapshot is a digest of its path, written here as what is hashed. */
  function SnapshotId(path: string): string {
    SNAPSHOT_ID + path
  }

  predicate IsSnapshotPath(path: string) {
    StartsWith(path, SNAPSHOT_ROOT)
  }

  predicate IsSnapshotId(id: string) {
    StartsWith(id, SNAPSHOT_ID)
  }

  /** A note at its default path never lands where a snapshot is kept. */
  lemma DefaultPathAvoidsSnapshots(corpusId: string, title: string, noteId: string)
    requires corpusId == CONTEXT_BRAIN || corpusId == GENERAL_NOTES
    requires '/' !in noteId
    ensures !IsSnapshotPath(DefaultPath(corpusId, title, noteId))
  {
    hide Slug, FirstEight;
    var name := Slug(title) + "-" + FirstEight(noteId) + ".md";
    NoSlashInName(title, noteId);
    FileNameAvoidsSnapshots(corpusId, name);
  }

  /** A default path names the note by its title and the first eight characters of its id, so that notes of different
      ids do not meet there, whatever their titles. */
  lemma DefaultPathNamesNote(corpusId: string, title: string, noteId: string, other: string, otherId: string)
    requires |noteId| >= 8 && |otherId| >= 8
    ensures DefaultPath(corpusId, title, noteId) == corpusId + "/" + Slug(title) + "-" + noteId[..8] + ".md"
    ensures noteId[..8] != otherId[..8] ==>
              DefaultPath(corpusId, title, noteId) != DefaultPath(corpusId, other, otherId)
  {
    hide Slug;
    var one, two := DefaultPath(corpusId, title, noteId), DefaultPath(corpusId, other, otherId);
    assert one == corpusId + "/" + Slug(title) + "-" + noteId[..8] + ".md";
    assert two == corpusId + "/" + Slug(other) + "-" + otherId[..8] + ".md";
    assert one[|one| - 11..|one| - 3] == noteId[..8] && two[|two| - 11..|two| - 3] == otherId[..8];
  }

  lemma NoSlashInName(title: string, noteId: string)
    requires '/' !in noteId
    ensures '/' !in Slug(title) + "-" + FirstEight(noteId) + ".md"
  {
    hide Slug;
    forall c | c in Slug(title) + "-" + FirstEight(noteId) + ".md" ensures c != '/' {
      assert c in Slug(title) || c in "-" || c in FirstEight(noteId) || c in ".md";
    }
  }

  lemma FileNameAvoidsSnapshots(corpusId: string, name: string)
    requires corpusId == CONTEXT_BRAIN || corpusId == GENERAL_NOTES
    requires '/' !in name
    ensures !IsSnapshotPath(corpusId + "/" + name)
  {
    var path := corpusId + "/" + name;
    assert SNAPSHOT_ROOT[0] == 'c' && SNAPSHOT_ROOT[27] == '/';
    assert path[0] == corpusId[0];
    if corpusId == CONTEXT_BRAIN && 27 < |path| {
      assert path[27] == name[13];
      assert path[27] in name;
    }
  }

  // ----- What the planner reads -----

  type Files = map<string, Note>

  /** The first draft file under this id; none when there is none, or when a file before it cannot be read. */
  function FindDraft(drafts: map<string, Draft>, order: seq<string>, id: string): (r: Option<Draft>)
    ensures r.Some? ==> r.value.noteId == id
    ensures r.Some? ==> exists p :: p in order && p in drafts && ReadDraft(drafts[p]) == r
  {
    if order == [] then None
    else if order[0] !in drafts then FindDraft(drafts, order[1..], id)
    else
      match ReadDraft(drafts[order[0]])
      case None => None
      case Some(draft) => if draft.noteId == id then Some(draft) else FindDraft(drafts, order[1..], id)
  }

  /** The new note replaces this one: current, of the same type and project, sharing title or scope. */
  predicate Matches(note: Note, source: Frontmatter) {
    && note.frontmatter.currentState
    && note.frontmatter.noteType == source.noteType
    && note.frontmatter.project == source.project
    && SharesKey(note.frontmatter, source)
  }

  predicate SharesKey(a: Frontmatter, b: Frontmatter) {
    Folded(a.title) == Folded(b.title) || Folded(a.scope) == Folded(b.scope)
  }

  predicate CanRead(files: Files, p: string) {
    p in files && ReadNote(files[p]).Some?
  }

  function NoteAt(files: Files, p: string): Note
    requires CanRead(files, p)
  {
    ReadNote(files[p]).value
  }

  /** The paths of the notes that a new note of this frontmatter replaces, in the order of the listing. */
  function FindSuperseded(files: Files, listing: seq<string>, source: Frontmatter): (found: seq<string>)
    ensures forall p :: p in found <==> p in listing && CanRead(files, p) && Matches(NoteAt(files, p), source)
    ensures (forall i, j :: 0 <= i < j < |listing| ==> listing[i] != listing[j]) ==>
              forall i, j :: 0 <= i < j < |found| ==> found[i] != found[j]
  {
    if listing == [] then []
    else
      var rest := FindSuperseded(files, listing[1..], source);
      if CanRead(files, listing[0]) && Matches(NoteAt(files, listing[0]), source) then [listing[0]] + rest else rest
  }

  // ----- What is planned -----

  function NonBlank(s: Option<string>): Option<string> {
    if s.Some? && Trim(s.value) != "" then Some(Trim(s.value)) else None
  }

  /** The validator hands back the text fields without outer white space. */
  function Normalized(f: Frontmatter, tags: seq<string>): Frontmatter {
    f.(title := Trim(f.title), project := Trim(f.project), summary := Trim(f.summary), scope := Trim(f.scope),
       tags := tags, validFrom := NonBlank(f.validFrom), validUntil := NonBlank(f.validUntil))
  }

  function PromotedFrontmatter(req: Request, draw: Draw, source: Frontmatter, replacedIds: seq<string>): Frontmatter {
    var f := source.(noteId := draw.noteId, status := STATUS_PROMOTED, updated := draw.today,
      corpusId := req.corpusId, currentState := req.asCurrent, supersededBy := None);
    Normalized(f, draw.tags).(supersedes := Some(replacedIds), tags := PromotedTags(draw.tags, req.asCurrent))
  }

  function CanonicalNote(req: Request, draw: Draw, draft: Draft, replacedIds: seq<string>): Note {
    Note(draw.noteId, req.corpusId, draw.path, PromotedFrontmatter(req, draw, draft.frontmatter, replacedIds),
        draft.body)
  }

  function SupersededNote(note: Note, heir: string, today: string): Note {
    note.(frontmatter := note.frontmatter.(status := STATUS_SUPERSEDED, currentState := false,
      supersededBy := Some(heir), updated := today, tags := SupersededTags(note.frontmatter.tags)))
  }

  function IdsOf(notes: seq<Note>): (ids: seq<string>)
    ensures |ids| == |notes|
  {
    seq(|notes|, i requires 0 <= i < |notes| => notes[i].noteId)
  }

  function NotesAt(files: Files, paths: seq<string>): (notes: seq<Note>)
    requires forall p :: p in paths ==> CanRead(files, p)
    ensures |notes| == |paths|
  {
    seq(|paths|, i requires 0 <= i < |paths| => NoteAt(files, paths[i]))
  }

  function SnapshotBody(note: Note): string {
    var f := note.frontmatter;
    Join(["## Summary", "", f.summary, "", "## Details", "",
      "- Canonical note: " + note.path, "- Canonical note ID: " + note.noteId, "- Note type: " + f.noteType,
      "- Scope: " + f.scope, "- Updated: " + f.updated, "- Project: " + f.project, "",
      "## Sources", "", "- " + note.path], "\n")
  }

  function SnapshotNote(note: Note): Note {
    var f := note.frontmatter;
    var path := SnapshotPath(f.project, f.title);
    Note(SnapshotId(path), note.corpusId, path,
      Frontmatter(SnapshotId(path), f.title + " Current", f.project, "reference", STATUS_PROMOTED, f.updated,
        Trim("Current-state snapshot for " + f.title + ". " + f.summary), SnapshotTags(f.tags), f.scope, note.corpusId,
        false, f.validFrom, f.validUntil, None, None),
      SnapshotBody(note))
  }

  /** A snapshot exists only for a current note of the context brain that is not a snapshot itself. */
  function PrepareSnapshot(note: Note): Option<Note> {
    if note.corpusId != CONTEXT_BRAIN || !note.frontmatter.currentState then None
    else if TAG_SNAPSHOT in note.frontmatter.tags then None
    else Some(SnapshotNote(note))
  }

  /** An identical body is already canonical in the corpus and not superseded. */
  predicate ExactDuplicate(rows: map<string, NoteRow>, corpusId: string, body: string) {
    exists id :: id in rows && rows[id].corpusId == corpusId && rows[id].lifecycle != STATUS_SUPERSEDED
                 && rows[id].contentHash == Some(body)
  }

  function Retire(notes: seq<Note>, heir: string, today: string): (retired: seq<Note>)
    ensures |retired| == |notes|
  {
    seq(|notes|, i requires 0 <= i < |notes| => SupersededNote(notes[i], heir, today))
  }

  /** The payload for a draft and the notes it replaces, as they were read; None when no snapshot can be prepared. */
  function PayloadFor(req: Request, draw: Draw, draft: Draft, replaced: seq<Note>): Option<Payload> {
    var ids := IdsOf(replaced);
    var canonical := CanonicalNote(req, draw, draft, ids);
    var update := draft.(lifecycle := STATUS_PROMOTED,
      frontmatter := draft.frontmatter.(status := STATUS_PROMOTED, updated := draw.today, currentState := false));
    var decision := Decision(draw.outboxId, draft.noteId, draw.noteId, ids, draw.now);
    var writes := Retire(replaced, draw.noteId, draw.today) + [canonical];
    if !req.asCurrent then Some(Payload(writes, update, decision))
    else
      match PrepareSnapshot(canonical)
      case None => None
      case Some(snapshot) => Some(Payload(writes + [snapshot], update, decision))
  }

  predicate Listable(files: Files, listing: seq<string>) {
    forall i :: 0 <= i < |listing| ==> CanRead(files, listing[i])
  }

  /** The payload a promotion queues; None when the request is rejected or a file it reads cannot be read. */
  function Plan(t: Tables, req: Request, draw: Draw): Option<Payload> {
    match FindDraft(t.drafts, draw.staging, req.draftId)
    case None => None
    case Some(draft) =>
      if !draw.valid || ExactDuplicate(t.rows, req.corpusId, draft.body) then None
      else if !req.asCurrent then PayloadFor(req, draw, draft, [])
      else if !Listable(t.files, draw.listing) then None
      else
        var found := FindSuperseded(t.files, draw.listing, draft.frontmatter);
        PayloadFor(req, draw, draft, NotesAt(t.files, found))
  }
}
