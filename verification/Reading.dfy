/** Notes and drafts as the vault hands them out. A file holds the text of the record last written to it, and whoever
    looks at it reads that text: escapes stay in place, the body comes back trimmed, and some texts cannot be read. */
module Reading {
  import opened Domain
  import opened FrontmatterRoundTrip
  import opened Text
  import Codec = FrontmatterCodec

  /** `readRecord` of the canonical repository; None when parsing throws. */
  function ReadNote(note: Note): Option<Note> {
    match Codec.ParseMarkdownNote(Codec.SerializeMarkdownNote(note.frontmatter, note.body))
    case Ok(parsed) =>
      Some(Note(parsed.frontmatter.noteId, parsed.frontmatter.corpusId, note.path, parsed.frontmatter, parsed.body))
    case _ => None
  }

  /** `readRecord` of the staging repository. */
  function ReadDraft(draft: Draft): Option<Draft> {
    match Codec.ParseMarkdownNote(Codec.SerializeMarkdownNote(draft.frontmatter, draft.body))
    case Ok(parsed) =>
      Some(Draft(parsed.frontmatter.noteId, parsed.frontmatter.corpusId, draft.path, parsed.frontmatter.status,
                 parsed.frontmatter, parsed.body))
    case _ => None
  }

  function BodyAsRead(body: string): string {
    Trim(Crlf(Codec.NormalizeLineEndings(body)))
  }

  /** What a file is read as, for every record written to it. */
  lemma NoteAsRead(note: Note)
    ensures var f := WrittenBack(note.frontmatter);
            ReadNote(note) ==
              if Readable(note.frontmatter)
              then Some(Note(f.noteId, f.corpusId, note.path, f, BodyAsRead(note.body))) else None
  {
    hide Codec.ParseMarkdownNote, Codec.SerializeMarkdownNote, WrittenBack, Readable, AnyUnreadable, Codec.FieldsOf,
         Codec.NormalizeLineEndings, Trim, Crlf;
    ReadOfWritten(note.frontmatter, note.body);
    ReadableIff(note.frontmatter);
  }

  lemma DraftAsRead(draft: Draft)
    ensures var f := WrittenBack(draft.frontmatter);
            ReadDraft(draft) ==
              if Readable(draft.frontmatter)
              then Some(Draft(f.noteId, f.corpusId, draft.path, f.status, f, BodyAsRead(draft.body))) else None
  {
    hide Codec.ParseMarkdownNote, Codec.SerializeMarkdownNote, WrittenBack, Readable, AnyUnreadable, Codec.FieldsOf,
         Codec.NormalizeLineEndings, Trim, Crlf;
    ReadOfWritten(draft.frontmatter, draft.body);
    ReadableIff(draft.frontmatter);
  }

  /** Reading makes nothing unreadable. */
  lemma ReadableIsKept(fm: Frontmatter)
    requires Readable(fm)
    ensures Readable(WrittenBack(fm))
  {
    hide Codec.Escape, Codec.Separates;
    var plain := [fm.noteId, fm.title, fm.project, fm.noteType, fm.status, fm.updated, fm.summary, fm.scope,
        fm.corpusId];
    var w := WrittenBack(fm);
    var back := [w.noteId, w.title, w.project, w.noteType, w.status, w.updated, w.summary, w.scope, w.corpusId];
    forall i | 0 <= i < |back| ensures !Codec.Separates(back[i]) {
      Codec.EscapeShape(plain[i]);
      assert back[i] == Codec.Escape(plain[i]);
    }
    PresentIsReadable(fm.validFrom);
    PresentIsReadable(fm.validUntil);
    PresentIsReadable(fm.supersededBy);
  }

  lemma PresentIsReadable(s: Option<string>)
    requires s.Some? ==> !Codec.Separates(s.value)
    ensures Present(s).Some? ==> !Codec.Separates(Present(s).value)
  {
    if s.Some? {
      Codec.EscapeShape(s.value);
    }
  }

  // ----- What reading keeps whatever the texts hold -----

  /** Words such as ids, dates and states, which come back as they were written. */
  predicate Plain(s: string) {
    s != "" && !Codec.Escapes(s) && !Codec.Separates(s)
  }

  predicate AllPlain(words: seq<string>) {
    forall i :: 0 <= i < |words| ==> Plain(words[i])
  }

  predicate OptionPlain(word: Option<string>) {
    word.Some? ==> Plain(word.value)
  }

  function Predecessors(fm: Frontmatter): seq<string> {
    match fm.supersedes
    case None => []
    case Some(ids) => ids
  }

  /** A record whose ids and state are plain words and whose text can be read. */
  predicate Sound(note: Note) {
    var f := note.frontmatter;
    && Readable(f) && f.noteId == note.noteId && f.corpusId == note.corpusId
    && AllPlain([f.noteId, f.corpusId, f.status]) && OptionPlain(f.supersededBy) && AllPlain(Predecessors(f))
  }

  /** Titles, tags, dates and texts aside, the two records say the same. */
  predicate SamePlace(a: Note, b: Note) {
    && a.noteId == b.noteId && a.corpusId == b.corpusId && a.path == b.path
    && a.frontmatter.status == b.frontmatter.status && a.frontmatter.currentState == b.frontmatter.currentState
    && a.frontmatter.supersededBy == b.frontmatter.supersededBy
    && Predecessors(a.frontmatter) == Predecessors(b.frontmatter)
  }

  lemma PlainIsKept(s: string)
    requires Plain(s)
    ensures Codec.Escape(s) == s
  {
    Codec.EscapeShape(s);
  }

  /** A sound record is read as a sound one in the same place. */
  lemma SoundIsRead(note: Note)
    requires Sound(note)
    ensures ReadNote(note).Some? && SamePlace(ReadNote(note).value, note) && Sound(ReadNote(note).value)
    ensures ReadNote(note).value.frontmatter == WrittenBack(note.frontmatter)
    ensures ReadNote(note).value.body == BodyAsRead(note.body)
  {
    hide ReadNote, Codec.Escape, Plain, Readable, BodyAsRead;
    var f := note.frontmatter;
    NoteAsRead(note);
    ReadableIsKept(f);
    var words := [f.noteId, f.corpusId, f.status];
    assert Plain(words[0]) && Plain(words[1]) && Plain(words[2]);
    PlainIsKept(f.noteId);
    PlainIsKept(f.corpusId);
    PlainIsKept(f.status);
    if f.supersededBy.Some? {
      PlainIsKept(f.supersededBy.value);
      PlainIsVisible(f.supersededBy.value);
    }
    if f.supersedes.Some? {
      forall i | 0 <= i < |f.supersedes.value| ensures Codec.Escape(f.supersedes.value[i]) == f.supersedes.value[i] {
        PlainIsKept(f.supersedes.value[i]);
      }
      assert EscapeAll(f.supersedes.value) == f.supersedes.value;
    }
  }

  lemma PlainIsVisible(s: string)
    requires Plain(s)
    ensures s != ""
  {
  }
}
