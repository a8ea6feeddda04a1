/** The chunk rows of a whole vault under the real chunker: what walking them finds after any serial run. */
module VaultIndex {
  import opened Domain
  import opened FrontmatterRoundTrip
  import opened Neighborhood
  import opened Planning
  import opened Reading
  import opened SerialRuns
  import opened Stores
  import opened Supersession
  import opened Text
  import opened VaultNotes
  import opened VaultRuns
  import Blocks
  import Chunking
  import Codec = FrontmatterCodec
  import Headings

  /** The chunker as the stores use it, for one target size and one day. */
  function TheChunker(target: int, today: string, age: string -> int): Chunker {
    note => Chunking.ChunksOf(note, target, today, age)
  }

  // ----- The indexed record and the file as it reads -----

  /** No field that chunks show is changed by writing and reading. */
  predicate ShowsPlain(f: Frontmatter) {
    && !Codec.Escapes(f.title) && !Codec.Escapes(f.noteType) && !Codec.Escapes(f.scope) && !Codec.Escapes(f.updated)
    && NoneEscapes(f.tags) && Present(f.validFrom) == f.validFrom && Present(f.validUntil) == f.validUntil
  }

  lemma ShowsPlainIff(f: Frontmatter)
    ensures var w := WrittenBack(f);
            ShowsPlain(f) <==>
              && w.title == f.title && w.noteType == f.noteType && w.scope == f.scope && w.updated == f.updated
              && w.tags == f.tags && w.validFrom == f.validFrom && w.validUntil == f.validUntil
  {
    hide Codec.Escapes, Codec.Escape, NoneEscapes, EscapeAll, Present;
    EscapeIsIdentityIff(f.title);
    EscapeIsIdentityIff(f.noteType);
    EscapeIsIdentityIff(f.scope);
    EscapeIsIdentityIff(f.updated);
    EscapeAllIsIdentityIff(f.tags);
  }

  /** The path of a chunk starts with the title. */
  lemma FirstChunk(note: Note, target: int, today: string, age: string -> int)
    ensures var c := Chunking.ChunksOf(note, target, today, age)[0];
            && c.headingPath != [] && c.headingPath[0] == note.frontmatter.title
            && c.noteType == note.frontmatter.noteType && c.scope == note.frontmatter.scope &&
                 c.tags == note.frontmatter.tags
            && c.updatedAt == note.frontmatter.updated
            && c.validFrom == note.frontmatter.validFrom && c.validUntil == note.frontmatter.validUntil
  {
    hide Chunking.Seeds, Chunking.ClassifyStaleness, Headings.FirstHeadings, Headings.HeadingCount, Blocks.SectionTexts;
    var at := Chunking.ChunkHeadingPath(note.frontmatter.title, note.body, target);
    assert Chunking.BelongsTo(note.frontmatter.title, note.body, target, 0, at[0]);
  }

  lemma SameShownSameChunks(a: Note, b: Note, target: int, today: string, age: string -> int)
    requires SamePlace(a, b) && a.body == b.body
    requires var f, g := a.frontmatter, b.frontmatter;
             && f.title == g.title && f.noteType == g.noteType && f.scope == g.scope && f.updated == g.updated
             && f.tags == g.tags && f.validFrom == g.validFrom && f.validUntil == g.validUntil
    ensures Chunking.ChunksOf(a, target, today, age) == Chunking.ChunksOf(b, target, today, age)
  {
    hide Chunking.Seeds, Chunking.IdOf, Chunking.EstimateTokens;
    var seeds := Chunking.Seeds(a.frontmatter.title, a.body, target);
    assert Chunking.Unlinked(a, seeds, today, age) == Chunking.Unlinked(b, seeds, today, age);
  }

  /** The chunks indexed when a note is written are those of chunking its file as it reads, exactly when no shown
      field needs escaping and no optional date is empty; the body is one whose line ends and outer white space are
      settled. */
  lemma {:induction false} IndexedAsReadIff(note: Note, target: int, today: string, age: string -> int)
    requires Sound(note) && BodyAsRead(note.body) == note.body
    ensures ReadNote(note).Some?
    ensures Chunking.ChunksOf(ReadNote(note).value, target, today, age) ==
              Chunking.ChunksOf(note, target, today, age) <==>
            ShowsPlain(note.frontmatter)
  {
    hide Sound, ReadNote, WrittenBack, BodyAsRead, Chunking.ChunksOf, ShowsPlain;
    SoundIsRead(note);
    var read := ReadNote(note).value;
    ShowsPlainIff(note.frontmatter);
    FirstChunk(note, target, today, age);
    FirstChunk(read, target, today, age);
    if ShowsPlain(note.frontmatter) {
      SameShownSameChunks(read, note, target, today, age);
    }
  }

  /** Settled bodies: no line end left to convert and no outer white space. */
  lemma BodySettledIff(body: string)
    ensures BodyAsRead(body) == body <==> !HasCrlf(body) && Trimmed(body)
  {
    hide Crlf, HasCrlf, Trimmed, TrimStart, TrimEnd;
    var once := Codec.NormalizeLineEndings(body);
    CrlfShape(body);
    CrlfShape(once);
    TrimShape(Crlf(once));
    if !HasCrlf(body) && Trimmed(body) {
      TrimOfTrimmed(body);
    }
  }

  // ----- Walks -----

  lemma StoredChunksAreSynced(v: Vault, target: int, today: string, age: string -> int, p: string)
    requires VaultInv(v, TheChunker(target, today, age)) && p in v.tables.files
    ensures Synced(v.tables.chunks, Chunking.ChunksOf(v.tables.files[p], target, today, age))
  {
    hide FilesOk, RelationInv, RowsInv, DraftsInv, IndexInv, Chunking.ChunksOf;
    var chunker := TheChunker(target, today, age);
    var chunks := Chunking.ChunksOf(v.tables.files[p], target, today, age);
    Chunking.ChunkerIsGood(target, today, age);
    Chunking.ChunksAreLinked(v.tables.files[p], target, today, age);
    forall i | 0 <= i < |chunks| ensures chunks[i].id in v.tables.chunks && v.tables.chunks[chunks[i].id] == chunks[i] {
      FileChunkIsIndexed(v.tables, chunker, p, chunks[i]);
    }
  }

  /** Walks from every chunk of these chunks find their windows. */
  ghost predicate WalksAreWindows(t: Tables, chunks: seq<Chunk>) {
    forall i: nat, radius: nat :: i < |chunks| ==> Around(t.chunks, chunks[i].id, radius) == Window(chunks, i, radius)
  }

  /** A file whose record shows plain fields and has a settled body. */
  predicate ReadsAsIndexed(note: Note) {
    ShowsPlain(note.frontmatter) && BodyAsRead(note.body) == note.body
  }

  /** After every serial run, walking the stored chunk rows from the i-th chunk of a note finds exactly the chunks from
      i - radius to i + radius of chunking the record last written, in order; and these are the chunks of the file as
      it reads wherever its fields are plain and its body settled. */
  lemma {:induction false} WalksFindTheFiles(actions: seq<Action>, target: int, today: string, age: string -> int,
                                        p: string)
    requires AllowedRun(EmptyVault, actions, TheChunker(target, today, age))
    requires p in RunActions(EmptyVault, actions, TheChunker(target, today, age)).tables.files
    ensures var t := RunActions(EmptyVault, actions, TheChunker(target, today, age)).tables;
            && CanRead(t.files, p)
            && WalksAreWindows(t, Chunking.ChunksOf(t.files[p], target, today, age))
            && (ReadsAsIndexed(t.files[p]) ==>
                  WalksAreWindows(t, Chunking.ChunksOf(NoteAt(t.files, p), target, today, age)))
  {
    hide RunActions, AllowedRun, RelationInv, RowsInv, DraftsInv, IndexInv, Chunking.ChunksOf, Around, Synced, Window,
         ReadNote, Sound, ShowsPlain, BodyAsRead;
    var chunker := TheChunker(target, today, age);
    var v := RunActions(EmptyVault, actions, chunker);
    Chunking.ChunkerIsGood(target, today, age);
    EmptyVaultInv(chunker);
    RunsKeepInv(EmptyVault, actions, chunker);
    var note := v.tables.files[p];
    assert FileOk(p, note);
    StoredChunksAreSynced(v, target, today, age, p);
    SoundIsRead(note);
    var chunks := Chunking.ChunksOf(note, target, today, age);
    forall i: nat, radius: nat | i < |chunks|
      ensures Around(v.tables.chunks, chunks[i].id, radius) == Window(chunks, i, radius)
    {
      WindowIsSlice(v.tables.chunks, chunks, i, radius);
    }
    if ReadsAsIndexed(note) {
      IndexedAsReadIff(note, target, today, age);
    }
  }
}
