/** The records that travel between the services: notes, drafts and chunks. */
module Domain {
  import opened Text

  const CONTEXT_BRAIN := "context_brain"
  const GENERAL_NOTES := "general_notes"

  const STATUS_DRAFT := "draft"
  const STATUS_PROMOTED := "promoted"
  const STATUS_SUPERSEDED := "superseded"

  const TAG_CURRENT := "status/current"

  datatype Frontmatter = Frontmatter(
    noteId: string,
    title: string,
    project: string,
    noteType: string,
    status: string,
    updated: string,
    summary: string,
    tags: seq<string>,
    scope: string,
    corpusId: string,
    currentState: bool,
    validFrom: Option<string>,
    validUntil: Option<string>,
    supersedes: Option<seq<string>>,
    supersededBy: Option<string>)

  /** A canonical note: one markdown file of the vault. */
  datatype Note = Note(
    noteId: string,
    corpusId: string,
    path: string,
    frontmatter: Frontmatter,
    body: string)

  /** A staging draft. */
  datatype Draft = Draft(
    noteId: string,
    corpusId: string,
    path: string,
    lifecycle: string,
    frontmatter: Frontmatter,
    body: string)

  datatype Staleness = Current | Stale | Superseded

  /** The digest a chunk is known by, written as what is hashed: SHA-256 is taken to be injective. */
  datatype ChunkId = ChunkId(noteId: string, headingPath: seq<string>, index: nat, rawText: string)

  datatype Chunk = Chunk(
    id: ChunkId,
    noteId: string,
    corpusId: string,
    noteType: string,
    path: string,
    headingPath: seq<string>,
    parentHeading: Option<string>,
    prev: Option<ChunkId>,
    next: Option<ChunkId>,
    rawText: string,
    scope: string,
    tags: seq<string>,
    staleness: Staleness,
    validFrom: Option<string>,
    validUntil: Option<string>,
    tokenEstimate: nat,
    updatedAt: string)

  type Chunker = Note -> seq<Chunk>

  /** What the stores rely on: chunks of a note carry its id, differ from each other,
      and are classed as superseded exactly when the note is. */
  ghost predicate ChunksOfNote(note: Note, chunks: seq<Chunk>) {
    && (forall i :: 0 <= i < |chunks| ==>
          && chunks[i].noteId == note.noteId
          && chunks[i].id.noteId == note.noteId
          && (chunks[i].staleness.Superseded? <==> note.frontmatter.status == STATUS_SUPERSEDED))
    && (forall i, j :: 0 <= i < j < |chunks| ==> chunks[i].id != chunks[j].id)
  }

  ghost predicate GoodChunker(chunker: Chunker) {
    forall note: Note :: ChunksOfNote(note, chunker(note))
  }
}
