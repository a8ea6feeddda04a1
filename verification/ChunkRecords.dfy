/** What the chunk records of a note say of it, and on which days they are current. */
module ChunkRecords {
  import opened Chunking
  import opened Domain
  import opened Text

  // ----- The records -----

  /** The heading right above the last one; the title does not count as one. */
  predicate IsParent(path: seq<string>, parent: Option<string>) {
    match parent
    case None => |path| <= 2
    case Some(heading) => |path| >= 3 && path[|path| - 2] == heading
  }

  /** The index-th chunk shows this part of the note, and otherwise what the note itself says. */
  ghost predicate Describes(chunk: Chunk, note: Note, seed: Seed, index: nat) {
    var f := note.frontmatter;
    && chunk.id.noteId == chunk.noteId == note.noteId && chunk.id.index == index
    && chunk.id.headingPath == chunk.headingPath == seed.headingPath
    && chunk.id.rawText == chunk.rawText == seed.rawText
    && IsParent(chunk.headingPath, chunk.parentHeading)
    && chunk.corpusId == note.corpusId && chunk.path == note.path && chunk.noteType == f.noteType
    && chunk.scope == f.scope && chunk.tags == f.tags && chunk.updatedAt == f.updated
    && chunk.validFrom == f.validFrom && chunk.validUntil == f.validUntil
    && chunk.tokenEstimate >= 1 && 4 * chunk.tokenEstimate >= |chunk.rawText|
    && (chunk.rawText != "" ==> 4 * (chunk.tokenEstimate - 1) < |chunk.rawText|)
  }

  /** There is one record for each part of the body, in order, and it describes that part. */
  lemma ChunksDescribeNote(note: Note, target: int, today: string, age: string -> int)
    ensures var seeds, chunks := Seeds(note.frontmatter.title, note.body, target), ChunksOf(note, target, today, age);
            |chunks| == |seeds| && forall i :: 0 <= i < |chunks| ==> Describes(chunks[i], note, seeds[i], i)
  {
    hide Seeds, ClassifyStaleness;
  }

  // ----- Days -----

  /** The first day is not after the second. */
  predicate NotAfter(a: string, b: string) {
    !Before(b, a)
  }

  lemma {:induction false} NotAfterIsTransitive(a: string, b: string, c: string)
    requires NotAfter(a, b) && NotAfter(b, c)
    ensures NotAfter(a, c)
    decreases |a| + |b| + |c|
  {
    if a != "" && b != "" && c != "" && a[0] == b[0] == c[0] {
      NotAfterIsTransitive(a[1..], b[1..], c[1..]);
    }
  }

  /** An absent or empty date sets no bound. */
  predicate Reached(from: Option<string>, day: string) {
    from.None? || from.value == "" || NotAfter(from.value, day)
  }

  predicate NotPassed(until: Option<string>, day: string) {
    until.None? || until.value == "" || NotAfter(day, until.value)
  }

  /** A note's chunks are superseded whenever the note is; they are current on the days from its first to its last, as
      long as it is the current state and not older than 180 days, and stale on all others. */
  lemma CurrentOnDays(fm: Frontmatter, day: string, age: string -> int)
    ensures ClassifyStaleness(fm, day, age).Superseded? <==> fm.status == STATUS_SUPERSEDED
    ensures ClassifyStaleness(fm, day, age).Current? <==>
            && fm.status != STATUS_SUPERSEDED && fm.currentState && age(fm.updated) <= 180
            && Reached(fm.validFrom, day) && NotPassed(fm.validUntil, day)
  {
    hide Before;
  }

  /** The days on which a chunk is current follow one another without a gap. */
  lemma CurrentDaysAreAdjacent(fm: Frontmatter, early: string, day: string, late: string, ageEarly: string -> int,
                               age: string -> int, ageLate: string -> int)
    requires NotAfter(early, day) && NotAfter(day, late) && age(fm.updated) <= ageLate(fm.updated)
    requires ClassifyStaleness(fm, early, ageEarly).Current? && ClassifyStaleness(fm, late, ageLate).Current?
    ensures ClassifyStaleness(fm, day, age).Current?
  {
    hide Before, NotAfter;
    CurrentOnDays(fm, early, ageEarly);
    CurrentOnDays(fm, day, age);
    CurrentOnDays(fm, late, ageLate);
    if fm.validFrom.Some? && fm.validFrom.value != "" {
      NotAfterIsTransitive(fm.validFrom.value, early, day);
    }
    if fm.validUntil.Some? && fm.validUntil.value != "" {
      NotAfterIsTransitive(day, late, fm.validUntil.value);
    }
  }
}
