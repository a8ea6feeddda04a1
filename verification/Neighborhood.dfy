/** The window around a chunk, found by walking its links, and the expansion of a list of candidates. */
module Neighborhood {
  import opened Chunking
  import opened Domain
  import opened Text

  /** The chunk table: each row is stored under its own id. */
  ghost predicate Keyed(rows: map<ChunkId, Chunk>) {
    forall id :: id in rows ==> rows[id].id == id
  }

  function Ids(chunks: seq<Chunk>): set<ChunkId> {
    set i | 0 <= i < |chunks| :: chunks[i].id
  }

  predicate DistinctIds(chunks: seq<Chunk>) {
    forall i, j :: 0 <= i < j < |chunks| ==> chunks[i].id != chunks[j].id
  }

  /** The row a link leads to, unless there is none or it has been visited. */
  function Follow(rows: map<ChunkId, Chunk>, link: Option<ChunkId>, visited: set<ChunkId>): Option<Chunk> {
    if link.Some? && link.value in rows && rows[link.value].id !in visited then Some(rows[link.value]) else None
  }

  function Back(rows: map<ChunkId, Chunk>, cursor: Chunk, visited: set<ChunkId>, steps: int): seq<Chunk>
    decreases steps
  {
    var previous := Follow(rows, cursor.prev, visited);
    if steps <= 0 || previous.None? then []
    else Back(rows, previous.value, visited + {previous.value.id}, steps - 1) + [previous.value]
  }

  function Forth(rows: map<ChunkId, Chunk>, cursor: Chunk, visited: set<ChunkId>, steps: int): seq<Chunk>
    decreases steps
  {
    var next := Follow(rows, cursor.next, visited);
    if steps <= 0 || next.None? then []
    else [next.value] + Forth(rows, next.value, visited + {next.value.id}, steps - 1)
  }

  function Around(rows: map<ChunkId, Chunk>, id: ChunkId, radius: int): seq<Chunk> {
    if id !in rows then []
    else
      var back := Back(rows, rows[id], {id}, radius);
      back + [rows[id]] + Forth(rows, rows[id], {id} + Ids(back), radius)
  }

  method GetChunkNeighborhood(rows: map<ChunkId, Chunk>, id: ChunkId, radius: int) returns (ordered: seq<Chunk>)
    ensures ordered == Around(rows, id, radius)
  {
    hide Follow, Ids;
    if id !in rows {
      return [];
    }
    NoIds();
    var center := rows[id];
    var visited := {id};
    var cursor := center;
    ordered := [];
    var index := 0;
    ghost var back := Back(rows, center, {id}, radius);
    while index < radius && cursor.prev.Some?
      invariant 0 <= index
      invariant back == Back(rows, cursor, visited, radius - index) + ordered
      invariant visited == {id} + Ids(ordered)
    {
      var previous := Follow(rows, cursor.prev, visited);
      if previous.None? {
        break;
      }
      IdsCons(previous.value, ordered);
      visited := visited + {previous.value.id};
      ordered := [previous.value] + ordered;
      cursor := previous.value;
      index := index + 1;
    }
    NoLink(rows, cursor.prev, visited);
    assert ordered == back;
    ordered := ordered + [center];
    cursor := center;
    index := 0;
    ghost var all := ordered + Forth(rows, center, visited, radius);
    while index < radius && cursor.next.Some?
      invariant 0 <= index
      invariant all == ordered + Forth(rows, cursor, visited, radius - index)
    {
      var next := Follow(rows, cursor.next, visited);
      if next.None? {
        break;
      }
      visited := visited + {next.value.id};
      ordered := ordered + [next.value];
      cursor := next.value;
      index := index + 1;
    }
    NoLink(rows, cursor.next, visited);
  }

  lemma NoLink(rows: map<ChunkId, Chunk>, link: Option<ChunkId>, visited: set<ChunkId>)
    ensures link.None? ==> Follow(rows, link, visited).None?
  {
  }

  lemma NoIds()
    ensures Ids([]) == {}
  {
  }

  lemma IdsCons(chunk: Chunk, rest: seq<Chunk>)
    ensures Ids([chunk] + rest) == {chunk.id} + Ids(rest)
  {
    var all := [chunk] + rest;
    assert all[0] == chunk;
    forall id | id in Ids(rest) ensures id in Ids(all) {
      var i :| 0 <= i < |rest| && rest[i].id == id;
      assert all[i + 1].id == id;
    }
  }

  // ----- On synced chunks the walk is a slice -----

  /** The chunks of a note as the stores hold them after a promotion. */
  ghost predicate Synced(rows: map<ChunkId, Chunk>, chunks: seq<Chunk>) {
    IsLinked(chunks) && forall i :: 0 <= i < |chunks| ==> chunks[i].id in rows && rows[chunks[i].id] == chunks[i]
  }

  function Larger(a: int, b: int): int {
    if a < b then b else a
  }

  function Smaller(a: int, b: int): int {
    if a < b then a else b
  }

  lemma LinksAre(rows: map<ChunkId, Chunk>, chunks: seq<Chunk>, i: nat)
    requires Synced(rows, chunks) && i < |chunks|
    ensures chunks[i].prev == if i > 0 then Some(chunks[i - 1].id) else None
    ensures chunks[i].next == if i + 1 < |chunks| then Some(chunks[i + 1].id) else None
    ensures chunks[i].id in rows && rows[chunks[i].id] == chunks[i]
  {
    assert LinkedAt(chunks, i);
  }

  lemma {:induction false} BackIsSlice(rows: map<ChunkId, Chunk>, chunks: seq<Chunk>, i: nat, visited: set<ChunkId>,
                                       steps: nat)
    requires Synced(rows, chunks) && i < |chunks|
    requires forall k :: 0 <= k < i ==> chunks[k].id !in visited
    ensures Back(rows, chunks[i], visited, steps) == chunks[Larger(0, i - steps)..i]
    decreases steps
  {
    hide Synced;
    LinksAre(rows, chunks, i);
    if steps > 0 && i > 0 {
      LinksAre(rows, chunks, i - 1);
      assert forall k :: 0 <= k < i - 1 ==> chunks[k].id != chunks[i - 1].id by { IdsDiffer(rows, chunks); }
      BackIsSlice(rows, chunks, i - 1, visited + {chunks[i - 1].id}, steps - 1);
      assert chunks[Larger(0, i - steps)..i] == chunks[Larger(0, i - steps)..i - 1] + [chunks[i - 1]];
    } else {
      assert chunks[Larger(0, i - steps)..i] == [];
    }
  }

  lemma IdsDiffer(rows: map<ChunkId, Chunk>, chunks: seq<Chunk>)
    requires Synced(rows, chunks)
    ensures DistinctIds(chunks)
  {
  }

  lemma {:induction false} ForthIsSlice(rows: map<ChunkId, Chunk>, chunks: seq<Chunk>, i: nat, visited: set<ChunkId>,
                                        steps: nat)
    requires Synced(rows, chunks) && i < |chunks|
    requires forall k :: i < k < |chunks| ==> chunks[k].id !in visited
    ensures Forth(rows, chunks[i], visited, steps) == chunks[i + 1..Smaller(|chunks|, i + 1 + steps)]
    decreases steps
  {
    hide Synced;
    LinksAre(rows, chunks, i);
    var stop := Smaller(|chunks|, i + 1 + steps);
    if steps > 0 && i + 1 < |chunks| {
      LinksAre(rows, chunks, i + 1);
      assert forall k :: i + 1 < k < |chunks| ==> chunks[k].id != chunks[i + 1].id by { IdsDiffer(rows, chunks); }
      ForthIsSlice(rows, chunks, i + 1, visited + {chunks[i + 1].id}, steps - 1);
      assert chunks[i + 1..stop] == [chunks[i + 1]] + chunks[i + 2..stop];
    } else {
      assert chunks[i + 1..stop] == [];
    }
  }

  lemma LaterIsOutside(chunks: seq<Chunk>, lo: nat, i: nat)
    requires lo <= i < |chunks| && DistinctIds(chunks)
    ensures forall k :: i < k < |chunks| ==> chunks[k].id !in {chunks[i].id} + Ids(chunks[lo..i])
  {
    assert forall j :: 0 <= j < i - lo ==> chunks[lo..i][j] == chunks[lo + j];
  }

  /** The chunks from i - radius to i + radius, as far as there are any. */
  function Window(chunks: seq<Chunk>, i: nat, radius: nat): seq<Chunk>
    requires i < |chunks|
  {
    chunks[Larger(0, i - radius)..Smaller(|chunks| - 1, i + radius) + 1]
  }

  /** From chunk i of a synced note, a walk of radius r returns the chunks from i - r to i + r, as far as there are
      any, in order. */
  lemma WindowIsSlice(rows: map<ChunkId, Chunk>, chunks: seq<Chunk>, i: nat, radius: nat)
    requires Synced(rows, chunks) && i < |chunks|
    ensures Around(rows, chunks[i].id, radius) == Window(chunks, i, radius)
  {
    hide Synced, Back, Forth;
    var lo := Larger(0, i - radius);
    var center := chunks[i];
    LinksAre(rows, chunks, i);
    IdsDiffer(rows, chunks);
    BackIsSlice(rows, chunks, i, {center.id}, radius);
    var back := chunks[lo..i];
    LaterIsOutside(chunks, lo, i);
    hide Ids;
    ForthIsSlice(rows, chunks, i, {center.id} + Ids(back), radius);
    hide Window;
    WindowParts(chunks, i, radius);
  }

  lemma WindowParts(chunks: seq<Chunk>, i: nat, radius: nat)
    requires i < |chunks|
    ensures Window(chunks, i, radius) ==
            chunks[Larger(0, i - radius)..i] + [chunks[i]] + chunks[i + 1..Smaller(|chunks|, i + 1 + radius)]
  {
  }

  // ----- On any rows the walk ends and repeats nothing -----

  lemma {:induction false} BackIsFresh(rows: map<ChunkId, Chunk>, cursor: Chunk, visited: set<ChunkId>, steps: int)
    ensures var back := Back(rows, cursor, visited, steps);
            DistinctIds(back) && Ids(back) !! visited && |back| <= Larger(0, steps)
    decreases steps
  {
    var previous := Follow(rows, cursor.prev, visited);
    if steps > 0 && previous.Some? {
      var chunk := previous.value;
      var before := Back(rows, chunk, visited + {chunk.id}, steps - 1);
      BackIsFresh(rows, chunk, visited + {chunk.id}, steps - 1);
      forall i | 0 <= i < |before| ensures before[i].id != chunk.id && before[i].id !in visited {
        assert before[i].id in Ids(before);
      }
    }
  }

  lemma {:induction false} ForthIsFresh(rows: map<ChunkId, Chunk>, cursor: Chunk, visited: set<ChunkId>, steps: int)
    ensures var forth := Forth(rows, cursor, visited, steps);
            DistinctIds(forth) && Ids(forth) !! visited && |forth| <= Larger(0, steps)
    decreases steps
  {
    var next := Follow(rows, cursor.next, visited);
    if steps > 0 && next.Some? {
      var chunk := next.value;
      var after := Forth(rows, chunk, visited + {chunk.id}, steps - 1);
      ForthIsFresh(rows, chunk, visited + {chunk.id}, steps - 1);
      forall i | 0 <= i < |after| ensures after[i].id != chunk.id && after[i].id !in visited {
        assert after[i].id in Ids(after);
      }
    }
  }

  /** Whatever the links say, even in a circle, a window holds its centre, repeats no chunk and is bounded by the
      radius. */
  lemma WindowIsBounded(rows: map<ChunkId, Chunk>, id: ChunkId, radius: int)
    requires Keyed(rows) && id in rows
    ensures var window := Around(rows, id, radius);
            DistinctIds(window) && rows[id] in window && |window| <= 2 * Larger(0, radius) + 1
  {
    var back := Back(rows, rows[id], {id}, radius);
    var forth := Forth(rows, rows[id], {id} + Ids(back), radius);
    BackIsFresh(rows, rows[id], {id}, radius);
    ForthIsFresh(rows, rows[id], {id} + Ids(back), radius);
    forall i | 0 <= i < |back| ensures back[i].id != id {
      assert back[i].id in Ids(back);
    }
    forall j | 0 <= j < |forth| ensures forth[j].id !in {id} + Ids(back) {
      assert forth[j].id in Ids(forth);
    }
    forall i, j | 0 <= i < |back| && 0 <= j < |forth| ensures back[i].id != forth[j].id {
      assert back[i].id in Ids(back);
    }
  }

  // ----- Candidates -----

  datatype Provenance = Provenance(noteId: string, chunkId: Option<ChunkId>, path: string, headingPath: seq<string>)

  datatype Candidate = Candidate(
    noteType: string,
    score: real,
    summary: string,
    rawText: Option<string>,
    scope: string,
    qualifiers: seq<string>,
    tags: seq<string>,
    staleness: Staleness,
    provenance: Provenance)

  /** The parts of a chunk record that text extraction supplies. */
  datatype Digest = Digest(summary: string, qualifiers: seq<string>)

  datatype Key = ChunkKey(id: ChunkId) | NoteKey(noteId: string)

  function KeyOf(c: Candidate): Key {
    if c.provenance.chunkId.Some? then ChunkKey(c.provenance.chunkId.value) else NoteKey(c.provenance.noteId)
  }

  function OfChunk(c: Candidate, chunk: Chunk, digest: Digest): Candidate {
    Candidate(chunk.noteType, c.score, digest.summary, Some(chunk.rawText), chunk.scope, digest.qualifiers, chunk.tags,
              chunk.staleness, Provenance(chunk.noteId, Some(chunk.id), chunk.path, chunk.headingPath))
  }
}
