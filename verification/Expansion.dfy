/** Expanding ranked candidates by the chunks next to them, without repetition and up to a cap. */
module Expansion {
  import opened Chunking
  import opened Domain
  import opened Neighborhood
  import opened Text

  predicate DistinctKeys(cs: seq<Candidate>) {
    forall i, j :: 0 <= i < j < |cs| ==> KeyOf(cs[i]) != KeyOf(cs[j])
  }

  predicate Reached(output: seq<Candidate>, key: Key) {
    exists i :: 0 <= i < |output| && KeyOf(output[i]) == key
  }

  // ----- The expansion without a cap -----

  /** The chunks that are not there yet are added in their order, ranked like the candidate that led to them. */
  function WithChunks(output: seq<Candidate>, c: Candidate, chunks: seq<Chunk>, digest: Chunk -> Digest)
      : seq<Candidate> {
    if chunks == [] then output
    else
      var before, last := WithChunks(output, c, chunks[..|chunks| - 1], digest), chunks[|chunks| - 1];
      if Reached(before, ChunkKey(last.id)) then before else before + [OfChunk(c, last, digest(last))]
  }

  function NextTo(rows: map<ChunkId, Chunk>, c: Candidate): seq<Chunk> {
    if c.provenance.chunkId.None? then [] else Around(rows, c.provenance.chunkId.value, 1)
  }

  /** One candidate more: nothing if it has been reached, the candidate itself if it leads to no chunk. */
  function WithCandidate(rows: map<ChunkId, Chunk>, digest: Chunk -> Digest, output: seq<Candidate>, c: Candidate)
      : seq<Candidate> {
    if Reached(output, KeyOf(c)) then output
    else if NextTo(rows, c) == [] then output + [c]
    else WithChunks(output, c, NextTo(rows, c), digest)
  }

  function Expanded(rows: map<ChunkId, Chunk>, digest: Chunk -> Digest, candidates: seq<Candidate>): seq<Candidate> {
    if candidates == [] then []
    else
      var n := |candidates| - 1;
      WithCandidate(rows, digest, Expanded(rows, digest, candidates[..n]), candidates[n])
  }

  // ----- The loop -----

  ghost predicate SeenIs(seen: set<Key>, output: seq<Candidate>) {
    forall k :: k in seen <==> Reached(output, k)
  }

  /** What the loop holds: the expansion as far as the cap allows, and its keys. */
  ghost predicate Capped(all: seq<Candidate>, maxCandidates: nat, output: seq<Candidate>, seen: set<Key>) {
    output == FirstN(all, maxCandidates) && SeenIs(seen, output)
  }

  method ExpandNeighborhood(rows: map<ChunkId, Chunk>, digest: Chunk -> Digest, candidates: seq<Candidate>,
                            maxCandidates: nat)
    returns (output: seq<Candidate>)
    ensures output == FirstN(Expanded(rows, digest, candidates), maxCandidates)
  {
    output := [];
    var seen: set<Key> := {};
    assert candidates[..0] == [];
    for i := 0 to |candidates|
      invariant Capped(Expanded(rows, digest, candidates[..i]), maxCandidates, output, seen)
    {
      hide Capped, Around, WithCandidate, WithChunks, Reached, NextTo;
      ghost var all := Expanded(rows, digest, candidates[..i]);
      assert candidates[..i + 1][..i] == candidates[..i];
      var candidate := candidates[i];
      var chunkId := candidate.provenance.chunkId;
      NextCandidate(rows, digest, all, candidate, maxCandidates, output, seen);
      if chunkId.None? || ChunkKey(chunkId.value) in seen {
        var fallbackKey := KeyOf(candidate);
        if fallbackKey !in seen && |output| < maxCandidates {
          seen := seen + {fallbackKey};
          output := output + [candidate];
        }
        continue;
      }
      var neighborhood := GetChunkNeighborhood(rows, chunkId.value, 1);
      if |neighborhood| == 0 {
        if |output| < maxCandidates {
          seen := seen + {ChunkKey(chunkId.value)};
          output := output + [candidate];
        }
        continue;
      }
      ghost var full := |output| == maxCandidates;
      if full {
        FullIsLong(all, maxCandidates, output, seen);
      }
      output, seen := AddChunks(digest, candidate, neighborhood, all, output, seen, maxCandidates);
      if full {
        StaysFull(rows, digest, all, candidate, neighborhood, maxCandidates, output, seen);
      }
    }
    assert candidates[..|candidates|] == candidates;
  }

  method AddChunks(digest: Chunk -> Digest, candidate: Candidate, neighborhood: seq<Chunk>, ghost all: seq<Candidate>,
                   output0: seq<Candidate>, seen0: set<Key>, maxCandidates: nat)
    returns (output: seq<Candidate>, seen: set<Key>)
    requires Capped(all, maxCandidates, output0, seen0)
    ensures Capped(WithChunks(all, candidate, neighborhood, digest), maxCandidates, output, seen)
  {
    hide Capped;
    output, seen := output0, seen0;
    assert neighborhood[..0] == [];
    for k := 0 to |neighborhood|
      invariant Capped(WithChunks(all, candidate, neighborhood[..k], digest), maxCandidates, output, seen)
    {
      var chunk := neighborhood[k];
      ghost var before := WithChunks(all, candidate, neighborhood[..k], digest);
      assert neighborhood[..k + 1][..k] == neighborhood[..k];
      CappedIs(before, maxCandidates, output, seen, ChunkKey(chunk.id));
      var added := OfChunk(candidate, chunk, digest(chunk));
      FullStays(before, maxCandidates, output, seen, [added]);
      if ChunkKey(chunk.id) in seen || |output| >= maxCandidates {
        continue;
      }
      CappedGrows(before, maxCandidates, output, seen, added);
      seen := seen + {ChunkKey(chunk.id)};
      output := output + [added];
    }
    assert neighborhood[..|neighborhood|] == neighborhood;
  }

  /** Below the cap nothing has been left out. */
  lemma CappedIs(all: seq<Candidate>, maxCandidates: nat, output: seq<Candidate>, seen: set<Key>, key: Key)
    requires Capped(all, maxCandidates, output, seen)
    ensures |output| <= maxCandidates && (|output| < maxCandidates ==> output == all)
    ensures |output| < maxCandidates ==> (key in seen <==> Reached(all, key))
    ensures key in seen ==> Reached(all, key)
  {
    if key in seen {
      var i :| 0 <= i < |output| && KeyOf(output[i]) == key;
      assert all[i] == output[i];
    }
  }

  lemma FullStays(all: seq<Candidate>, maxCandidates: nat, output: seq<Candidate>, seen: set<Key>, more: seq<Candidate>)
    requires Capped(all, maxCandidates, output, seen)
    ensures |output| == maxCandidates ==> Capped(all + more, maxCandidates, output, seen)
  {
  }

  lemma CappedGrows(all: seq<Candidate>, maxCandidates: nat, output: seq<Candidate>, seen: set<Key>, c: Candidate)
    requires Capped(all, maxCandidates, output, seen) && |output| < maxCandidates
    ensures Capped(all + [c], maxCandidates, output + [c], seen + {KeyOf(c)})
  {
    var more := output + [c];
    forall k ensures k in seen + {KeyOf(c)} <==> Reached(more, k) {
      if k in seen {
        var i :| 0 <= i < |output| && KeyOf(output[i]) == k;
        assert more[i] == output[i];
      }
      if k == KeyOf(c) {
        assert more[|output|] == c;
      }
    }
  }

  lemma {:induction false} ChunksExtend(output: seq<Candidate>, c: Candidate, chunks: seq<Chunk>,
                                        digest: Chunk -> Digest)
    ensures output <= WithChunks(output, c, chunks, digest)
  {
    if chunks != [] {
      ChunksExtend(output, c, chunks[..|chunks| - 1], digest);
    }
  }

  lemma FullIsLong(all: seq<Candidate>, maxCandidates: nat, output: seq<Candidate>, seen: set<Key>)
    requires Capped(all, maxCandidates, output, seen) && |output| == maxCandidates
    ensures |all| >= maxCandidates
  {
  }

  lemma MoreIsCapped(rows: map<ChunkId, Chunk>, digest: Chunk -> Digest, all: seq<Candidate>, c: Candidate,
                     maxCandidates: nat, output: seq<Candidate>, seen: set<Key>)
    requires Capped(all, maxCandidates, output, seen)
    ensures all <= WithCandidate(rows, digest, all, c)
    ensures |output| == maxCandidates ==>
              Capped(WithCandidate(rows, digest, all, c), maxCandidates, output, seen)
  {
    ChunksExtend(all, c, NextTo(rows, c), digest);
    var more := WithCandidate(rows, digest, all, c);
    assert more == all + more[|all|..];
    FullStays(all, maxCandidates, output, seen, more[|all|..]);
  }

  /** How the loop follows the expansion by one candidate. */
  lemma NextCandidate(rows: map<ChunkId, Chunk>, digest: Chunk -> Digest, all: seq<Candidate>, c: Candidate,
                      maxCandidates: nat, output: seq<Candidate>, seen: set<Key>)
    requires Capped(all, maxCandidates, output, seen)
    ensures |output| <= maxCandidates
    ensures NextTo(rows, c) == if c.provenance.chunkId.None? then [] else Around(rows, c.provenance.chunkId.value, 1)
    ensures KeyOf(c) in seen || |output| == maxCandidates ==>
              Capped(WithCandidate(rows, digest, all, c), maxCandidates, output, seen)
    ensures KeyOf(c) !in seen && |output| < maxCandidates ==>
              if NextTo(rows, c) == [] then
                Capped(WithCandidate(rows, digest, all, c), maxCandidates, output + [c], seen + {KeyOf(c)})
              else WithCandidate(rows, digest, all, c) == WithChunks(all, c, NextTo(rows, c), digest)
  {
    hide Capped, Around, Reached, WithChunks;
    CappedIs(all, maxCandidates, output, seen, KeyOf(c));
    MoreIsCapped(rows, digest, all, c, maxCandidates, output, seen);
    if KeyOf(c) !in seen && |output| < maxCandidates {
      CappedGrows(all, maxCandidates, output, seen, c);
    }
  }

  lemma StaysFull(rows: map<ChunkId, Chunk>, digest: Chunk -> Digest, all: seq<Candidate>, c: Candidate,
                  chunks: seq<Chunk>, maxCandidates: nat, output: seq<Candidate>, seen: set<Key>)
    requires |all| >= maxCandidates && Capped(WithChunks(all, c, chunks, digest), maxCandidates, output, seen)
    ensures Capped(WithCandidate(rows, digest, all, c), maxCandidates, output, seen)
  {
    ChunksExtend(all, c, chunks, digest);
    ChunksExtend(all, c, NextTo(rows, c), digest);
    var one, other := WithChunks(all, c, chunks, digest), WithCandidate(rows, digest, all, c);
    assert FirstN(one, maxCandidates) == all[..maxCandidates] == FirstN(other, maxCandidates);
  }

  // ----- What the expansion holds -----

  /** Every item is a candidate that leads to no chunk, or stands for a chunk next to a candidate, whose rank it has. */
  ghost predicate Explained(rows: map<ChunkId, Chunk>, digest: Chunk -> Digest, candidates: seq<Candidate>,
                            item: Candidate) {
    exists i :: 0 <= i < |candidates| && LeadsTo(rows, digest, candidates[i], item)
  }

  ghost predicate LeadsTo(rows: map<ChunkId, Chunk>, digest: Chunk -> Digest, c: Candidate, item: Candidate) {
    || (item == c && NextTo(rows, c) == [])
    || Led(item, c, NextTo(rows, c), digest)
  }

  /** The item shows the chunk, its text and where it comes from, at the rank of the candidate. */
  predicate StandsFor(item: Candidate, c: Candidate, chunk: Chunk, digest: Chunk -> Digest) {
    && item.score == c.score && item.rawText == Some(chunk.rawText)
    && item.summary == digest(chunk).summary && item.qualifiers == digest(chunk).qualifiers
    && item.noteType == chunk.noteType && item.scope == chunk.scope && item.tags == chunk.tags
    && item.staleness == chunk.staleness
    && item.provenance.noteId == chunk.noteId && item.provenance.chunkId == Some(chunk.id)
    && item.provenance.path == chunk.path && item.provenance.headingPath == chunk.headingPath
  }

  lemma ReachedGrows(a: seq<Candidate>, b: seq<Candidate>, key: Key)
    requires a <= b && Reached(a, key)
    ensures Reached(b, key)
  {
    var i :| 0 <= i < |a| && KeyOf(a[i]) == key;
    assert b[i] == a[i];
  }

  ghost predicate Led(item: Candidate, c: Candidate, chunks: seq<Chunk>, digest: Chunk -> Digest) {
    exists k :: 0 <= k < |chunks| && StandsFor(item, c, chunks[k], digest)
  }

  lemma LedByMore(item: Candidate, c: Candidate, chunks: seq<Chunk>, last: Chunk, digest: Chunk -> Digest)
    ensures Led(item, c, chunks, digest) ==> Led(item, c, chunks + [last], digest)
    ensures Led(OfChunk(c, last, digest(last)), c, chunks + [last], digest)
  {
    var more := chunks + [last];
    if k :| 0 <= k < |chunks| && StandsFor(item, c, chunks[k], digest) {
      assert more[k] == chunks[k];
    }
    assert StandsFor(OfChunk(c, last, digest(last)), c, more[|chunks|], digest);
  }

  lemma {:induction false} ChunksAreAdded(output: seq<Candidate>, c: Candidate, chunks: seq<Chunk>,
                                          digest: Chunk -> Digest)
    requires DistinctKeys(output)
    ensures var more := WithChunks(output, c, chunks, digest);
            && output <= more && DistinctKeys(more)
            && (forall k :: 0 <= k < |chunks| ==> Reached(more, ChunkKey(chunks[k].id)))
            && forall j :: |output| <= j < |more| ==> Led(more[j], c, chunks, digest)
  {
    hide StandsFor, Led, Reached;
    if chunks != [] {
      var n := |chunks| - 1;
      var front, last := chunks[..n], chunks[n];
      ChunksAreAdded(output, c, front, digest);
      var before, more := WithChunks(output, c, front, digest), WithChunks(output, c, chunks, digest);
      assert front + [last] == chunks;
      LastChunk(before, c, last, digest);
      forall k | 0 <= k < n ensures Reached(more, ChunkKey(chunks[k].id)) {
        assert front[k] == chunks[k];
        ReachedGrows(before, more, ChunkKey(front[k].id));
      }
      forall j | |output| <= j < |more| ensures Led(more[j], c, chunks, digest) {
        LedByMore(more[j], c, front, last, digest);
      }
    }
  }

  lemma LastChunk(before: seq<Candidate>, c: Candidate, last: Chunk, digest: Chunk -> Digest)
    requires DistinctKeys(before)
    ensures var added := OfChunk(c, last, digest(last));
            && KeyOf(added) == ChunkKey(last.id)
            && (!Reached(before, ChunkKey(last.id)) ==>
                 DistinctKeys(before + [added]) && Reached(before + [added], ChunkKey(last.id)))
  {
    var added := OfChunk(c, last, digest(last));
    assert KeyOf((before + [added])[|before|]) == ChunkKey(last.id);
  }

  lemma CandidateIsAdded(rows: map<ChunkId, Chunk>, digest: Chunk -> Digest, output: seq<Candidate>, c: Candidate)
    requires Keyed(rows) && DistinctKeys(output)
    ensures var more := WithCandidate(rows, digest, output, c);
            && output <= more && DistinctKeys(more) && Reached(more, KeyOf(c))
            && (!Reached(output, KeyOf(c)) ==>
                  forall k :: 0 <= k < |NextTo(rows, c)| ==> Reached(more, ChunkKey(NextTo(rows, c)[k].id)))
            && forall j :: |output| <= j < |more| ==> LeadsTo(rows, digest, c, more[j])
  {
    hide Around;
    var more := WithCandidate(rows, digest, output, c);
    if !Reached(output, KeyOf(c)) {
      if NextTo(rows, c) == [] {
        assert more[|output|] == c;
      } else {
        ChunksAreAdded(output, c, NextTo(rows, c), digest);
        CenterIsIn(rows, c.provenance.chunkId.value);
      }
    }
  }

  lemma CenterIsIn(rows: map<ChunkId, Chunk>, id: ChunkId)
    requires Keyed(rows) && Around(rows, id, 1) != []
    ensures exists k :: 0 <= k < |Around(rows, id, 1)| && Around(rows, id, 1)[k].id == id
  {
    WindowIsBounded(rows, id, 1);
    var k :| 0 <= k < |Around(rows, id, 1)| && Around(rows, id, 1)[k] == rows[id];
  }

  /** No key comes twice; every candidate is reached, and when it was not reached through an earlier one, so are all
      chunks next to it; and nothing else is there. A cap cuts the list off from the end, since every further candidate
      only adds to it. */
  lemma {:induction false} ExpansionIsComplete(rows: map<ChunkId, Chunk>, digest: Chunk -> Digest,
                                               candidates: seq<Candidate>)
    requires Keyed(rows)
    ensures var all := Expanded(rows, digest, candidates);
            && DistinctKeys(all)
            && (forall i :: 0 <= i < |candidates| ==> Reached(all, KeyOf(candidates[i])))
            && (forall i :: 0 <= i < |candidates| ==> Followed(rows, digest, candidates, i))
            && (forall i :: 0 <= i < |candidates| ==> Expanded(rows, digest, candidates[..i]) <= all)
            && forall j :: 0 <= j < |all| ==> Explained(rows, digest, candidates, all[j])
  {
    hide NextTo, LeadsTo, WithCandidate, Reached;
    if candidates != [] {
      var n := |candidates| - 1;
      var front, c := candidates[..n], candidates[n];
      var before, all := Expanded(rows, digest, front), Expanded(rows, digest, candidates);
      ExpansionIsComplete(rows, digest, front);
      CandidateIsAdded(rows, digest, before, c);
      forall i | 0 <= i < |candidates|
        ensures Reached(all, KeyOf(candidates[i])) && Followed(rows, digest, candidates, i)
        ensures Expanded(rows, digest, candidates[..i]) <= all
      {
        if i < n {
          assert front[i] == candidates[i] && front[..i] == candidates[..i];
          ReachedGrows(before, all, KeyOf(front[i]));
          assert Followed(rows, digest, front, i);
          forall k | 0 <= k < |NextTo(rows, front[i])| && Reached(before, ChunkKey(NextTo(rows, front[i])[k].id))
            ensures Reached(all, ChunkKey(NextTo(rows, front[i])[k].id))
          {
            ReachedGrows(before, all, ChunkKey(NextTo(rows, front[i])[k].id));
          }
        }
      }
      forall j | 0 <= j < |all| ensures Explained(rows, digest, candidates, all[j]) {
        if j < |before| {
          var i :| 0 <= i < |front| && LeadsTo(rows, digest, front[i], before[j]);
          assert candidates[i] == front[i];
        } else {
          assert LeadsTo(rows, digest, candidates[n], all[j]);
        }
      }
    }
  }

  ghost predicate Followed(rows: map<ChunkId, Chunk>, digest: Chunk -> Digest, candidates: seq<Candidate>, i: nat)
    requires i < |candidates|
  {
    !Reached(Expanded(rows, digest, candidates[..i]), KeyOf(candidates[i])) ==>
      forall k :: 0 <= k < |NextTo(rows, candidates[i])| ==>
        Reached(Expanded(rows, digest, candidates), ChunkKey(NextTo(rows, candidates[i])[k].id))
  }
}
