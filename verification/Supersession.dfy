/** The supersession relation between canonical notes, as one promotion after another leaves it.
    A note is seen as its card: what reading its file shows of its place in the relation and of its keys. */
module Supersession {
  import opened Text

  /** What two notes are compared by; title and scope up to case and outer white space. */
  datatype Key = Key(corpusId: string, noteType: string, project: string, title: string, scope: string)

  datatype Card = Card(
    noteId: string,
    isSnapshot: bool,
    current: bool,
    superseded: bool,
    supersededBy: Option<string>,
    supersedes: set<string>,
    key: Key)

  type Cards = map<string, Card>

  // ----- What every serial run keeps -----

  predicate WellKept(card: Card) {
    && (card.current ==> !card.superseded)
    && (card.superseded <==> card.supersededBy.Some?)
    && (card.isSnapshot ==> !card.current && !card.superseded && card.supersedes == {})
  }

  ghost predicate Shape(cards: Cards) {
    && (forall p :: p in cards ==> WellKept(cards[p]))
    && (forall p, q :: p in cards && q in cards && cards[p].noteId == cards[q].noteId ==> p == q)
  }

  /** Notes of one corpus, type and project that share a title or a scope. */
  predicate Rivals(a: Key, b: Key) {
    && a.corpusId == b.corpusId && a.noteType == b.noteType && a.project == b.project
    && (a.title == b.title || a.scope == b.scope)
  }

  /** Two notes that must not both be current. */
  predicate Conflict(a: Card, b: Card) {
    a.current && b.current && Rivals(a.key, b.key)
  }

  /** No two current notes of one corpus, type and project share a title or a scope. */
  ghost predicate OneCurrent(cards: Cards) {
    forall p, q :: p in cards && q in cards && p != q ==> !Conflict(cards[p], cards[q])
  }

  /** `supersededBy` and `supersedes` are each other's inverse. */
  ghost predicate Mirror(cards: Cards) {
    forall p, q :: p in cards && q in cards ==>
      (cards[p].supersededBy == Some(cards[q].noteId) <==> cards[p].noteId in cards[q].supersedes)
  }

  /** The note with this id takes part in the relation or may do so. */
  ghost predicate IsHeir(cards: Cards, id: string) {
    exists q :: q in cards && cards[q].noteId == id && (cards[q].current || cards[q].superseded)
  }

  ghost predicate IsThere(cards: Cards, id: string) {
    exists p :: p in cards && cards[p].noteId == id
  }

  /** Every id on either side of the relation is the id of a note, and a superseding note is current or superseded
      itself. */
  ghost predicate Closed(cards: Cards) {
    && (forall p :: p in cards && cards[p].supersededBy.Some? ==> IsHeir(cards, cards[p].supersededBy.value))
    && (forall q, id :: q in cards && id in cards[q].supersedes ==> IsThere(cards, id))
  }

  /** Notes are superseded by notes promoted later; `born` numbers the promotions. */
  ghost predicate Ranked(cards: Cards, born: map<string, nat>, clock: nat) {
    && (forall p :: p in cards && !cards[p].isSnapshot ==> cards[p].noteId in born && born[cards[p].noteId] < clock)
    && (forall p, q :: p in cards && q in cards && cards[p].supersededBy == Some(cards[q].noteId) ==>
          && !cards[p].isSnapshot && !cards[q].isSnapshot
          && born[cards[p].noteId] < born[cards[q].noteId])
  }

  ghost predicate RelationInv(cards: Cards, born: map<string, nat>, clock: nat) {
    Shape(cards) && Mirror(cards) && Closed(cards) && Ranked(cards, born, clock)
  }

  // ----- What one promotion does -----

  /** A new note at `path`, the paths of the notes it replaces, and possibly a snapshot at its own path. */
  datatype Change = Change(path: string, canonical: Card, replaced: set<string>, snapshotPath: string,
      snapshot: Option<Card>)

  /** The predecessor under its own id, superseded by the new note; its keys may read differently once rewritten. */
  predicate Retired(before: Card, after: Card, heir: string) {
    && after.noteId == before.noteId && after.supersedes == before.supersedes && !after.isSnapshot
    && !after.current && after.superseded && after.supersededBy == Some(heir)
  }

  ghost predicate Lawful(cards: Cards, e: Change) {
    && e.replaced <= cards.Keys
    && (forall p :: p in e.replaced ==> cards[p].current)
    && (e.replaced != {} ==> e.canonical.current)
    && e.path !in cards && !IsThere(cards, e.canonical.noteId)
    && WellKept(e.canonical) && !e.canonical.superseded && !e.canonical.isSnapshot
    && (forall id :: id in e.canonical.supersedes <==> exists p :: p in e.replaced && cards[p].noteId == id)
    && (e.snapshot.Some? ==> SnapshotFits(cards, e, e.snapshot.value))
  }

  /** A snapshot takes the place of the one that was there, if any, and nobody else has its id. */
  ghost predicate SnapshotFits(cards: Cards, e: Change, snapshot: Card) {
    && WellKept(snapshot) && snapshot.isSnapshot && e.snapshotPath != e.path && snapshot.noteId != e.canonical.noteId
    && (e.snapshotPath in cards ==> cards[e.snapshotPath].isSnapshot)
    && (forall p :: p in cards ==> (p == e.snapshotPath <==> cards[p].noteId == snapshot.noteId))
  }

  predicate IsSnapshotPlace(e: Change, p: string) {
    e.snapshot.Some? && p == e.snapshotPath
  }

  ghost predicate Leads(cards: Cards, e: Change, cards': Cards) {
    && e.path in cards' && cards'[e.path] == e.canonical
    && (e.snapshot.Some? ==> e.snapshotPath in cards' && cards'[e.snapshotPath] == e.snapshot.value)
    && (forall p :: p in e.replaced ==> p in cards && p in cards' && Retired(cards[p], cards'[p], e.canonical.noteId))
    && (forall p :: p != e.path && !IsSnapshotPlace(e, p) ==> (p in cards' <==> p in cards))
    && (forall p :: p in cards && p != e.path && !IsSnapshotPlace(e, p) && p !in e.replaced ==> cards'[p] == cards[p])
  }

  /** No note disappears or changes its id, and a note that took part in the relation still does. */
  lemma StillThere(cards: Cards, e: Change, cards': Cards, id: string)
    requires Shape(cards) && Lawful(cards, e) && Leads(cards, e, cards')
    ensures IsThere(cards, id) ==> IsThere(cards', id)
    ensures IsHeir(cards, id) ==> IsHeir(cards', id)
  {
    if p :| p in cards && cards[p].noteId == id {
      assert p in cards' && cards'[p].noteId == id;
    }
    if p :| p in cards && cards[p].noteId == id && (cards[p].current || cards[p].superseded) {
      assert p in cards' && cards'[p].noteId == id && (cards'[p].current || cards'[p].superseded);
    }
  }

  lemma ClosedKept(cards: Cards, e: Change, cards': Cards)
    requires Shape(cards) && Closed(cards) && Lawful(cards, e) && Leads(cards, e, cards')
    ensures Closed(cards')
  {
    forall p | p in cards' && cards'[p].supersededBy.Some? ensures IsHeir(cards', cards'[p].supersededBy.value) {
      if p in e.replaced {
        assert cards'[e.path].noteId == e.canonical.noteId;
      } else {
        StillThere(cards, e, cards', cards[p].supersededBy.value);
      }
    }
    forall q, id | q in cards' && id in cards'[q].supersedes ensures IsThere(cards', id) {
      StillThere(cards, e, cards', id);
    }
  }

  lemma MirrorKept(cards: Cards, e: Change, cards': Cards)
    requires Shape(cards) && Mirror(cards) && Closed(cards) && Lawful(cards, e) && Leads(cards, e, cards')
    ensures Mirror(cards')
  {
    forall p, q | p in cards' && q in cards'
      ensures cards'[p].supersededBy == Some(cards'[q].noteId) <==> cards'[p].noteId in cards'[q].supersedes
    {
      MirrorAt(cards, e, cards', p, q);
    }
  }

  lemma MirrorAt(cards: Cards, e: Change, cards': Cards, p: string, q: string)
    requires Shape(cards) && Mirror(cards) && Closed(cards) && Lawful(cards, e) && Leads(cards, e, cards')
    requires p in cards' && q in cards'
    ensures cards'[p].supersededBy == Some(cards'[q].noteId) <==> cards'[p].noteId in cards'[q].supersedes
  {
    if p == e.path || IsSnapshotPlace(e, p) {
      if q != e.path && !IsSnapshotPlace(e, q) {
        assert forall id :: id in cards[q].supersedes ==> IsThere(cards, id);
      }
    } else if q == e.path || IsSnapshotPlace(e, q) {
      if p !in e.replaced && cards[p].supersededBy.Some? {
        assert IsHeir(cards, cards[p].supersededBy.value);
      }
    } else {
      assert cards'[q].noteId == cards[q].noteId && cards'[q].supersedes == cards[q].supersedes;
    }
  }

  lemma RankedKept(cards: Cards, e: Change, cards': Cards, born: map<string, nat>, clock: nat)
    requires Shape(cards) && Closed(cards) && Ranked(cards, born, clock) && Lawful(cards, e) && Leads(cards, e, cards')
    ensures Ranked(cards', born[e.canonical.noteId := clock], clock + 1)
  {
    hide Closed;
    var born' := born[e.canonical.noteId := clock];
    forall p, q | p in cards' && q in cards' && cards'[p].supersededBy == Some(cards'[q].noteId)
      ensures !cards'[p].isSnapshot && !cards'[q].isSnapshot && born'[cards'[p].noteId] < born'[cards'[q].noteId]
    {
      if p !in e.replaced {
        assert p in cards && cards'[p] == cards[p];
        assert IsHeir(cards, cards'[q].noteId) by { HeirOf(cards, p); }
      }
    }
  }

  lemma HeirOf(cards: Cards, p: string)
    requires Closed(cards) && p in cards && cards[p].supersededBy.Some?
    ensures IsHeir(cards, cards[p].supersededBy.value)
  {
  }

  /** One promotion keeps the relation, whatever it leaves current. */
  lemma {:induction false} RelationInvKept(cards: Cards, e: Change, cards': Cards, born: map<string, nat>, clock: nat)
    requires RelationInv(cards, born, clock) && Lawful(cards, e) && Leads(cards, e, cards')
    ensures RelationInv(cards', born[e.canonical.noteId := clock], clock + 1)
  {
    hide Mirror, Closed;
    MirrorKept(cards, e, cards');
    ClosedKept(cards, e, cards');
    assert Shape(cards') by { hide Ranked; }
    RankedKept(cards, e, cards', born, clock);
  }

  // ----- One current note per key -----

  /** Every note that the new one must not stand beside is among those it replaces. */
  ghost predicate NoRival(cards: Cards, e: Change) {
    forall p :: p in cards && p !in e.replaced ==> !Conflict(cards[p], e.canonical)
  }

  /** After a promotion there is one current note exactly when the new note replaced all its rivals. */
  lemma OneCurrentIff(cards: Cards, e: Change, cards': Cards)
    requires Shape(cards) && OneCurrent(cards) && Lawful(cards, e) && Leads(cards, e, cards')
    ensures OneCurrent(cards') <==> NoRival(cards, e)
  {
    if !NoRival(cards, e) {
      var p :| p in cards && p !in e.replaced && Conflict(cards[p], e.canonical);
      assert cards'[p] == cards[p];
    }
  }

  /** One note written, others overwritten by notes that are not current, the rest kept. */
  ghost predicate Overlay(cards: Cards, cards': Cards, path: string, overwritten: set<string>) {
    && path in cards'
    && (forall p :: p in cards' && p != path && p in overwritten ==> !cards'[p].current)
    && (forall p :: p != path && p !in overwritten ==> (p in cards' <==> p in cards))
    && (forall p :: p in cards && p != path && p !in overwritten ==> cards'[p] == cards[p])
  }

  ghost predicate NoRivalOutside(cards: Cards, path: string, card: Card, overwritten: set<string>) {
    forall p :: p in cards && p != path && p !in overwritten ==> !Conflict(cards[p], card)
  }

  /** After such a write there is one current note exactly when all rivals of the new one were overwritten. */
  lemma {:induction false} OverlayOneCurrentIff(cards: Cards, cards': Cards, path: string, overwritten: set<string>)
    requires OneCurrent(cards) && Overlay(cards, cards', path, overwritten)
    ensures OneCurrent(cards') <==> NoRivalOutside(cards, path, cards'[path], overwritten)
  {
    if !NoRivalOutside(cards, path, cards'[path], overwritten) {
      var p :| p in cards && p != path && p !in overwritten && Conflict(cards[p], cards'[path]);
      assert cards'[p] == cards[p];
    }
  }

  // ----- Chains -----

  /** Each note of the chain is superseded by the next one. */
  ghost predicate IsChain(cards: Cards, chain: seq<string>) {
    && (forall i :: 0 <= i < |chain| ==> chain[i] in cards)
    && (forall i :: 0 <= i < |chain| - 1 ==> cards[chain[i]].supersededBy == Some(cards[chain[i + 1]].noteId))
  }

  /** The notes of the chain were promoted one after the other. */
  ghost predicate InOrder(cards: Cards, born: map<string, nat>, chain: seq<string>) {
    && (forall i :: 0 <= i < |chain| ==> chain[i] in cards && cards[chain[i]].noteId in born)
    && (forall i, j :: 0 <= i < j < |chain| ==> born[cards[chain[i]].noteId] < born[cards[chain[j]].noteId])
  }

  /** From a superseded note the relation leads, without ever coming back to a note, to a current one. */
  lemma {:induction false} ChainEndsCurrent(cards: Cards, born: map<string, nat>, clock: nat, p: string)
    returns (chain: seq<string>)
    requires RelationInv(cards, born, clock) && p in cards && cards[p].superseded
    ensures 2 <= |chain| && chain[0] == p && IsChain(cards, chain) && InOrder(cards, born, chain)
    ensures cards[chain[|chain| - 1]].current
    ensures forall i, j :: 0 <= i < j < |chain| ==> chain[i] != chain[j]
    decreases clock - (if cards[p].noteId in born then born[cards[p].noteId] else clock)
  {
    hide Mirror, Closed;
    HeirOf(cards, p);
    var q :| q in cards && cards[q].noteId == cards[p].supersededBy.value && (cards[q].current || cards[q].superseded);
    assert cards[p].supersededBy == Some(cards[q].noteId);
    if cards[q].current {
      chain := [p, q];
    } else {
      var rest := ChainEndsCurrent(cards, born, clock, q);
      chain := [p] + rest;
    }
  }
}
