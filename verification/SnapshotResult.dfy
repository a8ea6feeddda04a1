/** The snapshot that a promotion to the current state leaves beside the new note. */
module SnapshotResult {
  import opened Domain
  import opened Pieces
  import opened Planning
  import opened Promotion
  import opened PromotionEffects
  import opened PromotionResult
  import opened Replay
  import opened SerialRuns
  import opened Stores
  import opened Supersession
  import opened Text
  import opened VaultNotes

  /** The snapshot of a note names it, and says what it says without being current itself. */
  ghost predicate IsSnapshotOf(snapshot: Note, note: Note) {
    var s, f := snapshot.frontmatter, note.frontmatter;
    && snapshot.path == "context_brain/current-state/" + Slug(f.project) + "/" + Slug(f.title) + "-current.md"
    && snapshot.noteId == s.noteId == SnapshotId(snapshot.path) && snapshot.corpusId == s.corpusId == note.corpusId
    && s.title == f.title + " Current" && s.project == f.project && s.noteType == "reference" && s.scope == f.scope
    && s.summary == Trim("Current-state snapshot for " + f.title + ". " + f.summary)
    && s.status == STATUS_PROMOTED && s.updated == f.updated && !s.currentState
    && s.validFrom == f.validFrom && s.validUntil == f.validUntil && s.supersedes == None && s.supersededBy == None
    && (forall tag :: tag in s.tags <==>
         TagAfter(f.tags, tag, [TAG_CURRENT, "status/superseded", "status/draft"], ["status/promoted", TAG_SNAPSHOT]))
    && NoRepeats(s.tags)
    && Appear(snapshot.body, [f.summary, note.path, note.noteId, f.noteType, f.scope, f.updated, f.project, note.path])
  }

  lemma SnapshotTagsAre(tags: seq<string>)
    ensures forall tag :: tag in SnapshotTags(tags) <==>
              TagAfter(tags, tag, [TAG_CURRENT, "status/superseded", "status/draft"], ["status/promoted", TAG_SNAPSHOT])
    ensures NoRepeats(SnapshotTags(tags))
  {
    hide Without, Unique;
    TagsDoNotRepeat(tags, false);
    var a := Without(Unique(tags), TAG_CURRENT);
    var b := Without(a, "status/superseded");
    WithoutIs(Unique(tags), TAG_CURRENT);
    WithoutIs(a, "status/superseded");
    WithoutIs(b, "status/draft");
  }

  lemma LineShows(mark: string, text: string)
    ensures Appear(mark + text, [text])
  {
    OneAppears(mark, text, "");
    assert mark + text + "" == mark + text;
  }

  lemma SnapshotBodyShows(note: Note)
    ensures var f := note.frontmatter;
            Appear(SnapshotBody(note), [f.summary, note.path, note.noteId, f.noteType, f.scope, f.updated, f.project,
                                         note.path])
  {
    hide Appear, Join;
    var f := note.frontmatter;
    var lines := ["## Summary", "", f.summary, "", "## Details", "",
      "- Canonical note: " + note.path, "- Canonical note ID: " + note.noteId, "- Note type: " + f.noteType,
      "- Scope: " + f.scope, "- Updated: " + f.updated, "- Project: " + f.project, "",
      "## Sources", "", "- " + note.path];
    var none: seq<string> := [];
    var pieces := [none, none, [f.summary], none, none, none, [note.path], [note.noteId], [f.noteType], [f.scope],
                   [f.updated], [f.project], none, none, none, [note.path]];
    LineShows("", f.summary);
    assert "" + f.summary == f.summary;
    LineShows("- Canonical note: ", note.path);
    LineShows("- Canonical note ID: ", note.noteId);
    LineShows("- Note type: ", f.noteType);
    LineShows("- Scope: ", f.scope);
    LineShows("- Updated: ", f.updated);
    LineShows("- Project: ", f.project);
    LineShows("- ", note.path);
    forall i | 0 <= i < |lines| ensures Appear(lines[i], pieces[i]) {
      if pieces[i] == [] {
        NothingAppears(lines[i]);
      }
    }
    JoinShows(lines, pieces);
    FlatOfSixteen(f.summary, note.path, note.noteId, f.noteType, f.scope, f.updated, f.project);
  }

  lemma FlatOfSixteen(a: string, b: string, c: string, d: string, e: string, f: string, g: string)
    ensures var none: seq<string> := [];
            Flat([none, none, [a], none, none, none, [b], [c], [d], [e], [f], [g], none, none, none, [b]]) ==
            [a, b, c, d, e, f, g, b]
  {
    var none: seq<string> := [];
    FlatAppend([none, none, [a], none, none, none, [b], [c]], [[d], [e], [f], [g], none, none, none, [b]]);
    assert [none, none, [a], none, none, none, [b], [c]] + [[d], [e], [f], [g], none, none, none, [b]] ==
           [none, none, [a], none, none, none, [b], [c], [d], [e], [f], [g], none, none, none, [b]];
    FlatAppend([none, none, [a], none], [none, none, [b], [c]]);
    FlatAppend([[d], [e], [f], [g]], [none, none, none, [b]]);
    assert [none, none, [a], none] + [none, none, [b], [c]] == [none, none, [a], none, none, none, [b], [c]];
    assert [[d], [e], [f], [g]] + [none, none, none, [b]] == [[d], [e], [f], [g], none, none, none, [b]];
    FlatOfFour(none, none, [a], none);
    FlatOfFour(none, none, [b], [c]);
    FlatOfFour([d], [e], [f], [g]);
    FlatOfFour(none, none, none, [b]);
  }

  lemma FlatOfFour(a: seq<string>, b: seq<string>, c: seq<string>, d: seq<string>)
    ensures Flat([a, b, c, d]) == a + b + c + d
  {
    assert [a, b, c, d][1..] == [b, c, d] && [b, c, d][1..] == [c, d] && [c, d][1..] == [d] && [d][1..] == [];
    assert Flat([d]) == d + [] == d;
    assert Flat([c, d]) == c + d;
    assert Flat([b, c, d]) == b + (c + d);
    assert a + (b + (c + d)) == a + b + c + d;
  }

  lemma SnapshotIs(note: Note)
    ensures IsSnapshotOf(SnapshotNote(note), note)
  {
    hide Slug, Trim, SnapshotTags, SnapshotBody, Appear, TagAfter;
    SnapshotTagsAre(note.frontmatter.tags);
    SnapshotBodyShows(note);
  }

  /** A promotion to the current state also files a snapshot of the new note under a path made of its project and title,
      whatever stood there before. */
  lemma SnapshotIsFiled(v: Vault, chunker: Chunker, req: Request, draw: Draw)
    requires Ready(v, chunker, req, draw) && req.asCurrent
    ensures var files := Act(v, Promote(req, draw), chunker).tables.files;
            && draw.path in files
            && exists p :: p in files && p == files[p].path && IsSnapshotOf(files[p], files[draw.path])
  {
    hide Plan, Program, Run, FilesOk, Mirror, Closed, Ranked, Shape, RowsInv, DraftsInv, IndexInv, Lawful, Leads,
         Filed, CardsOf, WrittenCard, PayloadOk, Waits, GoodChunker, NewCards, Allowed, KeyedTable, IsSnapshotOf,
         IdsOf, NotesAt, FindDraft, FindSuperseded, CanonicalNote, SnapshotNote, AllRewrite, IsNew, Writable,
         IsSnapshot;
    var t, t', p := v.tables, TablesAfter(v, chunker, req, draw), PayloadOf(v, req, draw);
    var e := PromotionLeads(v, chunker, req, draw);
    var n := |e.found|;
    PlannedAreWritable(t, p, e);
    WrittenFile(p, chunker, t, t', n);
    WrittenFile(p, chunker, t, t', n + 1);
    SnapshotIs(e.canonical);
  }
}
