/** The block that an agent is handed leaves nothing out: every retrieved text stands in it, escaped and in its order.
    */
module FenceTexts {
  import opened ContextBudget
  import opened ContextFence
  import opened Pieces
  import opened Text
  import ContentLength

  // ----- The texts of a block -----

  /** What is shown of each item. */
  function EvidenceTexts(e: Evidence): seq<string> {
    [EscapeContextText(e.notePath)] +
    (if e.headingPath == [] then [] else [EscapeContextText(Join(e.headingPath, " > "))]) +
    [EscapeContextText(e.noteId)]
  }

  function HitTexts(h: Hit): seq<string> {
    [EscapeContextText(h.sessionId), EscapeContextText(h.archiveId), ContentLength.Decimal(h.messageIndex),
     EscapeContextText(h.role), EscapeContextText(Tidy(h.content))]
  }

  function EscapedAll(texts: seq<string>): seq<seq<string>> {
    seq(|texts|, i requires 0 <= i < |texts| => [EscapeContextText(texts[i])])
  }

  function TidiedAll(texts: seq<string>): seq<seq<string>> {
    seq(|texts|, i requires 0 <= i < |texts| => [EscapeContextText(Tidy(texts[i]))])
  }

  function AllEvidence(evidence: seq<Evidence>): seq<seq<string>> {
    seq(|evidence|, i requires 0 <= i < |evidence| => EvidenceTexts(evidence[i]))
  }

  function AllHits(hits: Option<seq<Hit>>): seq<seq<string>> {
    if hits.None? then []
    else seq(|hits.value|, i requires 0 <= i < |hits.value| => HitTexts(hits.value[i]))
  }

  /** All retrieved texts in the order in which an agent is to read them. */
  function AllTexts(r: Retrieved, hits: Option<seq<Hit>>): seq<seq<string>> {
    EscapedAll([r.summary, r.answerability, r.confidence]) + AllEvidence(r.evidence) + EscapedAll(r.constraints) +
    TidiedAll(r.rawExcerpts) + EscapedAll(r.uncertainties) + AllHits(hits)
  }

  /** Lines that show pieces, seen as one. */
  ghost predicate Show(lines: seq<string>, pieces: seq<seq<string>>) {
    Appear(Join(lines, "\n"), Flat(pieces))
  }

  lemma JoinAppend(a: seq<string>, b: seq<string>)
    requires a != [] && b != []
    ensures Join(a + b, "\n") == Join(a, "\n") + "\n" + Join(b, "\n")
  {
    if |a| == 1 {
      assert (a + b)[0] == a[0] && (a + b)[1..] == b;
    } else {
      assert (a + b)[0] == a[0] && (a + b)[1..] == a[1..] + b;
      JoinAppend(a[1..], b);
      assert Join(a, "\n") == a[0] + "\n" + Join(a[1..], "\n");
      assert a[0] + "\n" + (Join(a[1..], "\n") + "\n" + Join(b, "\n")) ==
             a[0] + "\n" + Join(a[1..], "\n") + "\n" + Join(b, "\n");
    }
  }

  lemma ShowAppend(a: seq<string>, xs: seq<seq<string>>, b: seq<string>, ys: seq<seq<string>>)
    requires Show(a, xs) && Show(b, ys)
    ensures Show(a + b, xs + ys)
  {
    hide Appear, Join;
    FlatAppend(xs, ys);
    if a == [] || b == [] {
      assert Join([], "\n") == "" by { JoinOfNothing(); }
      AppearAppend(Join(a, "\n"), Flat(xs), Join(b, "\n"), Flat(ys));
      assert a == [] ==> a + b == b && "" + Join(b, "\n") == Join(b, "\n");
      assert b == [] ==> a + b == a && Join(a, "\n") + "" == Join(a, "\n");
    } else {
      JoinAppend(a, b);
      NothingAppears("\n");
      AppearAppend(Join(a, "\n"), Flat(xs), "\n", []);
      AppearAppend(Join(a, "\n") + "\n", Flat(xs) + [], Join(b, "\n"), Flat(ys));
      assert Flat(xs) + [] == Flat(xs);
    }
  }

  lemma JoinOfNothing()
    ensures Join([], "\n") == ""
  {
  }

  lemma ShowOther(line: string)
    ensures Show([line], [])
  {
    NothingAppears(Join([line], "\n"));
  }

  lemma EvidenceShown(e: Evidence)
    ensures Appear(EvidenceLine(e), EvidenceTexts(e))
  {
    hide Appear, EscapeContextText, Join;
    var path, id := EscapeContextText(e.notePath), EscapeContextText(e.noteId);
    OneAppears("- ", path, "");
    OneAppears(" (", id, ")");
    var heading := if e.headingPath == [] then "" else "#" + EscapeContextText(Join(e.headingPath, " > "));
    var pieces := if e.headingPath == [] then [] else [EscapeContextText(Join(e.headingPath, " > "))];
    if e.headingPath == [] {
      NothingAppears(heading);
    } else {
      OneAppears("#", EscapeContextText(Join(e.headingPath, " > ")), "");
      assert "#" + EscapeContextText(Join(e.headingPath, " > ")) + "" == heading;
    }
    assert "- " + path + "" == "- " + path;
    AppearAppend("- " + path, [path], heading, pieces);
    AppearAppend("- " + path + heading, [path] + pieces, " (" + id + ")", [id]);
    assert "- " + path + heading + (" (" + id + ")") == EvidenceLine(e);
  }

  lemma HitShown(h: Hit)
    ensures Appear(HitLine(h), HitTexts(h))
  {
    hide Appear, EscapeContextText, Tidy, ContentLength.Decimal;
    var a, b, c := EscapeContextText(h.sessionId), EscapeContextText(h.archiveId),
        ContentLength.Decimal(h.messageIndex);
    var d, e := EscapeContextText(h.role), EscapeContextText(Tidy(h.content));
    OneAppears("- ", a, "/");
    OneAppears("", b, "#");
    OneAppears("", c, " ");
    OneAppears("", d, ": ");
    OneAppears("", e, "");
    AppearAppend("- " + a + "/", [a], "" + b + "#", [b]);
    AppearAppend("- " + a + "/" + ("" + b + "#"), [a] + [b], "" + c + " ", [c]);
    AppearAppend("- " + a + "/" + ("" + b + "#") + ("" + c + " "), [a] + [b] + [c], "" + d + ": ", [d]);
    AppearAppend("- " + a + "/" + ("" + b + "#") + ("" + c + " ") + ("" + d + ": "), [a] + [b] + [c] + [d],
                  "" + e + "", [e]);
    assert [a] + [b] + [c] + [d] + [e] == HitTexts(h);
    assert "- " + a + "/" + ("" + b + "#") + ("" + c + " ") + ("" + d + ": ") + ("" + e + "") == HitLine(h);
  }

  lemma ItemsShown(texts: seq<string>)
    ensures Show(Items(texts), EscapedAll(texts))
  {
    hide Appear, EscapeContextText;
    forall i | 0 <= i < |texts| ensures Appear(Items(texts)[i], EscapedAll(texts)[i]) {
      OneAppears("- ", EscapeContextText(texts[i]), "");
      assert "- " + EscapeContextText(texts[i]) + "" == Items(texts)[i];
    }
    JoinShows(Items(texts), EscapedAll(texts));
  }

  lemma HeadedShown(heading: string, texts: seq<string>)
    ensures Show(Headed(heading, texts), EscapedAll(texts))
  {
    hide Show, Items;
    if texts == [] {
      ShowNothing();
      assert EscapedAll(texts) == [];
    } else {
      ShowOther(heading);
      ItemsShown(texts);
      ShowAppend([heading], [], Items(texts), EscapedAll(texts));
      assert [] + EscapedAll(texts) == EscapedAll(texts);
    }
  }

  lemma ShowNothing()
    ensures Show([], [])
  {
    NothingAppears(Join([], "\n"));
  }

  lemma EvidenceLinesShown(evidence: seq<Evidence>)
    ensures Show(EvidenceLines(evidence), AllEvidence(evidence))
  {
    hide Appear, EvidenceLine, EvidenceTexts;
    if evidence == [] {
      ShowOther("- none");
      assert AllEvidence(evidence) == [];
    } else {
      forall i | 0 <= i < |evidence| ensures Appear(EvidenceLine(evidence[i]), EvidenceTexts(evidence[i])) {
        EvidenceShown(evidence[i]);
      }
      JoinShows(EvidenceLines(evidence), AllEvidence(evidence));
    }
  }

  lemma SessionLinesShown(hits: Option<seq<Hit>>)
    ensures Show(SessionLines(hits), AllHits(hits))
  {
    hide Appear, HitLine, HitTexts, Join;
    if hits.None? {
      ShowNothing();
    } else {
      ShowOther(SESSION_OPENING);
      ShowOther("</session-recall>");
      var lines := if hits.value == [] then ["- none"]
                   else seq(|hits.value|, i requires 0 <= i < |hits.value| => HitLine(hits.value[i]));
      if hits.value == [] {
        ShowOther("- none");
        assert AllHits(hits) == [];
      } else {
        forall i | 0 <= i < |hits.value| ensures Appear(HitLine(hits.value[i]), HitTexts(hits.value[i])) {
          HitShown(hits.value[i]);
        }
        JoinShows(lines, AllHits(hits));
      }
      ShowAppend([SESSION_OPENING], [], lines, AllHits(hits));
      ShowAppend([SESSION_OPENING] + lines, [] + AllHits(hits), ["</session-recall>"], []);
      assert [] + AllHits(hits) + [] == AllHits(hits);
    }
  }

  lemma HeadLinesShown(r: Retrieved)
    ensures Show(HeadLines(r), EscapedAll([r.summary, r.answerability, r.confidence]))
  {
    hide Appear, Join, EscapeContextText, Show;
    var a, b, c := EscapeContextText(r.summary), EscapeContextText(r.answerability), EscapeContextText(r.confidence);
    LabelShown("Summary: ", r.summary);
    LabelShown("Answerability: ", r.answerability);
    LabelShown("Confidence: ", r.confidence);
    ShowOther(OPENING);
    ShowOther(NOTICE);
    ShowOther("<canonical-memory>");
    ShowOther("Evidence:");
    ShowAppend([OPENING], [], [NOTICE], []);
    ShowAppend([OPENING] + [NOTICE], [] + [], ["<canonical-memory>"], []);
    var opening := [OPENING] + [NOTICE] + ["<canonical-memory>"];
    ShowAppend(opening, [] + [] + [], ["Summary: " + a], [[a]]);
    ShowAppend(opening + ["Summary: " + a], [] + [] + [] + [[a]], ["Answerability: " + b], [[b]]);
    ShowAppend(opening + ["Summary: " + a] + ["Answerability: " + b], [] + [] + [] + [[a]] + [[b]],
               ["Confidence: " + c], [[c]]);
    ShowAppend(opening + ["Summary: " + a] + ["Answerability: " + b] + ["Confidence: " + c],
               [] + [] + [] + [[a]] + [[b]] + [[c]], ["Evidence:"], []);
    assert [] + [] + [] + [[a]] + [[b]] + [[c]] + [] == EscapedAll([r.summary, r.answerability, r.confidence]);
    assert opening + ["Summary: " + a] + ["Answerability: " + b] + ["Confidence: " + c] + ["Evidence:"] == HeadLines(r);
  }

  lemma LabelShown(mark: string, text: string)
    ensures Show([mark + EscapeContextText(text)], [[EscapeContextText(text)]])
  {
    hide Appear, EscapeContextText;
    OneAppears(mark, EscapeContextText(text), "");
    assert mark + EscapeContextText(text) + "" == mark + EscapeContextText(text);
    assert Flat([[EscapeContextText(text)]][1..]) == [];
    assert [EscapeContextText(text)] + [] == [EscapeContextText(text)];
  }

  lemma ExcerptsTidied(texts: seq<string>)
    ensures EscapedAll(TidyAll(texts)) == TidiedAll(texts)
  {
  }

  /** The block shows the summary, the verdict on it, every piece of evidence with its path, heading and id, every
      constraint, excerpt and uncertainty, and every hit of the session recall, in this order. */
  lemma BlockShowsTexts(r: Retrieved, hits: Option<seq<Hit>>)
    ensures Appear(ContextBlock(r, hits), Flat(AllTexts(r, hits)))
  {
    hide Show, EscapedAll, TidiedAll, AllEvidence, AllHits, HeadLines, EvidenceLines, SessionLines, Headed, TidyAll,
         Appear;
    HeadLinesShown(r);
    EvidenceLinesShown(r.evidence);
    HeadedShown("Constraints:", r.constraints);
    HeadedShown("Raw excerpts:", TidyAll(r.rawExcerpts));
    ExcerptsTidied(r.rawExcerpts);
    HeadedShown("Uncertainties:", r.uncertainties);
    ShowOther("</canonical-memory>");
    SessionLinesShown(hits);
    ShowOther(CLOSING);
    var xs := EscapedAll([r.summary, r.answerability, r.confidence]);
    ShowAppend(HeadLines(r), xs, EvidenceLines(r.evidence), AllEvidence(r.evidence));
    var a, as_ := HeadLines(r) + EvidenceLines(r.evidence), xs + AllEvidence(r.evidence);
    ShowAppend(a, as_, Headed("Constraints:", r.constraints), EscapedAll(r.constraints));
    var b, bs := a + Headed("Constraints:", r.constraints), as_ + EscapedAll(r.constraints);
    ShowAppend(b, bs, Headed("Raw excerpts:", TidyAll(r.rawExcerpts)), TidiedAll(r.rawExcerpts));
    var c, cs := b + Headed("Raw excerpts:", TidyAll(r.rawExcerpts)), bs + TidiedAll(r.rawExcerpts);
    ShowAppend(c, cs, Headed("Uncertainties:", r.uncertainties), EscapedAll(r.uncertainties));
    var d, ds := c + Headed("Uncertainties:", r.uncertainties), cs + EscapedAll(r.uncertainties);
    ShowAppend(d, ds, ["</canonical-memory>"], []);
    ShowAppend(d + ["</canonical-memory>"], ds + [], SessionLines(hits), AllHits(hits));
    ShowAppend(d + ["</canonical-memory>"] + SessionLines(hits), ds + [] + AllHits(hits), [CLOSING], []);
    assert ds + [] + AllHits(hits) + [] == AllTexts(r, hits);
    ShownAppear(BodyLines(r, hits) + [CLOSING], AllTexts(r, hits));
  }

  lemma ShownAppear(lines: seq<string>, pieces: seq<seq<string>>)
    requires Show(lines, pieces)
    ensures Appear(Join(lines, "\n"), Flat(pieces))
  {
  }

  // ----- Which sections there are -----

  /** No line of the block but a section's own heading is one of the three. */
  lemma ItemsAreNoHeadings(texts: seq<string>)
    ensures forall line :: line in Items(texts) ==> |line| >= 2 && line[0] == '-'
  {
  }

  lemma EvidenceIsNoHeading(evidence: seq<Evidence>)
    ensures forall line :: line in EvidenceLines(evidence) ==> |line| >= 2 && line[0] == '-'
    ensures "- none" in EvidenceLines(evidence) <==> evidence == []
  {
    hide EscapeContextText;
    forall line | line in EvidenceLines(evidence) && evidence != []
      ensures |line| >= 2 && line[0] == '-' && line[|line| - 1] == ')'
    {
      var i :| 0 <= i < |evidence| && EvidenceLines(evidence)[i] == line;
      EvidenceEnds(evidence[i]);
    }
  }

  lemma EvidenceEnds(e: Evidence)
    ensures var line := EvidenceLine(e); |line| >= 2 && line[0] == '-' && line[|line| - 1] == ')'
  {
    hide EscapeContextText, Join;
  }

  lemma HitsAreNoHeadings(hits: Option<seq<Hit>>)
    ensures forall line :: line in SessionLines(hits) ==> |line| >= 2 && (line[0] == '-' || line[0] == '<')
    ensures SESSION_OPENING in SessionLines(hits) <==> hits.Some?
  {
    hide EscapeContextText, Tidy, ContentLength.Decimal;
  }

  lemma HeadIsNoHeading(r: Retrieved)
    ensures forall line :: line in HeadLines(r) ==> line != "Constraints:" && line != "Raw excerpts:" &&
                                                    line != "Uncertainties:"
  {
    hide EscapeContextText;
    var a, b, c := "Summary: " + EscapeContextText(r.summary), "Answerability: " + EscapeContextText(r.answerability),
                   "Confidence: " + EscapeContextText(r.confidence);
    assert a[0] == 'S' && b[0] == 'A' && c[3] == 'f' && OPENING[0] == '<' && NOTICE[0] == 'S';
    assert "Constraints:"[3] == 's' && "Raw excerpts:"[0] == 'R' && "Uncertainties:"[0] == 'U' && "Evidence:"[0] == 'E';
    assert "Constraints:"[0] == 'C' && c[0] == 'C';
  }

  lemma InHeaded(heading: string, texts: seq<string>, line: string)
    requires line != "" && line[0] != '-'
    ensures line in Headed(heading, texts) <==> line == heading && texts != []
  {
    ItemsAreNoHeadings(texts);
  }

  lemma InSum(line: string, a: seq<string>, b: seq<string>, c: seq<string>, d: seq<string>, e: seq<string>,
              f: seq<string>, g: seq<string>)
    ensures line in a + b + c + d + e + f + g <==>
            line in a || line in b || line in c || line in d || line in e || line in f || line in g
  {
  }

  lemma IsNoTag(line: string)
    requires line != "" && line[0] != '<'
    ensures line !in ["</canonical-memory>"]
  {
    assert "</canonical-memory>"[0] == '<';
  }

  lemma HeadingsInBody(r: Retrieved, hits: Option<seq<Hit>>, heading: string)
    requires heading == "Constraints:" || heading == "Raw excerpts:" || heading == "Uncertainties:"
    ensures heading in BodyLines(r, hits) <==>
            || (heading == "Constraints:" && r.constraints != [])
            || (heading == "Raw excerpts:" && TidyAll(r.rawExcerpts) != [])
            || (heading == "Uncertainties:" && r.uncertainties != [])
  {
    hide HeadLines, EvidenceLines, Headed, SessionLines, TidyAll;
    HeadIsNoHeading(r);
    EvidenceIsNoHeading(r.evidence);
    HitsAreNoHeadings(hits);
    FirstLetters(heading);
    IsNoTag(heading);
    InHeaded("Constraints:", r.constraints, heading);
    InHeaded("Raw excerpts:", TidyAll(r.rawExcerpts), heading);
    InHeaded("Uncertainties:", r.uncertainties, heading);
    InSum(heading, HeadLines(r), EvidenceLines(r.evidence), Headed("Constraints:", r.constraints),
          Headed("Raw excerpts:", TidyAll(r.rawExcerpts)), Headed("Uncertainties:", r.uncertainties),
          ["</canonical-memory>"], SessionLines(hits));
  }

  lemma FirstLetters(heading: string)
    requires heading == "Constraints:" || heading == "Raw excerpts:" || heading == "Uncertainties:"
    ensures heading != "" && heading[0] != '-' && heading[0] != '<'
  {
  }

  /** A section stands in the block exactly when it has something to say. */
  lemma SectionsAreHeaded(r: Retrieved, hits: Option<seq<Hit>>)
    ensures "Constraints:" in BodyLines(r, hits) <==> r.constraints != []
    ensures "Raw excerpts:" in BodyLines(r, hits) <==> r.rawExcerpts != []
    ensures "Uncertainties:" in BodyLines(r, hits) <==> r.uncertainties != []
    ensures "- none" in EvidenceLines(r.evidence) <==> r.evidence == []
    ensures SESSION_OPENING in SessionLines(hits) <==> hits.Some?
  {
    hide BodyLines, EvidenceLines, SessionLines, TidyAll;
    EvidenceIsNoHeading(r.evidence);
    HitsAreNoHeadings(hits);
    assert "Constraints:"[0] == 'C' && "Raw excerpts:"[0] == 'R' && "Uncertainties:"[0] == 'U';
    assert |TidyAll(r.rawExcerpts)| == |r.rawExcerpts|;
    HeadingsInBody(r, hits, "Constraints:");
    HeadingsInBody(r, hits, "Raw excerpts:");
    HeadingsInBody(r, hits, "Uncertainties:");
  }
}
