/**
  The business detail page: the score reconciliation (the analysis shown carries the
  scorer's percentage in place of the analyzer's own score) and the parser that turns a
  model's long description into titled sections of bullets and plain paragraphs.
*/
module BusinessDetail {
  import opened Wrappers
  import opened Strings
  import opened Answers
  import opened Catalog
  import opened QuizLogic
  import opened AiAnalysis

  // ---------------------------------------------------------------------------------
  // Reconciliation

  /** The page state the load effect sets: the stored answers, whether to show the report
      and the scorer's percentage. */
  datatype DetailState = DetailState(quizAnswers: seq<QuizAnswer>, showAIReport: bool, matchPercentage: int)

  /** The load effect. `saved` is the parsed stored answer list, `None` when nothing (or
      the empty string) is stored; `business` is the catalog lookup, `None` when no model
      has the route's id. */
  function LoadDetail(saved: Option<seq<QuizAnswer>>, business: Option<BusinessModel>): DetailState {
    match saved
    case None => DetailState([], false, 0)
    case Some(answers) =>
      DetailState(answers, true, if business.Some? then MatchPercentage(answers, business.value) else 0)
  }

  /** The analysis the page renders: produced only when the report is on and answers were
      stored, with its score overwritten by the state's percentage. */
  function DisplayedAnalysis(st: DetailState, b: BusinessModel): Option<Analysis>
    requires WellTyped(st.quizAnswers)
  {
    if st.showAIReport && |st.quizAnswers| > 0 then
      Some(AnalysisOf(b, st.quizAnswers).(matchScore := st.matchPercentage))
    else None
  }

  /** `businessModels.find(b => b.id === businessId)`. */
  function FindBusiness(catalog: seq<BusinessModel>, id: string): (r: Option<BusinessModel>)
    ensures r.Some? ==> r.value in catalog && r.value.id == id
    ensures r.None? <==> forall i :: 0 <= i < |catalog| ==> catalog[i].id != id
    ensures r.Some? ==> exists i :: 0 <= i < |catalog| && catalog[i] == r.value
                                    && forall j :: 0 <= j < i ==> catalog[j].id != id
  {
    if catalog == [] then None
    else if catalog[0].id == id then Some(catalog[0])
    else FindBusiness(catalog[1..], id)
  }

  /** With stored answers and a known model, the displayed score is the scorer's
      percentage and the rest of the analysis is the analyzer's; the label shown follows
      that percentage. */
  lemma ReconciledScore(answers: seq<QuizAnswer>, b: BusinessModel)
    requires WellTyped(answers) && |answers| > 0
    ensures var a := DisplayedAnalysis(LoadDetail(Some(answers), Some(b)), b);
            a.Some? && a.value.matchScore == MatchPercentage(answers, b)
            && a.value == AnalysisOf(b, answers).(matchScore := MatchPercentage(answers, b))
            && GetMatchLabel(a.value.matchScore) == GetMatchLabel(MatchPercentage(answers, b))
  {
  }

  /** An analysis is produced exactly when a non-empty answer list was stored; the state's
      percentage is 0 unless answers were stored and the model exists. */
  lemma AnalysisOnlyWithAnswers(saved: Option<seq<QuizAnswer>>, business: Option<BusinessModel>, b: BusinessModel)
    requires saved.Some? ==> WellTyped(saved.value)
    ensures var st := LoadDetail(saved, business);
            WellTyped(st.quizAnswers)
            && (DisplayedAnalysis(st, b).Some? <==> saved.Some? && |saved.value| > 0)
    ensures LoadDetail(saved, business).matchPercentage
              == if saved.Some? && business.Some? then MatchPercentage(saved.value, business.value) else 0
  {
    assert WellTyped([]) by { EmptyAnswersAnalysis(b); }
  }

  // ---------------------------------------------------------------------------------
  // The description parser

  const BulletMark: char := '\U{2022}'

  /** A character of the class `[A-Z\s&():]`. */
  predicate HeaderChar(c: char) {
    ('A' <= c <= 'Z') || IsSpace(c) || c == '&' || c == '(' || c == ')' || c == ':'
  }

  /** `/^[A-Z\s&():]+:$/`: at least one class character, then a final colon. */
  predicate IsHeader(line: string) {
    |line| >= 2 && line[|line| - 1] == ':' && forall i :: 0 <= i < |line| - 1 ==> HeaderChar(line[i])
  }

  /** One rendered line of a section. */
  datatype Item =
    | Labelled(bold: string, rest: string)  // a bullet with a colon: bold part, colon, rest
    | Bulleted(content: string)             // a bullet without a colon, shown whole
    | Line(text: string)                    // a non-blank line that is not a bullet

  /** One block of the description: a titled section, or the non-blank lines of a plain
      paragraph. */
  datatype Block = Section(title: string, items: seq<Item>) | Paragraph(lines: seq<string>)

  predicate IsBulletLine(line: string) {
    |Trim(line)| > 0 && Trim(line)[0] == BulletMark
  }

  /** `line.replace('•', '').trim()`, split at its colons. */
  function BulletItem(line: string): Item {
    var content := Trim(RemoveFirst(line, BulletMark));
    var parts := Split(content, ":");
    if |parts| > 1 then Labelled(parts[0], Join(parts[1..], ":")) else Bulleted(content)
  }

  function SectionItem(line: string): Option<Item> {
    if IsBulletLine(line) then Some(BulletItem(line))
    else if Trim(line) != "" then Some(Line(line))
    else None
  }

  /** The items of a section's lines; blank lines render nothing. */
  function SectionItems(lines: seq<string>): seq<Item> {
    if lines == [] then []
    else (match SectionItem(lines[0]) case Some(it) => [it] case None => []) + SectionItems(lines[1..])
  }

  function NonBlank(lines: seq<string>): seq<string> {
    if lines == [] then []
    else (if Trim(lines[0]) != "" then [lines[0]] else []) + NonBlank(lines[1..])
  }

  /** One piece of the blank-line split: a section when its first line is a header, with
      the first colon of the header dropped for the title and the remaining lines,
      re-joined and re-split, as its items; otherwise a paragraph. */
  function RenderBlock(piece: string): Block {
    var lines := Split(piece, "\n");
    if IsHeader(lines[0]) then
      Section(RemoveFirst(lines[0], ':'), SectionItems(Split(Join(lines[1..], "\n"), "\n")))
    else Paragraph(NonBlank(lines))
  }

  function RenderDescription(text: string): seq<Block> {
    var pieces := Split(text, "\n\n");
    seq(|pieces|, i requires 0 <= i < |pieces| => RenderBlock(pieces[i]))
  }

  /** The overview is rendered only when the model has a non-empty long description. */
  function ShownDescription(b: BusinessModel): seq<Block> {
    match b.detailedDescription
    case Some(text) => if text != "" then RenderDescription(text) else []
    case None => []
  }

  /** A model with a long description shows at least one block; one without shows none. */
  lemma OverviewShown(b: BusinessModel)
    ensures b.detailedDescription.Some? && b.detailedDescription.value != "" ==>
              |ShownDescription(b)| >= 1
              && ShownDescription(b) == RenderDescription(b.detailedDescription.value)
    ensures b.detailedDescription.None? || b.detailedDescription.value == "" ==> ShownDescription(b) == []
  {
    if b.detailedDescription.Some? && b.detailedDescription.value != "" {
      DescriptionBlocks(b.detailedDescription.value);
    }
  }

  /** One block per piece of the split, the pieces put back together give the text, and a
      block is a section exactly when its first line is a header. */
  lemma DescriptionBlocks(text: string)
    ensures var pieces, blocks := Split(text, "\n\n"), RenderDescription(text);
            |blocks| == |pieces| && Join(pieces, "\n\n") == text
            && forall i :: 0 <= i < |blocks| ==> (blocks[i].Section? <==> IsHeader(Split(pieces[i], "\n")[0]))
  {
    JoinSplit(text, "\n\n");
  }

  /** A header loses exactly one character, its first colon; when the final colon is the
      only one, the title is the line without it. */
  lemma HeaderTitle(line: string)
    requires IsHeader(line)
    ensures |RemoveFirst(line, ':')| == |line| - 1
    ensures ':' !in line[..|line| - 1] ==> RemoveFirst(line, ':') == line[..|line| - 1]
  {
    if ':' !in line[..|line| - 1] {
      RemoveFirstAt(line, ':', |line| - 1);
      assert line[|line|..] == [];
    }
  }

  /** Re-joining and re-splitting the lines after the header gives those lines back, or
      a single empty line when there are none, which renders nothing. */
  lemma SectionBody(piece: string)
    ensures var lines := Split(piece, "\n");
            SectionItems(Split(Join(lines[1..], "\n"), "\n")) == SectionItems(lines[1..])
  {
    var lines := Split(piece, "\n");
    if |lines| > 1 {
      SplitPiecesFree(piece, "\n");
      forall p | p in lines[1..] ensures '\n' !in p {
        ContainsChar(p, '\n');
      }
      SplitJoin(lines[1..], '\n');
    } else {
      assert lines[1..] == [];
      assert Split("", "\n") == [""] by { IndexOfFromSpec("", "\n", 0); }
      assert Trim("") == "";
    }
  }

  /** A bullet with a colon is a labelled item whose bold part, a colon and the rest give
      back the bullet's content exactly; a bullet without one is shown whole. */
  lemma BulletRebuilt(line: string)
    ensures var content, item := Trim(RemoveFirst(line, BulletMark)), BulletItem(line);
            (item.Labelled? <==> ':' in content)
            && (item.Labelled? ==> item.bold + ":" + item.rest == content)
            && (item.Bulleted? ==> item.content == content)
  {
    var content := Trim(RemoveFirst(line, BulletMark));
    var parts := Split(content, ":");
    JoinSplit(content, ":");
    if |parts| > 1 {
      JoinCons(parts[0], parts[1..], ":");
      assert [parts[0]] + parts[1..] == parts;
      assert content[|parts[0]|] == ':';
    } else {
      SplitPiecesFree(content, ":");
      assert content == parts[0];
      ContainsChar(content, ':');
    }
  }

  /** Only the bullet mark that begins the line is removed: the white space before it
      and everything after it, later marks included, are kept. */
  lemma BulletMarkRemoved(line: string)
    requires IsBulletLine(line)
    ensures var i := |line| - |TrimStart(line)|;
            i < |line| && line[i] == BulletMark
            && RemoveFirst(line, BulletMark) == line[..i] + line[i + 1..]
  {
    var t := TrimStart(line);
    var i := |line| - |t|;
    assert Trim(line)[0] == t[0];
    assert line[i] == t[0];
    forall j | 0 <= j < i ensures line[j] != BulletMark {
      assert IsSpace(line[j]);
    }
    RemoveFirstAt(line, BulletMark, i);
  }

  /** A line renders nothing exactly when it is blank. */
  lemma BlankLineNothing(line: string)
    ensures SectionItem(line).None? <==> Trim(line) == ""
  {
  }

  /** A section shows one item per non-blank line. */
  lemma {:induction false} SectionItemsCount(lines: seq<string>)
    ensures |SectionItems(lines)| == |NonBlank(lines)|
    ensures forall l :: l in NonBlank(lines) ==> l in lines && Trim(l) != ""
  {
    if lines != [] {
      SectionItemsCount(lines[1..]);
      BlankLineNothing(lines[0]);
    }
  }
}
