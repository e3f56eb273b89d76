/**
  The results page: every catalog model is scored and analysed for the stored answers,
  the list is sorted by match percentage, highest first, with `Array.prototype.sort`
  (stable since ECMAScript 2019, section 23.1.3.30 of ECMA-262, 2023 edition), and the
  first four are kept. The sort is modelled as a stable insertion sort.
*/
module Results {
  import opened Wrappers
  import opened Answers
  import opened Catalog
  import opened QuizLogic
  import opened AiAnalysis
  import opened StableSort
  import opened BusinessDetail

  /** A catalog model with its match percentage and its narrative analysis. */
  datatype RankedMatch = RankedMatch(business: BusinessModel, matchPercentage: int, aiAnalysis: Analysis)

  /** `businessModels.map(business => ({...business, matchPercentage, aiAnalysis}))`. */
  function Scored(answers: seq<QuizAnswer>, catalog: seq<BusinessModel>): seq<RankedMatch>
    requires WellTyped(answers)
  {
    seq(|catalog|, i requires 0 <= i < |catalog| =>
      RankedMatch(catalog[i], MatchPercentage(answers, catalog[i]), AnalysisOf(catalog[i], answers)))
  }

  /** The sort key. */
  function Percentage(m: RankedMatch): int {
    m.matchPercentage
  }

  /** The four best matches the page shows. */
  function TopMatches(answers: seq<QuizAnswer>, catalog: seq<BusinessModel>): seq<RankedMatch>
    requires WellTyped(answers)
  {
    Take(SortDesc(Scored(answers, catalog), Percentage), 4)
  }

  // ---------------------------------------------------------------------------------
  // The page's ranking

  /** The ranking keeps min(4, N) entries of the N catalog models, each drawn from the
      scored catalog no more often than it occurs there, sorted highest first, with
      entries of equal score in catalog order, and every scored model left out, by value
      or by position past the cut of the sorted list, scores no higher than the last entry
      shown. */
  lemma TopMatchesSpec(answers: seq<QuizAnswer>, catalog: seq<BusinessModel>)
    requires WellTyped(answers)
    ensures var r := TopMatches(answers, catalog);
            |r| == (if |catalog| < 4 then |catalog| else 4)
    ensures SortedDesc(TopMatches(answers, catalog), Percentage)
    ensures multiset(TopMatches(answers, catalog)) <= multiset(Scored(answers, catalog))
    ensures forall v :: WithKey(TopMatches(answers, catalog), Percentage, v) <= WithKey(Scored(answers, catalog), Percentage, v)
    ensures var r := TopMatches(answers, catalog);
            forall m :: m in Scored(answers, catalog) && m !in r ==>
              r != [] && m.matchPercentage <= r[|r| - 1].matchPercentage
    ensures var r := TopMatches(answers, catalog);
            var sorted := SortDesc(Scored(answers, catalog), Percentage);
            forall j :: |r| <= j < |sorted| ==>
              r != [] && sorted[j].matchPercentage <= r[|r| - 1].matchPercentage
  {
    var scored := Scored(answers, catalog);
    var sorted := SortDesc(scored, Percentage);
    SortDescPermutes(scored, Percentage);
    SortDescSorted(scored, Percentage);
    assert |sorted| == |multiset(sorted)| == |scored|;
    TakeSpec(sorted, 4, Percentage);
    TakeSorted(sorted, 4, Percentage);
    forall v
      ensures WithKey(TopMatches(answers, catalog), Percentage, v) <= WithKey(scored, Percentage, v)
    {
      SortDescStable(scored, Percentage, v);
    }
    forall m | m in scored ensures m in sorted {
      assert m in multiset(sorted);
    }
  }

  lemma ScoredEntries(answers: seq<QuizAnswer>, catalog: seq<BusinessModel>)
    requires WellTyped(answers)
    ensures forall m :: m in Scored(answers, catalog) ==>
              m.business in catalog && m.matchPercentage == MatchPercentage(answers, m.business)
              && m.aiAnalysis == AnalysisOf(m.business, answers)
  {
  }

  /** Opening the detail page of a ranked entry with the same stored answers shows the
      entry's own percentage and the analyzer's analysis of that model; with no stored
      answers the detail page shows no analysis at all. */
  lemma RankingAgreesWithDetail(answers: seq<QuizAnswer>, catalog: seq<BusinessModel>, e: RankedMatch)
    requires WellTyped(answers) && e in TopMatches(answers, catalog)
    ensures var a := DisplayedAnalysis(LoadDetail(Some(answers), Some(e.business)), e.business);
            |answers| > 0 ==>
              a.Some? && a.value.matchScore == e.matchPercentage
              && a.value == e.aiAnalysis.(matchScore := e.matchPercentage)
    ensures |answers| == 0 ==> DisplayedAnalysis(LoadDetail(Some(answers), Some(e.business)), e.business).None?
  {
    TopMatchesSpec(answers, catalog);
    assert e in multiset(Scored(answers, catalog));
    if |answers| > 0 {
      ReconciledScore(answers, e.business);
    }
  }

  /** Each entry shown is a catalog model with the scorer's percentage and the analyzer's
      own analysis, whose score is not overwritten here. */
  lemma TopMatchesEntries(answers: seq<QuizAnswer>, catalog: seq<BusinessModel>)
    requires WellTyped(answers)
    ensures forall m :: m in TopMatches(answers, catalog) ==>
              m.business in catalog && m.matchPercentage == MatchPercentage(answers, m.business)
              && m.aiAnalysis == AnalysisOf(m.business, answers)
  {
    var scored := Scored(answers, catalog);
    TopMatchesSpec(answers, catalog);
    ScoredEntries(answers, catalog);
    forall m | m in TopMatches(answers, catalog) ensures m in scored {
      assert m in multiset(scored);
    }
  }

  /** A catalog without repeated models gives a ranking without repeated models. */
  lemma TopMatchesDistinct(answers: seq<QuizAnswer>, catalog: seq<BusinessModel>)
    requires WellTyped(answers)
    requires forall i, j :: 0 <= i < j < |catalog| ==> catalog[i] != catalog[j]
    ensures var r := TopMatches(answers, catalog);
            forall i, j :: 0 <= i < j < |r| ==> r[i].business != r[j].business
  {
    var scored := Scored(answers, catalog);
    var r := TopMatches(answers, catalog);
    TopMatchesSpec(answers, catalog);
    TopMatchesEntries(answers, catalog);
    assert forall i, j :: 0 <= i < j < |scored| ==> scored[i] != scored[j] by {
      forall i, j | 0 <= i < j < |scored| ensures scored[i] != scored[j] {
        assert scored[i].business == catalog[i] && scored[j].business == catalog[j];
      }
    }
    SubMultisetDistinct(r, scored);
    forall i, j | 0 <= i < j < |r| ensures r[i].business != r[j].business {
      assert r[i] in r && r[j] in r;
      assert r[i] != r[j];
    }
  }

  /** The page shows the scorer's percentage; the analysis keeps its own score. With no
      answers the two differ: 0 against 50. */
  lemma EmptyAnswersRanking(catalog: seq<BusinessModel>)
    ensures WellTyped([])
    ensures forall m :: m in TopMatches([], catalog) ==> m.matchPercentage == 0 && m.aiAnalysis.matchScore == 50
  {
    TopMatchesEntries([], catalog);
    forall m | m in TopMatches([], catalog) ensures m.matchPercentage == 0 && m.aiAnalysis.matchScore == 50 {
      ZeroIffNothingScored([], m.business);
      EmptyAnswersAnalysis(m.business);
    }
  }

  // ---------------------------------------------------------------------------------
  // The page's own colour for a percentage

  function GetResultsColor(percentage: int): string {
    if percentage >= 90 then "text-green-600"
    else if percentage >= 80 then "text-blue-600"
    else if percentage >= 70 then "text-orange-600"
    else "text-gray-600"
  }

  function ResultsColorRank(color: string): nat {
    if color == "text-green-600" then 3 else if color == "text-blue-600" then 2
    else if color == "text-orange-600" then 1 else 0
  }

  /** The bands split at 90, 80 and 70, and a higher percentage never gets a lower band. */
  lemma ResultsColorBands(p: int, q: int)
    ensures GetResultsColor(p) == "text-green-600" <==> p >= 90
    ensures GetResultsColor(p) == "text-blue-600" <==> 80 <= p < 90
    ensures GetResultsColor(p) == "text-orange-600" <==> 70 <= p < 80
    ensures GetResultsColor(p) == "text-gray-600" <==> p < 70
    ensures p <= q ==> ResultsColorRank(GetResultsColor(p)) <= ResultsColorRank(GetResultsColor(q))
  {
  }
}
