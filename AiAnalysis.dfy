/**
  The narrative analyzer: ten guarded rules, starting from a base score of 50, each nudge
  the score and push at most one canned sentence onto each of four lists (strengths,
  challenges, insights, recommendations). Fallback sentences then fill the strengths, the
  insights and the recommendations when they are empty, and the score is clamped to
  [20, 100]. Answers are read with `find`, so the FIRST answer to a question wins.

  The rules are stated twice: as a list of `Outcome`s that a fold applies to a `Draft`
  (the specification the lemmas reason about), and as the step-by-step method
  `GenerateAIAnalysis`, which is proved to produce the folded result.
*/
module AiAnalysis {
  import opened Wrappers
  import opened Strings
  import opened Answers
  import opened Catalog

  /** The record the analyzer returns. */
  datatype Analysis = Analysis(
    matchScore: int,
    strengths: seq<string>,
    challenges: seq<string>,
    insights: seq<string>,
    recommendations: seq<string>)

  /** What one rule does when it fires: a change to the score and at most one sentence for
      each list. A rule that does not fire is `NoOutcome`. */
  datatype Outcome = Outcome(
    delta: int,
    strength: Option<string>,
    challenge: Option<string>,
    insight: Option<string>,
    recommendation: Option<string>)

  const NoOutcome := Outcome(0, None, None, None, None)

  function Gain(delta: int, strength: string): Outcome {
    Outcome(delta, Some(strength), None, None, None)
  }

  function Insight(delta: int, insight: string): Outcome {
    Outcome(delta, None, None, Some(insight), None)
  }

  function Concern(delta: int, challenge: string, recommendation: string): Outcome {
    Outcome(delta, None, Some(challenge), None, Some(recommendation))
  }

  // ---------------------------------------------------------------------------------
  // The sentences

  const TimeStrength := "Your available time aligns perfectly with this business model"
  const TimeChallenge := "This business requires more time than you currently have available"
  const TimeRecommendation := "Consider starting part-time and gradually increasing your commitment"
  const NoInvestmentStrength := "Perfect fit - this business requires no upfront investment"
  const BudgetStrength := "Your investment budget supports this business model"
  const TechStrength := "Your strong tech skills give you a significant advantage"
  const TechChallenge := "This business requires technical skills you may need to develop"
  const TechRecommendation := "Consider taking online courses to improve your technical abilities"
  const CommunicationStrength := "Your communication skills are perfectly suited for this business"
  const CommunicationChallenge := "This business involves significant client interaction"
  const CommunicationRecommendation := "Practice your communication skills or consider written-first approaches"
  const CreativityStrength := "Your creative abilities are a perfect match for this business type"
  const IncomeInsight := "This business has the income potential to support your financial goals"
  const PurposeInsight := "This business aligns with your desire to make a meaningful impact"
  const LowRiskInsight := "The low financial risk matches your cautious approach"
  const HighRiskInsight := "Your comfort with risk positions you well for high-growth opportunities"
  const ConsistencyStrength := "Your consistency and self-motivation are key success factors"
  const ConsistencyChallenge := "This business requires consistent effort and self-discipline"
  const ConsistencyRecommendation := "Set up accountability systems and start with small, manageable goals"
  const SoloInsight := "This business allows you to work independently, matching your preference"
  const TimelineChallenge := "Your income timeline may be optimistic for this business model"
  const TimelineRecommendation := "Allow more time for initial setup and first sales"
  const FallbackStrength := "This business model offers good opportunities for your profile"
  const FallbackInsight := "This business provides a balanced approach to building income"
  const FallbackRecommendation := "Focus on your existing strengths while developing new skills gradually"

  // ---------------------------------------------------------------------------------
  // Reading the answers

  /** A question read as text holds a string, a list of strings, or nothing: a number there
      would make `includes` throw. */
  predicate TextAnswer(v: Option<AnswerValue>) {
    v.None? || !v.value.Num?
  }

  /** A question read as a scale holds a number or a falsy value. */
  predicate ScaleAnswer(v: Option<AnswerValue>) {
    v.None? || v.value.Num? || v.value == Str("")
  }

  /** The answers have the types the analyzer's casts assume: its five text questions hold
      no number, and its six scale questions hold a number or a falsy value. */
  predicate WellTyped(answers: seq<QuizAnswer>) {
    TextAnswer(FirstAnswer(answers, "time-commitment")) && TextAnswer(FirstAnswer(answers, "investment"))
    && TextAnswer(FirstAnswer(answers, "motivation")) && TextAnswer(FirstAnswer(answers, "work-style"))
    && TextAnswer(FirstAnswer(answers, "first-income"))
    && ScaleAnswer(FirstAnswer(answers, "tech-skills")) && ScaleAnswer(FirstAnswer(answers, "communication"))
    && ScaleAnswer(FirstAnswer(answers, "creativity")) && ScaleAnswer(FirstAnswer(answers, "risk-tolerance"))
    && ScaleAnswer(FirstAnswer(answers, "consistency")) && ScaleAnswer(FirstAnswer(answers, "self-motivation"))
  }

  /** `(answer as string)?.includes(sub)`: a substring test on a string, an element test on
      an array, false when there is no answer. */
  predicate AnswerIncludes(v: Option<AnswerValue>, sub: string)
    requires TextAnswer(v)
  {
    match v
    case None => false
    case Some(Str(s)) => Contains(s, sub)
    case Some(Multi(items)) => sub in items
  }

  /** `(answer as number) || 3`: a missing, empty or zero answer reads as 3. */
  function ScaleOrDefault(v: Option<AnswerValue>): int
    requires ScaleAnswer(v)
  {
    if Truthy(v) then v.value.n else 3
  }

  // ---------------------------------------------------------------------------------
  // The rules, in source order

  function TimeRule(userTime: Option<AnswerValue>, b: BusinessModel): Outcome
    requires TextAnswer(userTime)
  {
    if AnswerIncludes(userTime, "25+") && Contains(b.timeCommitment, "20+") then Gain(15, TimeStrength)
    else if AnswerIncludes(userTime, "Less than 5") && Contains(b.timeCommitment, "20+") then
      Concern(-10, TimeChallenge, TimeRecommendation)
    else NoOutcome
  }

  function InvestmentRule(userInvestment: Option<AnswerValue>, b: BusinessModel): Outcome
    requires TextAnswer(userInvestment)
  {
    if userInvestment == Some(Str("$0")) && Contains(b.initialInvestment, "$0") then
      Gain(10, NoInvestmentStrength)
    else if AnswerIncludes(userInvestment, "$1,000+") && Contains(b.initialInvestment, "$500+") then
      Gain(5, BudgetStrength)
    else NoOutcome
  }

  function TechRule(techSkills: int, b: BusinessModel): Outcome {
    if techSkills >= 4 && "Basic tech skills" in b.requiredSkills then Gain(10, TechStrength)
    else if techSkills <= 2 && "Basic tech skills" in b.requiredSkills then
      Concern(-5, TechChallenge, TechRecommendation)
    else NoOutcome
  }

  /** The low-communication branch pushes its sentences without changing the score. */
  function CommunicationRule(communicationScore: int, b: BusinessModel): Outcome {
    if communicationScore >= 4 && "Communication" in b.requiredSkills then Gain(10, CommunicationStrength)
    else if communicationScore <= 2 && "Communication" in b.requiredSkills then
      Concern(0, CommunicationChallenge, CommunicationRecommendation)
    else NoOutcome
  }

  function CreativityRule(creativityScore: int, b: BusinessModel): Outcome {
    if creativityScore >= 4 && b.category == "Creative" then Gain(15, CreativityStrength)
    else NoOutcome
  }

  function MotivationRule(motivation: Option<AnswerValue>, b: BusinessModel): Outcome
    requires TextAnswer(motivation)
  {
    if AnswerIncludes(motivation, "Financial freedom") && Contains(b.potentialIncome, "$5,000+") then
      Insight(5, IncomeInsight)
    else if AnswerIncludes(motivation, "Purpose") && b.category == "Education" then
      Insight(10, PurposeInsight)
    else NoOutcome
  }

  function RiskRule(riskTolerance: int, b: BusinessModel): Outcome {
    if riskTolerance <= 2 && Contains(b.initialInvestment, "$0") then Insight(5, LowRiskInsight)
    else if riskTolerance >= 4 && b.scalability == "High" then Insight(5, HighRiskInsight)
    else NoOutcome
  }

  function ConsistencyRule(consistency: int, selfMotivation: int): Outcome {
    if consistency >= 4 && selfMotivation >= 4 then Gain(10, ConsistencyStrength)
    else if consistency <= 2 || selfMotivation <= 2 then
      Concern(0, ConsistencyChallenge, ConsistencyRecommendation)
    else NoOutcome
  }

  function WorkStyleRule(workStyle: Option<AnswerValue>, b: BusinessModel): Outcome
    requires TextAnswer(workStyle)
  {
    if AnswerIncludes(workStyle, "Solo") && "Team coordination" !in b.requiredSkills then
      Insight(5, SoloInsight)
    else NoOutcome
  }

  function FirstIncomeRule(firstIncome: Option<AnswerValue>, b: BusinessModel): Outcome
    requires TextAnswer(firstIncome)
  {
    if AnswerIncludes(firstIncome, "Under 1 month") && !Contains(b.timeToStart, "1-2 weeks") then
      Concern(0, TimelineChallenge, TimelineRecommendation)
    else NoOutcome
  }

  /** The ten rules for these answers, each reading the first answer to its question. */
  function Rules(b: BusinessModel, answers: seq<QuizAnswer>): (rs: seq<Outcome>)
    requires WellTyped(answers)
    ensures |rs| == 10
  {
    [ TimeRule(FirstAnswer(answers, "time-commitment"), b),
      InvestmentRule(FirstAnswer(answers, "investment"), b),
      TechRule(ScaleOrDefault(FirstAnswer(answers, "tech-skills")), b),
      CommunicationRule(ScaleOrDefault(FirstAnswer(answers, "communication")), b),
      CreativityRule(ScaleOrDefault(FirstAnswer(answers, "creativity")), b),
      MotivationRule(FirstAnswer(answers, "motivation"), b),
      RiskRule(ScaleOrDefault(FirstAnswer(answers, "risk-tolerance")), b),
      ConsistencyRule(ScaleOrDefault(FirstAnswer(answers, "consistency")),
                      ScaleOrDefault(FirstAnswer(answers, "self-motivation"))),
      WorkStyleRule(FirstAnswer(answers, "work-style"), b),
      FirstIncomeRule(FirstAnswer(answers, "first-income"), b) ]
  }

  // ---------------------------------------------------------------------------------
  // Folding the rules

  /** The analyzer's working state: the running score and the four lists. */
  datatype Draft = Draft(
    score: int,
    strengths: seq<string>,
    challenges: seq<string>,
    insights: seq<string>,
    recommendations: seq<string>)

  const Start := Draft(50, [], [], [], [])

  function Pushed(list: seq<string>, entry: Option<string>): seq<string> {
    if entry.Some? then list + [entry.value] else list
  }

  function Apply(d: Draft, o: Outcome): Draft {
    Draft(d.score + o.delta, Pushed(d.strengths, o.strength), Pushed(d.challenges, o.challenge),
          Pushed(d.insights, o.insight), Pushed(d.recommendations, o.recommendation))
  }

  /** The draft after applying these rules in order to the start state. */
  function Fold(rs: seq<Outcome>): Draft {
    if rs == [] then Start else Apply(Fold(rs[..|rs| - 1]), rs[|rs| - 1])
  }

  /** `Math.min(100, Math.max(20, score))`. */
  function Clamp(score: int): int {
    if score < 20 then 20 else if score > 100 then 100 else score
  }

  function OrFallback(list: seq<string>, fallback: string): seq<string> {
    if |list| == 0 then [fallback] else list
  }

  /** The fallbacks and the clamp applied to a finished draft. */
  function Finish(d: Draft): Analysis {
    Analysis(Clamp(d.score), OrFallback(d.strengths, FallbackStrength), d.challenges,
             OrFallback(d.insights, FallbackInsight), OrFallback(d.recommendations, FallbackRecommendation))
  }

  /** The analysis of one business model for these answers. */
  function AnalysisOf(b: BusinessModel, answers: seq<QuizAnswer>): Analysis
    requires WellTyped(answers)
  {
    Finish(Fold(Rules(b, answers)))
  }

  // ---------------------------------------------------------------------------------
  // The analyzer as the source runs it

  /** `generateAIAnalysis`: runs the ten blocks that adjust `matchScore` and push onto the
      four lists (held together in a `Draft`), then adds the fallbacks and clamps; the
      result is the folded analysis. */
  method GenerateAIAnalysis(b: BusinessModel, answers: seq<QuizAnswer>) returns (a: Analysis)
    requires WellTyped(answers)
    ensures a == AnalysisOf(b, answers)
  {
    var d := Start;
    d := TimeBlock(FirstAnswer(answers, "time-commitment"), b, d);
    d := InvestmentBlock(FirstAnswer(answers, "investment"), b, d);
    d := TechBlock(ScaleOrDefault(FirstAnswer(answers, "tech-skills")), b, d);
    d := CommunicationBlock(ScaleOrDefault(FirstAnswer(answers, "communication")), b, d);
    d := CreativityBlock(ScaleOrDefault(FirstAnswer(answers, "creativity")), b, d);
    d := MotivationBlock(FirstAnswer(answers, "motivation"), b, d);
    d := RiskBlock(ScaleOrDefault(FirstAnswer(answers, "risk-tolerance")), b, d);
    d := ConsistencyBlock(ScaleOrDefault(FirstAnswer(answers, "consistency")),
                          ScaleOrDefault(FirstAnswer(answers, "self-motivation")), d);
    d := WorkStyleBlock(FirstAnswer(answers, "work-style"), b, d);
    d := FirstIncomeBlock(FirstAnswer(answers, "first-income"), b, d);
    FoldOfTen(Rules(b, answers));
    assert d == Fold(Rules(b, answers));
    assert AnalysisOf(b, answers) == Finish(d);

    a := Complete(d);
  }

  /** The closing steps: a fallback sentence for each list that rules filled nothing into,
      except the challenges, then `Math.min(100, Math.max(20, matchScore))`. */
  method Complete(d: Draft) returns (a: Analysis)
    ensures a == Finish(d)
  {
    var strengths, insights, recommendations := d.strengths, d.insights, d.recommendations;
    if |strengths| == 0 {
      strengths := strengths + [FallbackStrength];
    }
    if |insights| == 0 {
      insights := insights + [FallbackInsight];
    }
    if |recommendations| == 0 {
      recommendations := recommendations + [FallbackRecommendation];
    }
    var matchScore := if 20 > d.score then 20 else d.score;
    matchScore := if 100 < matchScore then 100 else matchScore;
    a := Analysis(matchScore, strengths, d.challenges, insights, recommendations);
  }

  /** Time commitment against the model's weekly hours. */
  method TimeBlock(userTime: Option<AnswerValue>, b: BusinessModel, d: Draft) returns (r: Draft)
    requires TextAnswer(userTime)
    ensures r == Apply(d, TimeRule(userTime, b))
  {
    r := d;
    if AnswerIncludes(userTime, "25+") && Contains(b.timeCommitment, "20+") {
      r := r.(score := r.score + 15);
      r := r.(strengths := r.strengths + [TimeStrength]);
    } else if AnswerIncludes(userTime, "Less than 5") && Contains(b.timeCommitment, "20+") {
      r := r.(score := r.score - 10);
      r := r.(challenges := r.challenges + [TimeChallenge]);
      r := r.(recommendations := r.recommendations + [TimeRecommendation]);
    }
  }

  /** Investment comfort against the model's initial investment. */
  method InvestmentBlock(userInvestment: Option<AnswerValue>, b: BusinessModel, d: Draft) returns (r: Draft)
    requires TextAnswer(userInvestment)
    ensures r == Apply(d, InvestmentRule(userInvestment, b))
  {
    r := d;
    if userInvestment == Some(Str("$0")) && Contains(b.initialInvestment, "$0") {
      r := r.(score := r.score + 10);
      r := r.(strengths := r.strengths + [NoInvestmentStrength]);
    } else if AnswerIncludes(userInvestment, "$1,000+") && Contains(b.initialInvestment, "$500+") {
      r := r.(score := r.score + 5);
      r := r.(strengths := r.strengths + [BudgetStrength]);
    }
  }

  /** Tech comfort against a "Basic tech skills" requirement. */
  method TechBlock(techSkills: int, b: BusinessModel, d: Draft) returns (r: Draft)
    ensures r == Apply(d, TechRule(techSkills, b))
  {
    r := d;
    if techSkills >= 4 && "Basic tech skills" in b.requiredSkills {
      r := r.(score := r.score + 10);
      r := r.(strengths := r.strengths + [TechStrength]);
    } else if techSkills <= 2 && "Basic tech skills" in b.requiredSkills {
      r := r.(score := r.score - 5);
      r := r.(challenges := r.challenges + [TechChallenge]);
      r := r.(recommendations := r.recommendations + [TechRecommendation]);
    }
  }

  /** Communication comfort against a "Communication" requirement. */
  method CommunicationBlock(communicationScore: int, b: BusinessModel, d: Draft) returns (r: Draft)
    ensures r == Apply(d, CommunicationRule(communicationScore, b))
  {
    r := d;
    if communicationScore >= 4 && "Communication" in b.requiredSkills {
      r := r.(score := r.score + 10);
      r := r.(strengths := r.strengths + [CommunicationStrength]);
    } else if communicationScore <= 2 && "Communication" in b.requiredSkills {
      r := r.(challenges := r.challenges + [CommunicationChallenge]);
      r := r.(recommendations := r.recommendations + [CommunicationRecommendation]);
    }
  }

  /** Creativity against a Creative category. */
  method CreativityBlock(creativityScore: int, b: BusinessModel, d: Draft) returns (r: Draft)
    ensures r == Apply(d, CreativityRule(creativityScore, b))
  {
    r := d;
    if creativityScore >= 4 && b.category == "Creative" {
      r := r.(score := r.score + 15);
      r := r.(strengths := r.strengths + [CreativityStrength]);
    }
  }

  /** Motivation against the model's income or an Education category. */
  method MotivationBlock(motivation: Option<AnswerValue>, b: BusinessModel, d: Draft) returns (r: Draft)
    requires TextAnswer(motivation)
    ensures r == Apply(d, MotivationRule(motivation, b))
  {
    r := d;
    if AnswerIncludes(motivation, "Financial freedom") && Contains(b.potentialIncome, "$5,000+") {
      r := r.(score := r.score + 5);
      r := r.(insights := r.insights + [IncomeInsight]);
    } else if AnswerIncludes(motivation, "Purpose") && b.category == "Education" {
      r := r.(score := r.score + 10);
      r := r.(insights := r.insights + [PurposeInsight]);
    }
  }

  /** Risk tolerance against a free start or high scalability. */
  method RiskBlock(riskTolerance: int, b: BusinessModel, d: Draft) returns (r: Draft)
    ensures r == Apply(d, RiskRule(riskTolerance, b))
  {
    r := d;
    if riskTolerance <= 2 && Contains(b.initialInvestment, "$0") {
      r := r.(score := r.score + 5);
      r := r.(insights := r.insights + [LowRiskInsight]);
    } else if riskTolerance >= 4 && b.scalability == "High" {
      r := r.(score := r.score + 5);
      r := r.(insights := r.insights + [HighRiskInsight]);
    }
  }

  /** Consistency and self-motivation together. */
  method ConsistencyBlock(consistency: int, selfMotivation: int, d: Draft) returns (r: Draft)
    ensures r == Apply(d, ConsistencyRule(consistency, selfMotivation))
  {
    r := d;
    if consistency >= 4 && selfMotivation >= 4 {
      r := r.(score := r.score + 10);
      r := r.(strengths := r.strengths + [ConsistencyStrength]);
    } else if consistency <= 2 || selfMotivation <= 2 {
      r := r.(challenges := r.challenges + [ConsistencyChallenge]);
      r := r.(recommendations := r.recommendations + [ConsistencyRecommendation]);
    }
  }

  /** A solo work style against a "Team coordination" requirement. */
  method WorkStyleBlock(workStyle: Option<AnswerValue>, b: BusinessModel, d: Draft) returns (r: Draft)
    requires TextAnswer(workStyle)
    ensures r == Apply(d, WorkStyleRule(workStyle, b))
  {
    r := d;
    if AnswerIncludes(workStyle, "Solo") && "Team coordination" !in b.requiredSkills {
      r := r.(score := r.score + 5);
      r := r.(insights := r.insights + [SoloInsight]);
    }
  }

  /** An income timeline under a month against a start time other than "1-2 weeks". */
  method FirstIncomeBlock(firstIncome: Option<AnswerValue>, b: BusinessModel, d: Draft) returns (r: Draft)
    requires TextAnswer(firstIncome)
    ensures r == Apply(d, FirstIncomeRule(firstIncome, b))
  {
    r := d;
    if AnswerIncludes(firstIncome, "Under 1 month") && !Contains(b.timeToStart, "1-2 weeks") {
      r := r.(challenges := r.challenges + [TimelineChallenge]);
      r := r.(recommendations := r.recommendations + [TimelineRecommendation]);
    }
  }

  /** Folding ten rules is applying them one after another. */
  lemma FoldOfTen(rs: seq<Outcome>)
    requires |rs| == 10
    ensures Fold(rs) == Apply(Apply(Apply(Apply(Apply(Apply(Apply(Apply(Apply(Apply(Start,
              rs[0]), rs[1]), rs[2]), rs[3]), rs[4]), rs[5]), rs[6]), rs[7]), rs[8]), rs[9])
  {
    assert rs[..0] == [];
    FoldStep(rs, 0); FoldStep(rs, 1); FoldStep(rs, 2); FoldStep(rs, 3); FoldStep(rs, 4);
    FoldStep(rs, 5); FoldStep(rs, 6); FoldStep(rs, 7); FoldStep(rs, 8); FoldStep(rs, 9);
    assert rs[..10] == rs;
  }

  lemma FoldStep(rs: seq<Outcome>, k: nat)
    requires k < |rs|
    ensures Fold(rs[..k + 1]) == Apply(Fold(rs[..k]), rs[k])
  {
    assert rs[..k + 1][..k] == rs[..k];
  }

  // ---------------------------------------------------------------------------------
  // Properties of the rule battery

  /** A rule pushes a challenge exactly when it pushes a recommendation. */
  predicate Paired(o: Outcome) {
    o.challenge.Some? <==> o.recommendation.Some?
  }

  /** What one rule can do: whether it may push a strength, an insight or a challenge,
      and the least and greatest change it can make to the score. */
  datatype Reach = Reach(strength: bool, insight: bool, challenge: bool, least: int, greatest: int)

  predicate Fits(o: Outcome, r: Reach) {
    Paired(o) && r.least <= o.delta <= r.greatest
    && (!r.strength ==> o.strength.None?)
    && (!r.insight ==> o.insight.None?)
    && (!r.challenge ==> o.challenge.None?)
  }

  const TimeReach := Reach(true, false, true, -10, 15)
  const InvestmentReach := Reach(true, false, false, 0, 10)
  const TechReach := Reach(true, false, true, -5, 10)
  const CommunicationReach := Reach(true, false, true, 0, 10)
  const CreativityReach := Reach(true, false, false, 0, 15)
  const MotivationReach := Reach(false, true, false, 0, 10)
  const RiskReach := Reach(false, true, false, 0, 5)
  const ConsistencyReach := Reach(true, false, true, 0, 10)
  const WorkStyleReach := Reach(false, true, false, 0, 5)
  const FirstIncomeReach := Reach(false, false, true, 0, 0)

  lemma TextRuleReach(v: Option<AnswerValue>, b: BusinessModel)
    requires TextAnswer(v)
    ensures Fits(TimeRule(v, b), TimeReach) && Fits(InvestmentRule(v, b), InvestmentReach)
    ensures Fits(MotivationRule(v, b), MotivationReach) && Fits(WorkStyleRule(v, b), WorkStyleReach)
    ensures Fits(FirstIncomeRule(v, b), FirstIncomeReach)
  {
  }

  lemma ScaleRuleReach(n: int, m: int, b: BusinessModel)
    ensures Fits(TechRule(n, b), TechReach) && Fits(CommunicationRule(n, b), CommunicationReach)
    ensures Fits(CreativityRule(n, b), CreativityReach) && Fits(RiskRule(n, b), RiskReach)
    ensures Fits(ConsistencyRule(n, m), ConsistencyReach)
  {
  }

  /** A draft with equally many challenges and recommendations, at most the given number
      of strengths, insights and challenges, and a score in the given range. */
  predicate Bounded(d: Draft, strengths: nat, insights: nat, challenges: nat, least: int, greatest: int) {
    |d.challenges| == |d.recommendations|
    && |d.strengths| <= strengths && |d.insights| <= insights && |d.challenges| <= challenges
    && least <= d.score <= greatest
  }

  function Grow(n: nat, b: bool): nat {
    if b then n + 1 else n
  }

  lemma ApplyBounded(d: Draft, o: Outcome, r: Reach, s: nat, i: nat, c: nat, lo: int, hi: int)
    requires Bounded(d, s, i, c, lo, hi) && Fits(o, r)
    ensures Bounded(Apply(d, o), Grow(s, r.strength), Grow(i, r.insight), Grow(c, r.challenge),
                    lo + r.least, hi + r.greatest)
  {
  }

  /** Each rule of the battery keeps to its reach. */
  lemma RulesFit(b: BusinessModel, answers: seq<QuizAnswer>)
    requires WellTyped(answers)
    ensures var rs := Rules(b, answers);
            Fits(rs[0], TimeReach) && Fits(rs[1], InvestmentReach) && Fits(rs[2], TechReach)
            && Fits(rs[3], CommunicationReach) && Fits(rs[4], CreativityReach)
            && Fits(rs[5], MotivationReach) && Fits(rs[6], RiskReach)
            && Fits(rs[7], ConsistencyReach) && Fits(rs[8], WorkStyleReach)
            && Fits(rs[9], FirstIncomeReach)
  {
    TextRulesFit(b, answers);
    ScaleRulesFit(b, answers);
  }

  lemma TextRulesFit(b: BusinessModel, answers: seq<QuizAnswer>)
    requires WellTyped(answers)
    ensures var rs := Rules(b, answers);
            Fits(rs[0], TimeReach) && Fits(rs[1], InvestmentReach) && Fits(rs[5], MotivationReach)
            && Fits(rs[8], WorkStyleReach) && Fits(rs[9], FirstIncomeReach)
  {
    TextRuleReach(FirstAnswer(answers, "time-commitment"), b);
    TextRuleReach(FirstAnswer(answers, "investment"), b);
    TextRuleReach(FirstAnswer(answers, "motivation"), b);
    TextRuleReach(FirstAnswer(answers, "work-style"), b);
    TextRuleReach(FirstAnswer(answers, "first-income"), b);
  }

  lemma ScaleRulesFit(b: BusinessModel, answers: seq<QuizAnswer>)
    requires WellTyped(answers)
    ensures var rs := Rules(b, answers);
            Fits(rs[2], TechReach) && Fits(rs[3], CommunicationReach) && Fits(rs[4], CreativityReach)
            && Fits(rs[6], RiskReach) && Fits(rs[7], ConsistencyReach)
  {
    ScaleRuleReach(ScaleOrDefault(FirstAnswer(answers, "tech-skills")), 3, b);
    ScaleRuleReach(ScaleOrDefault(FirstAnswer(answers, "communication")), 3, b);
    ScaleRuleReach(ScaleOrDefault(FirstAnswer(answers, "creativity")), 3, b);
    ScaleRuleReach(ScaleOrDefault(FirstAnswer(answers, "risk-tolerance")), 3, b);
    ScaleRuleReach(ScaleOrDefault(FirstAnswer(answers, "consistency")),
                   ScaleOrDefault(FirstAnswer(answers, "self-motivation")), b);
  }

  /** Folding the battery: the raw score lies in [35, 140], with at most 6 strengths,
      3 insights and 5 challenges, and one recommendation per challenge. */
  lemma DraftBounds(b: BusinessModel, answers: seq<QuizAnswer>)
    requires WellTyped(answers)
    ensures Bounded(Fold(Rules(b, answers)), 6, 3, 5, 35, 140)
  {
    var rs := Rules(b, answers);
    RulesFit(b, answers);
    FoldOfTen(rs);
    var d := Start;
    ApplyBounded(d, rs[0], TimeReach, 0, 0, 0, 50, 50);                 d := Apply(d, rs[0]);
    ApplyBounded(d, rs[1], InvestmentReach, 1, 0, 1, 40, 65);           d := Apply(d, rs[1]);
    ApplyBounded(d, rs[2], TechReach, 2, 0, 1, 40, 75);                 d := Apply(d, rs[2]);
    ApplyBounded(d, rs[3], CommunicationReach, 3, 0, 2, 35, 85);        d := Apply(d, rs[3]);
    ApplyBounded(d, rs[4], CreativityReach, 4, 0, 3, 35, 95);           d := Apply(d, rs[4]);
    ApplyBounded(d, rs[5], MotivationReach, 5, 0, 3, 35, 110);          d := Apply(d, rs[5]);
    ApplyBounded(d, rs[6], RiskReach, 5, 1, 3, 35, 120);                d := Apply(d, rs[6]);
    ApplyBounded(d, rs[7], ConsistencyReach, 5, 2, 3, 35, 125);         d := Apply(d, rs[7]);
    ApplyBounded(d, rs[8], WorkStyleReach, 6, 2, 4, 35, 135);           d := Apply(d, rs[8]);
    ApplyBounded(d, rs[9], FirstIncomeReach, 6, 3, 4, 35, 140);         d := Apply(d, rs[9]);
  }

  /** The bounds the analysis guarantees: the score lies in [35, 100], so the lower clamp
      at 20 never applies; strengths, insights and recommendations are never empty; there
      are at most 6 strengths, 3 insights and 5 challenges; and there is one
      recommendation per challenge, or the single fallback when there is no challenge. */
  lemma AnalysisBounds(b: BusinessModel, answers: seq<QuizAnswer>)
    requires WellTyped(answers)
    ensures var raw, a := Fold(Rules(b, answers)).score, AnalysisOf(b, answers);
            35 <= a.matchScore <= 100 && a.matchScore == (if raw > 100 then 100 else raw)
    ensures var a := AnalysisOf(b, answers);
            1 <= |a.strengths| <= 6 && 1 <= |a.insights| <= 3 && |a.challenges| <= 5
    ensures var a := AnalysisOf(b, answers);
            |a.recommendations| == (if |a.challenges| == 0 then 1 else |a.challenges|)
  {
    DraftBounds(b, answers);
  }

  /** A missing or falsy scale answer reads as 3, which fires neither a ">= 4" nor a
      "<= 2" rule. */
  lemma DefaultScaleIsNeutral(v: Option<AnswerValue>, b: BusinessModel)
    requires ScaleAnswer(v) && !Truthy(v)
    ensures ScaleOrDefault(v) == 3
    ensures TechRule(ScaleOrDefault(v), b) == NoOutcome && CommunicationRule(ScaleOrDefault(v), b) == NoOutcome
    ensures CreativityRule(ScaleOrDefault(v), b) == NoOutcome && RiskRule(ScaleOrDefault(v), b) == NoOutcome
    ensures ConsistencyRule(ScaleOrDefault(v), ScaleOrDefault(v)) == NoOutcome
  {
  }

  /** With no answers nothing fires: the score stays 50, there are no challenges, and each
      other list holds only its fallback sentence. */
  lemma EmptyAnswersAnalysis(b: BusinessModel)
    ensures WellTyped([])
    ensures AnalysisOf(b, []) == Analysis(50, [FallbackStrength], [], [FallbackInsight], [FallbackRecommendation])
  {
    var rs := Rules(b, []);
    DefaultScaleIsNeutral(None, b);
    assert forall k :: 0 <= k < 10 ==> rs[k] == NoOutcome;
    FoldOfTen(rs);
  }

  /** A later answer to a question already answered changes nothing: `find` keeps the
      first. */
  lemma LaterDuplicateIgnored(b: BusinessModel, answers: seq<QuizAnswer>, later: QuizAnswer)
    requires WellTyped(answers)
    requires FirstAnswer(answers, later.questionId).Some?
    ensures WellTyped(answers + [later])
    ensures AnalysisOf(b, answers + [later]) == AnalysisOf(b, answers)
  {
    FirstAnswerAppended(answers, later);
  }

  // ---------------------------------------------------------------------------------
  // Score bands

  function GetMatchColor(score: int): string {
    if score >= 80 then "text-green-600"
    else if score >= 60 then "text-yellow-600"
    else "text-red-600"
  }

  function GetMatchLabel(score: int): string {
    if score >= 80 then "Excellent Match"
    else if score >= 60 then "Good Match"
    else if score >= 40 then "Fair Match"
    else "Needs Work"
  }

  /** The order of the labels and colours, from worst to best. */
  function LabelRank(text: string): nat {
    if text == "Excellent Match" then 3 else if text == "Good Match" then 2
    else if text == "Fair Match" then 1 else 0
  }

  function ColorRank(color: string): nat {
    if color == "text-green-600" then 2 else if color == "text-yellow-600" then 1 else 0
  }

  /** The label and the colour bands split at 80, 60 (and 40 for labels). */
  lemma MatchBands(score: int)
    ensures GetMatchLabel(score) == "Excellent Match" <==> score >= 80
    ensures GetMatchLabel(score) == "Good Match" <==> 60 <= score < 80
    ensures GetMatchLabel(score) == "Fair Match" <==> 40 <= score < 60
    ensures GetMatchLabel(score) == "Needs Work" <==> score < 40
    ensures GetMatchColor(score) == "text-green-600" <==> score >= 80
    ensures GetMatchColor(score) == "text-yellow-600" <==> 60 <= score < 80
    ensures GetMatchColor(score) == "text-red-600" <==> score < 60
  {
  }

  /** A higher score never gets a worse label or colour. */
  lemma MatchBandsMonotone(s: int, t: int)
    requires s <= t
    ensures LabelRank(GetMatchLabel(s)) <= LabelRank(GetMatchLabel(t))
    ensures ColorRank(GetMatchColor(s)) <= ColorRank(GetMatchColor(t))
  {
  }
}
