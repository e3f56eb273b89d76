/**
  The match scorer: eleven independently weighted factors, each skipped when its question
  is unanswered, folded into a points total and a weight total, then turned into a
  percentage with round-half-up, clamped to [25, 100], except that a weight total of 0
  gives exactly 0. Also the user profile projected from the same answers.

  The rubric is stated twice: as a table (`Credits`, one `Credit` per factor) that the
  lemmas reason about, and as the step-by-step accumulation `CalculateBusinessMatch`,
  which is proved to compute the same percentage.
*/
module QuizLogic {
  import opened Wrappers
  import opened Strings
  import opened Answers
  import opened Catalog

  /** What one factor contributes: nothing when its question is unanswered, otherwise its
      full weight to the denominator and `points` to the numerator. */
  datatype Credit = Skipped | Earned(weight: nat, points: nat)

  /** The factor weights, in rubric order. */
  const Weights: seq<nat> := [15, 12, 10, 10, 8, 8, 7, 6, 6, 5, 4]

  // ---------------------------------------------------------------------------------
  // The factor table

  function TimeCredit(time: Option<AnswerValue>, b: BusinessModel): Credit {
    if !Truthy(time) then Skipped
    else if b.difficulty == "Beginner" then
      Earned(15, if time == Some(Str("Less than 5 hours")) || time == Some(Str("5–10 hours")) then 15
                 else if time == Some(Str("10–25 hours")) then 10
                 else 5)
    else if b.difficulty == "Intermediate" then
      Earned(15, if time == Some(Str("10–25 hours")) || time == Some(Str("25+ hours")) then 15
                 else if time == Some(Str("5–10 hours")) then 8
                 else 3)
    else
      Earned(15, if time == Some(Str("25+ hours")) then 15
                 else if time == Some(Str("10–25 hours")) then 10
                 else 2)
  }

  function InvestmentCredit(inv: Option<AnswerValue>, b: BusinessModel): Credit {
    if !Truthy(inv) then Skipped
    else
      var bi := b.initialInvestment;
      Earned(12,
        if inv == Some(Str("$0")) then
          (if Contains(bi, "$0") || Contains(bi, "$100") then 12 else 2)
        else if inv == Some(Str("Under $250")) then
          (if Contains(bi, "$100") || Contains(bi, "$200") || Contains(bi, "$500") then 12
           else if Contains(bi, "$0") then 10
           else 4)
        else if inv == Some(Str("$250–$1,000")) then
          (if Contains(bi, "$500") || Contains(bi, "$1,000") then 12 else 6)
        else
          (if Contains(bi, "$1,000") || Contains(bi, "$2,000") || Contains(bi, "$5,000") then 12 else 4))
  }

  function IncomeCredit(target: Option<AnswerValue>, b: BusinessModel): Credit {
    if !Truthy(target) then Skipped
    else
      var bi := b.potentialIncome;
      Earned(10,
        if target == Some(Str("Less than $500")) then
          (if Contains(bi, "$300") || Contains(bi, "$500") then 10 else 6)
        else if target == Some(Str("$500–$2,000")) then
          (if Contains(bi, "$500") || Contains(bi, "$1,000") || Contains(bi, "$2,000") then 10 else 5)
        else if target == Some(Str("$2,000–$5,000")) then
          (if Contains(bi, "$2,000") || Contains(bi, "$3,000") || Contains(bi, "$4,000")
              || Contains(bi, "$5,000") then 10 else 6)
        else
          (if Contains(bi, "$5,000") || Contains(bi, "$10,000") || Contains(bi, "$15,000")
              || Contains(bi, "$20,000") then 10 else 4))
  }

  /** `requiredSkills.join(' ').toLowerCase()`. */
  function SkillsText(b: BusinessModel): string {
    ToLower(Join(b.requiredSkills, " "))
  }

  function TechCredit(tech: int, b: BusinessModel): Credit {
    if tech <= 0 then Skipped
    else
      var rs := SkillsText(b);
      Earned(10,
        if Contains(rs, "programming") || Contains(rs, "development") || Contains(rs, "technical") then
          (if tech >= 4 then 10 else if tech >= 3 then 6 else 2)
        else if Contains(rs, "marketing") || Contains(rs, "social media") || Contains(rs, "design") then
          (if tech >= 3 then 10 else if tech >= 2 then 7 else 4)
        else
          (if tech >= 2 then 10 else 8))
  }

  /** Only category "Finance" or scalability exactly "High" counts as high risk. */
  predicate HighRisk(b: BusinessModel) {
    b.category == "Finance" || b.scalability == "High"
  }

  function RiskCredit(risk: int, b: BusinessModel): Credit {
    if risk <= 0 then Skipped
    else if HighRisk(b) then
      Earned(8, if risk >= 4 then 8 else if risk >= 3 then 5 else 2)
    else if b.difficulty == "Advanced" then
      Earned(8, if risk >= 3 then 8 else if risk >= 2 then 6 else 3)
    else
      Earned(8, if risk >= 2 then 8 else 6)
  }

  predicate DirectContactSkill(skill: string) {
    var s := ToLower(skill);
    Contains(s, "communication") || Contains(s, "customer service") || Contains(s, "teaching")
    || Contains(s, "sales")
  }

  /** `requiredSkills.some(...)` over the direct-contact skills. */
  predicate RequiresDirectCommunication(b: BusinessModel) {
    exists k | 0 <= k < |b.requiredSkills| :: DirectContactSkill(b.requiredSkills[k])
  }

  /** Active when the communication scale is positive OR the client-calls answer is truthy. */
  function CommunicationCredit(comm: int, calls: Option<AnswerValue>, b: BusinessModel): Credit {
    if !(comm > 0 || Truthy(calls)) then Skipped
    else if RequiresDirectCommunication(b) then
      Earned(8, if comm >= 4 && calls == Some(Str("Yes")) then 8
                else if comm >= 3 then 6
                else if calls == Some(Str("Yes")) then 4
                else 2)
    else
      Earned(8, if comm <= 2 && calls == Some(Str("No")) then 8 else 6)
  }

  function CreativityCredit(creativity: int, b: BusinessModel): Credit {
    if creativity <= 0 then Skipped
    else if b.category == "Creative" then
      Earned(7, if creativity >= 4 then 7 else if creativity >= 3 then 5 else 2)
    else
      Earned(7, if creativity >= 3 then 7 else 5)
  }

  function SocialMediaCredit(social: int, b: BusinessModel): Credit {
    if social <= 0 then Skipped
    else if b.id == "social-media-management" || b.id == "content-creation-influencing" then
      Earned(6, if social >= 4 then 6 else if social >= 3 then 4 else 1)
    else
      Earned(6, if social >= 3 then 6 else 4)
  }

  predicate PassiveIncomeModel(b: BusinessModel) {
    b.id == "affiliate-marketing" || b.id == "online-course" || b.id == "print-on-demand"
    || b.id == "digital-product-creation" || b.id == "investing-trading"
  }

  function PassiveIncomeCredit(passive: int, b: BusinessModel): Credit {
    if passive <= 0 then Skipped
    else if PassiveIncomeModel(b) then
      Earned(6, if passive >= 4 then 6 else if passive >= 3 then 4 else 2)
    else
      Earned(6, if passive <= 2 then 6 else 4)
  }

  function SelfMotivationCredit(motivation: int): Credit {
    if motivation <= 0 then Skipped
    else Earned(5, if motivation >= 4 then 5 else if motivation >= 3 then 4 else 2)
  }

  function OrganizationCredit(organization: int, b: BusinessModel): Credit {
    if organization <= 0 then Skipped
    else if b.difficulty == "Advanced" || b.category == "Service" then
      Earned(4, if organization >= 4 then 4 else if organization >= 3 then 3 else 1)
    else
      Earned(4, if organization >= 3 then 4 else 3)
  }

  /** The eleven factors for these answers, looked up with last-write-wins. */
  function Credits(answers: seq<QuizAnswer>, b: BusinessModel): seq<Credit> {
    [ TimeCredit(LastAnswer(answers, "time-commitment"), b),
      InvestmentCredit(LastAnswer(answers, "investment"), b),
      IncomeCredit(LastAnswer(answers, "target-income"), b),
      TechCredit(ScaleValue(LastAnswer(answers, "tech-skills")), b),
      RiskCredit(ScaleValue(LastAnswer(answers, "risk-tolerance")), b),
      CommunicationCredit(ScaleValue(LastAnswer(answers, "communication")),
                          LastAnswer(answers, "client-calls"), b),
      CreativityCredit(ScaleValue(LastAnswer(answers, "creativity")), b),
      SocialMediaCredit(ScaleValue(LastAnswer(answers, "social-media")), b),
      PassiveIncomeCredit(ScaleValue(LastAnswer(answers, "passive-income")), b),
      SelfMotivationCredit(ScaleValue(LastAnswer(answers, "self-motivation"))),
      OrganizationCredit(ScaleValue(LastAnswer(answers, "organization")), b) ]
  }

  function WeightOf(c: Credit): nat {
    if c.Earned? then c.weight else 0
  }

  function PointsOf(c: Credit): nat {
    if c.Earned? then c.points else 0
  }

  function TotalWeight(cs: seq<Credit>): nat {
    if cs == [] then 0 else TotalWeight(cs[..|cs| - 1]) + WeightOf(cs[|cs| - 1])
  }

  function TotalPoints(cs: seq<Credit>): nat {
    if cs == [] then 0 else TotalPoints(cs[..|cs| - 1]) + PointsOf(cs[|cs| - 1])
  }

  /** `Math.round(num / den)` in exact arithmetic: the nearest integer, halves rounded up. */
  function RoundHalfUp(num: nat, den: nat): (r: nat)
    requires den > 0
    ensures (2 * r - 1) * den <= 2 * num < (2 * r + 1) * den
  {
    (2 * num + den) / (2 * den)
  }

  /** The final step: 0 for no weight, otherwise the rounded percentage clamped to [25, 100]. */
  function Finish(points: nat, weight: nat): int {
    if weight == 0 then 0
    else
      var percentage := RoundHalfUp(100 * points, weight);
      if percentage < 25 then 25 else if percentage > 100 then 100 else percentage
  }

  /** The match percentage of one business model for these answers. */
  function MatchPercentage(answers: seq<QuizAnswer>, b: BusinessModel): int {
    var cs := Credits(answers, b);
    Finish(TotalPoints(cs), TotalWeight(cs))
  }

  // ---------------------------------------------------------------------------------
  // The scorer as the source runs it

  /** `calculateBusinessMatch`: fills the answer map, then runs the eleven blocks that add
      to `totalWeight` and `score`; the result is the tabled percentage. */
  method CalculateBusinessMatch(answers: seq<QuizAnswer>, b: BusinessModel) returns (r: int)
    ensures r == MatchPercentage(answers, b)
  {
    var answerMap := BuildAnswerMap(answers);
    var score: nat, totalWeight: nat := 0, 0;
    var timeCommitment := Get(answerMap, answers, "time-commitment");
    score, totalWeight := TimeFactor(timeCommitment, b, score, totalWeight);
    var investment := Get(answerMap, answers, "investment");
    score, totalWeight := InvestmentFactor(investment, b, score, totalWeight);
    var targetIncome := Get(answerMap, answers, "target-income");
    score, totalWeight := IncomeFactor(targetIncome, b, score, totalWeight);
    var techSkills := Get(answerMap, answers, "tech-skills");
    score, totalWeight := TechFactor(ScaleValue(techSkills), b, score, totalWeight);
    var riskTolerance := Get(answerMap, answers, "risk-tolerance");
    score, totalWeight := RiskFactor(ScaleValue(riskTolerance), b, score, totalWeight);
    var communication := Get(answerMap, answers, "communication");
    var clientCalls := Get(answerMap, answers, "client-calls");
    score, totalWeight := CommunicationFactor(ScaleValue(communication), clientCalls, b, score, totalWeight);
    var creativity := Get(answerMap, answers, "creativity");
    score, totalWeight := CreativityFactor(ScaleValue(creativity), b, score, totalWeight);
    var socialMedia := Get(answerMap, answers, "social-media");
    score, totalWeight := SocialMediaFactor(ScaleValue(socialMedia), b, score, totalWeight);
    var passiveIncome := Get(answerMap, answers, "passive-income");
    score, totalWeight := PassiveIncomeFactor(ScaleValue(passiveIncome), b, score, totalWeight);
    var selfMotivation := Get(answerMap, answers, "self-motivation");
    score, totalWeight := SelfMotivationFactor(ScaleValue(selfMotivation), score, totalWeight);
    var organization := Get(answerMap, answers, "organization");
    score, totalWeight := OrganizationFactor(ScaleValue(organization), b, score, totalWeight);
    TotalsOfEleven(Credits(answers, b));
    assert score == TotalPoints(Credits(answers, b)) && totalWeight == TotalWeight(Credits(answers, b));
    if totalWeight == 0 {
      return 0;
    }
    var percentage := RoundHalfUp(100 * score, totalWeight);
    r := if percentage < 25 then 25 else if percentage > 100 then 100 else percentage;
  }

  /** `answerMap.get(id)` on the map `BuildAnswerMap` filled. */
  method Get(answerMap: map<string, AnswerValue>, ghost answers: seq<QuizAnswer>, id: string)
    returns (v: Option<AnswerValue>)
    requires forall id :: Lookup(answerMap, id) == LastAnswer(answers, id)
    ensures v == LastAnswer(answers, id)
  {
    v := Lookup(answerMap, id);
  }

  /** Block 1 of the scorer: Time commitment (weight 15). */
  method TimeFactor(timeCommitment: Option<AnswerValue>, b: BusinessModel, score0: nat, weight0: nat)
    returns (score: nat, totalWeight: nat)
    ensures score == score0 + PointsOf(TimeCredit(timeCommitment, b))
    ensures totalWeight == weight0 + WeightOf(TimeCredit(timeCommitment, b))
  {
    score, totalWeight := score0, weight0;
    if Truthy(timeCommitment) {
      totalWeight := totalWeight + 15;
      if b.difficulty == "Beginner" {
        if timeCommitment == Some(Str("Less than 5 hours")) || timeCommitment == Some(Str("5–10 hours")) {
          score := score + 15;
        } else if timeCommitment == Some(Str("10–25 hours")) {
          score := score + 10;
        } else {
          score := score + 5;
        }
      } else if b.difficulty == "Intermediate" {
        if timeCommitment == Some(Str("10–25 hours")) || timeCommitment == Some(Str("25+ hours")) {
          score := score + 15;
        } else if timeCommitment == Some(Str("5–10 hours")) {
          score := score + 8;
        } else {
          score := score + 3;
        }
      } else {
        if timeCommitment == Some(Str("25+ hours")) {
          score := score + 15;
        } else if timeCommitment == Some(Str("10–25 hours")) {
          score := score + 10;
        } else {
          score := score + 2;
        }
      }
    }
  }

  /** Block 2 of the scorer: Investment (weight 12). */
  method InvestmentFactor(investment: Option<AnswerValue>, b: BusinessModel, score0: nat, weight0: nat)
    returns (score: nat, totalWeight: nat)
    ensures score == score0 + PointsOf(InvestmentCredit(investment, b))
    ensures totalWeight == weight0 + WeightOf(InvestmentCredit(investment, b))
  {
    score, totalWeight := score0, weight0;
    if Truthy(investment) {
      totalWeight := totalWeight + 12;
      var businessInvestment := b.initialInvestment;
      if investment == Some(Str("$0")) {
        if Contains(businessInvestment, "$0") || Contains(businessInvestment, "$100") {
          score := score + 12;
        } else {
          score := score + 2;
        }
      } else if investment == Some(Str("Under $250")) {
        if Contains(businessInvestment, "$100") || Contains(businessInvestment, "$200")
           || Contains(businessInvestment, "$500") {
          score := score + 12;
        } else if Contains(businessInvestment, "$0") {
          score := score + 10;
        } else {
          score := score + 4;
        }
      } else if investment == Some(Str("$250–$1,000")) {
        if Contains(businessInvestment, "$500") || Contains(businessInvestment, "$1,000") {
          score := score + 12;
        } else {
          score := score + 6;
        }
      } else {
        if Contains(businessInvestment, "$1,000") || Contains(businessInvestment, "$2,000")
           || Contains(businessInvestment, "$5,000") {
          score := score + 12;
        } else {
          score := score + 4;
        }
      }
    }
  }

  /** Block 3 of the scorer: Income expectations (weight 10). */
  method IncomeFactor(targetIncome: Option<AnswerValue>, b: BusinessModel, score0: nat, weight0: nat)
    returns (score: nat, totalWeight: nat)
    ensures score == score0 + PointsOf(IncomeCredit(targetIncome, b))
    ensures totalWeight == weight0 + WeightOf(IncomeCredit(targetIncome, b))
  {
    score, totalWeight := score0, weight0;
    if Truthy(targetIncome) {
      totalWeight := totalWeight + 10;
      var businessIncome := b.potentialIncome;
      if targetIncome == Some(Str("Less than $500")) {
        if Contains(businessIncome, "$300") || Contains(businessIncome, "$500") {
          score := score + 10;
        } else {
          score := score + 6;
        }
      } else if targetIncome == Some(Str("$500–$2,000")) {
        if Contains(businessIncome, "$500") || Contains(businessIncome, "$1,000")
           || Contains(businessIncome, "$2,000") {
          score := score + 10;
        } else {
          score := score + 5;
        }
      } else if targetIncome == Some(Str("$2,000–$5,000")) {
        if Contains(businessIncome, "$2,000") || Contains(businessIncome, "$3,000")
           || Contains(businessIncome, "$4,000") || Contains(businessIncome, "$5,000") {
          score := score + 10;
        } else {
          score := score + 6;
        }
      } else {
        if Contains(businessIncome, "$5,000") || Contains(businessIncome, "$10,000")
           || Contains(businessIncome, "$15,000") || Contains(businessIncome, "$20,000") {
          score := score + 10;
        } else {
          score := score + 4;
        }
      }
    }
  }

  /** Block 4 of the scorer: Tech skills (weight 10). */
  method TechFactor(techSkills: int, b: BusinessModel, score0: nat, weight0: nat)
    returns (score: nat, totalWeight: nat)
    ensures score == score0 + PointsOf(TechCredit(techSkills, b))
    ensures totalWeight == weight0 + WeightOf(TechCredit(techSkills, b))
  {
    score, totalWeight := score0, weight0;
    if techSkills > 0 {
      totalWeight := totalWeight + 10;
      var requiredSkills := ToLower(Join(b.requiredSkills, " "));
      if Contains(requiredSkills, "programming") || Contains(requiredSkills, "development")
         || Contains(requiredSkills, "technical") {
        if techSkills >= 4 {
          score := score + 10;
        } else if techSkills >= 3 {
          score := score + 6;
        } else {
          score := score + 2;
        }
      } else if Contains(requiredSkills, "marketing") || Contains(requiredSkills, "social media")
                || Contains(requiredSkills, "design") {
        if techSkills >= 3 {
          score := score + 10;
        } else if techSkills >= 2 {
          score := score + 7;
        } else {
          score := score + 4;
        }
      } else {
        if techSkills >= 2 {
          score := score + 10;
        } else {
          score := score + 8;
        }
      }
    }
  }

  /** Block 5 of the scorer: Risk tolerance (weight 8). */
  method RiskFactor(riskTolerance: int, b: BusinessModel, score0: nat, weight0: nat)
    returns (score: nat, totalWeight: nat)
    ensures score == score0 + PointsOf(RiskCredit(riskTolerance, b))
    ensures totalWeight == weight0 + WeightOf(RiskCredit(riskTolerance, b))
  {
    score, totalWeight := score0, weight0;
    if riskTolerance > 0 {
      totalWeight := totalWeight + 8;
      if b.category == "Finance" || b.scalability == "High" {
        if riskTolerance >= 4 {
          score := score + 8;
        } else if riskTolerance >= 3 {
          score := score + 5;
        } else {
          score := score + 2;
        }
      } else if b.difficulty == "Advanced" {
        if riskTolerance >= 3 {
          score := score + 8;
        } else if riskTolerance >= 2 {
          score := score + 6;
        } else {
          score := score + 3;
        }
      } else {
        if riskTolerance >= 2 {
          score := score + 8;
        } else {
          score := score + 6;
        }
      }
    }
  }

  /** Block 6 of the scorer: Communication preferences (weight 8). */
  method CommunicationFactor(communication: int, clientCalls: Option<AnswerValue>, b: BusinessModel, score0: nat, weight0: nat)
    returns (score: nat, totalWeight: nat)
    ensures score == score0 + PointsOf(CommunicationCredit(communication, clientCalls, b))
    ensures totalWeight == weight0 + WeightOf(CommunicationCredit(communication, clientCalls, b))
  {
    score, totalWeight := score0, weight0;
    if communication > 0 || Truthy(clientCalls) {
      totalWeight := totalWeight + 8;
      var requiresDirectCommunication := RequiresDirectCommunication(b);
      if requiresDirectCommunication {
        if communication >= 4 && clientCalls == Some(Str("Yes")) {
          score := score + 8;
        } else if communication >= 3 {
          score := score + 6;
        } else if clientCalls == Some(Str("Yes")) {
          score := score + 4;
        } else {
          score := score + 2;
        }
      } else {
        if communication <= 2 && clientCalls == Some(Str("No")) {
          score := score + 8;
        } else {
          score := score + 6;
        }
      }
    }
  }

  /** Block 7 of the scorer: Creativity (weight 7). */
  method CreativityFactor(creativity: int, b: BusinessModel, score0: nat, weight0: nat)
    returns (score: nat, totalWeight: nat)
    ensures score == score0 + PointsOf(CreativityCredit(creativity, b))
    ensures totalWeight == weight0 + WeightOf(CreativityCredit(creativity, b))
  {
    score, totalWeight := score0, weight0;
    if creativity > 0 {
      totalWeight := totalWeight + 7;
      if b.category == "Creative" {
        if creativity >= 4 {
          score := score + 7;
        } else if creativity >= 3 {
          score := score + 5;
        } else {
          score := score + 2;
        }
      } else {
        if creativity >= 3 {
          score := score + 7;
        } else {
          score := score + 5;
        }
      }
    }
  }

  /** Block 8 of the scorer: Social media interest (weight 6). */
  method SocialMediaFactor(socialMedia: int, b: BusinessModel, score0: nat, weight0: nat)
    returns (score: nat, totalWeight: nat)
    ensures score == score0 + PointsOf(SocialMediaCredit(socialMedia, b))
    ensures totalWeight == weight0 + WeightOf(SocialMediaCredit(socialMedia, b))
  {
    score, totalWeight := score0, weight0;
    if socialMedia > 0 {
      totalWeight := totalWeight + 6;
      if b.id == "social-media-management" || b.id == "content-creation-influencing" {
        if socialMedia >= 4 {
          score := score + 6;
        } else if socialMedia >= 3 {
          score := score + 4;
        } else {
          score := score + 1;
        }
      } else {
        if socialMedia >= 3 {
          score := score + 6;
        } else {
          score := score + 4;
        }
      }
    }
  }

  /** Block 9 of the scorer: Passive income preference (weight 6). */
  method PassiveIncomeFactor(passiveIncome: int, b: BusinessModel, score0: nat, weight0: nat)
    returns (score: nat, totalWeight: nat)
    ensures score == score0 + PointsOf(PassiveIncomeCredit(passiveIncome, b))
    ensures totalWeight == weight0 + WeightOf(PassiveIncomeCredit(passiveIncome, b))
  {
    score, totalWeight := score0, weight0;
    if passiveIncome > 0 {
      totalWeight := totalWeight + 6;
      var isPassiveIncomeModel := b.id == "affiliate-marketing" || b.id == "online-course"
        || b.id == "print-on-demand" || b.id == "digital-product-creation" || b.id == "investing-trading";
      if isPassiveIncomeModel {
        if passiveIncome >= 4 {
          score := score + 6;
        } else if passiveIncome >= 3 {
          score := score + 4;
        } else {
          score := score + 2;
        }
      } else {
        if passiveIncome <= 2 {
          score := score + 6;
        } else {
          score := score + 4;
        }
      }
    }
  }

  /** Block 10 of the scorer: Self-motivation (weight 5). */
  method SelfMotivationFactor(selfMotivation: int, score0: nat, weight0: nat)
    returns (score: nat, totalWeight: nat)
    ensures score == score0 + PointsOf(SelfMotivationCredit(selfMotivation))
    ensures totalWeight == weight0 + WeightOf(SelfMotivationCredit(selfMotivation))
  {
    score, totalWeight := score0, weight0;
    if selfMotivation > 0 {
      totalWeight := totalWeight + 5;
      if selfMotivation >= 4 {
        score := score + 5;
      } else if selfMotivation >= 3 {
        score := score + 4;
      } else {
        score := score + 2;
      }
    }
  }

  /** Block 11 of the scorer: Organization (weight 4). */
  method OrganizationFactor(organization: int, b: BusinessModel, score0: nat, weight0: nat)
    returns (score: nat, totalWeight: nat)
    ensures score == score0 + PointsOf(OrganizationCredit(organization, b))
    ensures totalWeight == weight0 + WeightOf(OrganizationCredit(organization, b))
  {
    score, totalWeight := score0, weight0;
    if organization > 0 {
      totalWeight := totalWeight + 4;
      if b.difficulty == "Advanced" || b.category == "Service" {
        if organization >= 4 {
          score := score + 4;
        } else if organization >= 3 {
          score := score + 3;
        } else {
          score := score + 1;
        }
      } else {
        if organization >= 3 {
          score := score + 4;
        } else {
          score := score + 3;
        }
      }
    }
  }

  /** The totals of an eleven-factor table, written out term by term. */
  lemma TotalsOfEleven(cs: seq<Credit>)
    requires |cs| == 11
    ensures TotalWeight(cs) == WeightOf(cs[0]) + WeightOf(cs[1]) + WeightOf(cs[2]) + WeightOf(cs[3])
                               + WeightOf(cs[4]) + WeightOf(cs[5]) + WeightOf(cs[6]) + WeightOf(cs[7])
                               + WeightOf(cs[8]) + WeightOf(cs[9]) + WeightOf(cs[10])
    ensures TotalPoints(cs) == PointsOf(cs[0]) + PointsOf(cs[1]) + PointsOf(cs[2]) + PointsOf(cs[3])
                               + PointsOf(cs[4]) + PointsOf(cs[5]) + PointsOf(cs[6]) + PointsOf(cs[7])
                               + PointsOf(cs[8]) + PointsOf(cs[9]) + PointsOf(cs[10])
  {
    assert cs[..0] == [];
    TotalsStep(cs, 0); TotalsStep(cs, 1); TotalsStep(cs, 2); TotalsStep(cs, 3);
    TotalsStep(cs, 4); TotalsStep(cs, 5); TotalsStep(cs, 6); TotalsStep(cs, 7);
    TotalsStep(cs, 8); TotalsStep(cs, 9); TotalsStep(cs, 10);
    assert cs[..11] == cs;
  }

  /** Taking one more factor of the table adds its weight and points to the totals. */
  lemma TotalsStep(cs: seq<Credit>, k: nat)
    requires k < |cs|
    ensures TotalWeight(cs[..k + 1]) == TotalWeight(cs[..k]) + WeightOf(cs[k])
    ensures TotalPoints(cs[..k + 1]) == TotalPoints(cs[..k]) + PointsOf(cs[k])
  {
    assert cs[..k + 1][..k] == cs[..k];
  }

  // ---------------------------------------------------------------------------------
  // Properties of the rubric

  /** A factor is either skipped or earns its full weight and between 1 and that weight. */
  predicate Within(c: Credit, w: nat) {
    c.Skipped? || (c.weight == w && 1 <= c.points <= w)
  }

  function Sum(ws: seq<nat>): nat {
    if ws == [] then 0 else Sum(ws[..|ws| - 1]) + ws[|ws| - 1]
  }

  /** Some question that one of the eleven factors reads is answered: a truthy single-choice
      answer, a positive scale answer, or a truthy client-calls answer. */
  predicate AnyScoredAnswer(answers: seq<QuizAnswer>) {
    Truthy(LastAnswer(answers, "time-commitment")) || Truthy(LastAnswer(answers, "investment"))
    || Truthy(LastAnswer(answers, "target-income")) || ScaleValue(LastAnswer(answers, "tech-skills")) > 0
    || ScaleValue(LastAnswer(answers, "risk-tolerance")) > 0
    || ScaleValue(LastAnswer(answers, "communication")) > 0 || Truthy(LastAnswer(answers, "client-calls"))
    || ScaleValue(LastAnswer(answers, "creativity")) > 0 || ScaleValue(LastAnswer(answers, "social-media")) > 0
    || ScaleValue(LastAnswer(answers, "passive-income")) > 0
    || ScaleValue(LastAnswer(answers, "self-motivation")) > 0
    || ScaleValue(LastAnswer(answers, "organization")) > 0
  }

  /** Every factor of the table keeps to its rubric weight, and the table has a factor
      that is not skipped exactly when some scored question is answered. */
  lemma CreditsWithin(answers: seq<QuizAnswer>, b: BusinessModel)
    ensures |Credits(answers, b)| == |Weights|
    ensures forall k :: 0 <= k < |Weights| ==> Within(Credits(answers, b)[k], Weights[k])
    ensures (exists k :: 0 <= k < |Weights| && Credits(answers, b)[k].Earned?) <==> AnyScoredAnswer(answers)
  {
    var cs := Credits(answers, b);
    ProfileCreditsWithin(answers, b);
    TraitCreditsWithin(answers, b);
    if forall k :: 0 <= k < |Weights| ==> cs[k].Skipped? {
      assert cs[0].Skipped? && cs[1].Skipped? && cs[2].Skipped? && cs[3].Skipped?;
      assert cs[4].Skipped? && cs[5].Skipped? && cs[6].Skipped? && cs[7].Skipped?;
      assert cs[8].Skipped? && cs[9].Skipped? && cs[10].Skipped?;
    }
  }

  lemma ProfileCreditsWithin(answers: seq<QuizAnswer>, b: BusinessModel)
    ensures forall k :: 0 <= k < 6 ==> Within(Credits(answers, b)[k], Weights[k])
  {
    TimeWithin(LastAnswer(answers, "time-commitment"), b);
    InvestmentWithin(LastAnswer(answers, "investment"), b);
    IncomeWithin(LastAnswer(answers, "target-income"), b);
    TechWithin(ScaleValue(LastAnswer(answers, "tech-skills")), b);
    RiskWithin(ScaleValue(LastAnswer(answers, "risk-tolerance")), b);
    CommunicationWithin(ScaleValue(LastAnswer(answers, "communication")), LastAnswer(answers, "client-calls"), b);
  }

  lemma TraitCreditsWithin(answers: seq<QuizAnswer>, b: BusinessModel)
    ensures forall k :: 6 <= k < 11 ==> Within(Credits(answers, b)[k], Weights[k])
  {
    TraitWithin(ScaleValue(LastAnswer(answers, "creativity")), b);
    TraitWithin(ScaleValue(LastAnswer(answers, "social-media")), b);
    TraitWithin(ScaleValue(LastAnswer(answers, "passive-income")), b);
    TraitWithin(ScaleValue(LastAnswer(answers, "self-motivation")), b);
    TraitWithin(ScaleValue(LastAnswer(answers, "organization")), b);
  }

  lemma TraitWithin(n: int, b: BusinessModel)
    ensures Within(CreativityCredit(n, b), 7) && Within(SocialMediaCredit(n, b), 6)
    ensures Within(PassiveIncomeCredit(n, b), 6) && Within(SelfMotivationCredit(n), 5)
    ensures Within(OrganizationCredit(n, b), 4)
  {
  }

  lemma TimeWithin(v: Option<AnswerValue>, b: BusinessModel)
    ensures Within(TimeCredit(v, b), 15)
  {
  }

  lemma InvestmentWithin(v: Option<AnswerValue>, b: BusinessModel)
    ensures Within(InvestmentCredit(v, b), 12)
  {
  }

  lemma IncomeWithin(v: Option<AnswerValue>, b: BusinessModel)
    ensures Within(IncomeCredit(v, b), 10)
  {
  }

  lemma TechWithin(n: int, b: BusinessModel)
    ensures Within(TechCredit(n, b), 10)
  {
  }

  lemma RiskWithin(n: int, b: BusinessModel)
    ensures Within(RiskCredit(n, b), 8)
  {
  }

  lemma CommunicationWithin(n: int, calls: Option<AnswerValue>, b: BusinessModel)
    ensures Within(CommunicationCredit(n, calls, b), 8)
  {
  }

  /** Totals of a table whose factors keep to their weights. */
  lemma {:induction false} TotalsWithin(cs: seq<Credit>, ws: seq<nat>)
    requires |cs| == |ws|
    requires forall k :: 0 <= k < |cs| ==> Within(cs[k], ws[k])
    ensures TotalPoints(cs) <= TotalWeight(cs) <= Sum(ws)
    ensures TotalWeight(cs) == 0 <==> forall k :: 0 <= k < |cs| ==> cs[k].Skipped?
    ensures TotalWeight(cs) > 0 ==> TotalPoints(cs) >= 1
  {
    if cs != [] {
      var n := |cs| - 1;
      var init, winit := cs[..n], ws[..n];
      assert forall k :: 0 <= k < n ==> init[k] == cs[k] && winit[k] == ws[k];
      TotalsWithin(init, winit);
      assert Within(cs[n], ws[n]);
      if forall k :: 0 <= k < |init| ==> init[k].Skipped? {
        assert TotalWeight(init) == 0;
      }
    }
  }

  /** `0 <= score <= totalWeight <= 91`, and `score >= 1` once any factor is active. */
  lemma ScoreBounds(answers: seq<QuizAnswer>, b: BusinessModel)
    ensures TotalPoints(Credits(answers, b)) <= TotalWeight(Credits(answers, b)) <= 91
    ensures TotalWeight(Credits(answers, b)) > 0 <==> AnyScoredAnswer(answers)
    ensures TotalWeight(Credits(answers, b)) > 0 ==> TotalPoints(Credits(answers, b)) >= 1
  {
    CreditsWithin(answers, b);
    TotalsWithin(Credits(answers, b), Weights);
    WeightsSum();
  }

  /** The eleven weights add up to 91. */
  lemma WeightsSum()
    ensures Sum(Weights) == 91
  {
    assert Weights[..0] == [];
    SumStep(Weights, 0); SumStep(Weights, 1); SumStep(Weights, 2); SumStep(Weights, 3);
    SumStep(Weights, 4); SumStep(Weights, 5); SumStep(Weights, 6); SumStep(Weights, 7);
    SumStep(Weights, 8); SumStep(Weights, 9); SumStep(Weights, 10);
    assert Weights[..11] == Weights;
  }

  lemma SumStep(ws: seq<nat>, k: nat)
    requires k < |ws|
    ensures Sum(ws[..k + 1]) == Sum(ws[..k]) + ws[k]
  {
    assert ws[..k + 1][..k] == ws[..k];
  }

  /** With `points <= weight` the rounded percentage is at most 100. */
  lemma RoundedAtMostHundred(points: nat, weight: nat)
    requires 0 < weight && points <= weight
    ensures RoundHalfUp(100 * points, weight) <= 100
  {
    var r := RoundHalfUp(100 * points, weight);
    assert (2 * r - 1) * weight <= 200 * weight by {
      MulMonotone(points, weight, 200);
    }
    MulCancel(2 * r - 1, 200, weight);
  }

  lemma MulMonotone(a: int, b: int, c: nat)
    requires a <= b
    ensures c * a <= c * b
  {
  }

  lemma MulCancel(a: int, b: int, c: int)
    requires c > 0 && a * c <= b * c
    ensures a <= b
  {
  }

  /** The score is exactly 0 when no scored question is answered (an empty list, or only
      questions such as `motivation` that no factor reads), not the 25 floor. */
  lemma ZeroIffNothingScored(answers: seq<QuizAnswer>, b: BusinessModel)
    ensures MatchPercentage(answers, b) == 0 <==> !AnyScoredAnswer(answers)
  {
    ScoreBounds(answers, b);
  }

  /** Once a scored question is answered the result lies in [25, 100], and the upper clamp
      never changes it. */
  lemma MatchRange(answers: seq<QuizAnswer>, b: BusinessModel)
    ensures AnyScoredAnswer(answers) ==> 25 <= MatchPercentage(answers, b) <= 100
    ensures AnyScoredAnswer(answers) ==>
              RoundHalfUp(100 * TotalPoints(Credits(answers, b)), TotalWeight(Credits(answers, b))) <= 100
  {
    ScoreBounds(answers, b);
    if AnyScoredAnswer(answers) {
      RoundedAtMostHundred(TotalPoints(Credits(answers, b)), TotalWeight(Credits(answers, b)));
    }
  }

  /** The empty list and a list holding only the unscored `motivation` question score 0. */
  lemma UnscoredAnswersGiveZero(b: BusinessModel, v: AnswerValue)
    ensures MatchPercentage([], b) == 0
    ensures MatchPercentage([QuizAnswer("motivation", v)], b) == 0
  {
    ZeroIffNothingScored([], b);
    ZeroIffNothingScored([QuizAnswer("motivation", v)], b);
  }

  /** Worked case: `{investment: '$0'}` alone against a model whose initial investment is
      "$0-$100" earns 12 of 12, so the match is 100. */
  lemma ZeroInvestmentExample()
    ensures Credits([QuizAnswer("investment", Str("$0"))], FreelanceWriting)[1] == Earned(12, 12)
    ensures MatchPercentage([QuizAnswer("investment", Str("$0"))], FreelanceWriting) == 100
  {
    var answers := [QuizAnswer("investment", Str("$0"))];
    ContainsAt("$0-$100", "$0", 0);
    var cs := Credits(answers, FreelanceWriting);
    assert cs == [Skipped, Earned(12, 12), Skipped, Skipped, Skipped, Skipped, Skipped, Skipped,
                  Skipped, Skipped, Skipped];
    TotalsOfEleven(cs);
  }

  /** A Beginner model gives the full 15 time credit to the two shortest time budgets. */
  lemma BeginnerShortHoursFullCredit(b: BusinessModel)
    requires b.difficulty == "Beginner"
    ensures TimeCredit(Some(Str("Less than 5 hours")), b) == Earned(15, 15)
    ensures TimeCredit(Some(Str("5–10 hours")), b) == Earned(15, 15)
  {
  }

  /** A scale answer that is missing, not a number, or 0 leaves its factor out: it adds
      nothing to the weight, so it cannot pull the percentage either way. */
  lemma UnnumberedScaleSkipped(v: Option<AnswerValue>, b: BusinessModel)
    requires v.None? || !v.value.Num? || v.value.n == 0
    ensures TechCredit(ScaleValue(v), b) == Skipped && RiskCredit(ScaleValue(v), b) == Skipped
    ensures CreativityCredit(ScaleValue(v), b) == Skipped && SocialMediaCredit(ScaleValue(v), b) == Skipped
    ensures PassiveIncomeCredit(ScaleValue(v), b) == Skipped && SelfMotivationCredit(ScaleValue(v)) == Skipped
    ensures OrganizationCredit(ScaleValue(v), b) == Skipped
    ensures CommunicationCredit(ScaleValue(v), None, b) == Skipped
  {
  }

  /** The score reads the answers only through the last-wins lookups. */
  lemma SameLookupsSameScore(s: seq<QuizAnswer>, t: seq<QuizAnswer>, b: BusinessModel)
    requires forall id :: LastAnswer(s, id) == LastAnswer(t, id)
    ensures Credits(s, b) == Credits(t, b)
    ensures MatchPercentage(s, b) == MatchPercentage(t, b)
  {
    var ids := ["time-commitment", "investment", "target-income", "tech-skills", "risk-tolerance",
                "communication", "client-calls", "creativity", "social-media", "passive-income",
                "self-motivation", "organization"];
    assert forall k :: 0 <= k < |ids| ==> LastAnswer(s, ids[k]) == LastAnswer(t, ids[k]);
  }

  /** Of two answers to one question only the later counts. */
  lemma EarlierDuplicateIgnored(answers: seq<QuizAnswer>, earlier: QuizAnswer, later: QuizAnswer,
                                b: BusinessModel)
    requires earlier.questionId == later.questionId
    ensures MatchPercentage(answers + [earlier, later], b) == MatchPercentage(answers + [later], b)
  {
    LastAnswerShadowed(answers, earlier, later);
    SameLookupsSameScore(answers + [earlier, later], answers + [later], b);
  }

  /** With no question answered twice, the order of the answers does not change the score. */
  lemma PermutedAnswersSameScore(s: seq<QuizAnswer>, t: seq<QuizAnswer>, b: BusinessModel)
    requires DistinctIds(s) && DistinctIds(t)
    requires multiset(s) == multiset(t)
    ensures MatchPercentage(s, b) == MatchPercentage(t, b)
  {
    forall id ensures LastAnswer(s, id) == LastAnswer(t, id) {
      PermutedLookupsAgree(s, t, id);
    }
    SameLookupsSameScore(s, t, b);
  }

  /** "Very High" scalability is not high risk: outside Finance it is scored exactly as a
      "Low" model would be. */
  lemma VeryHighIsNotHighRisk(risk: int, b: BusinessModel)
    requires b.category != "Finance" && b.scalability == "Very High"
    ensures !HighRisk(b)
    ensures RiskCredit(risk, b) == RiskCredit(risk, b.(scalability := "Low"))
  {
  }

  /** The e-commerce brand model (Advanced, "Very High") gives a risk answer of 2 the
      Advanced tier's 6 points, where a "High" model would give 2. */
  lemma VeryHighRiskExample()
    ensures RiskCredit(2, EcommerceBrandBuilding) == Earned(8, 6)
    ensures RiskCredit(2, EcommerceBrandBuilding.(scalability := "High")) == Earned(8, 2)
  {
  }

  // ---------------------------------------------------------------------------------
  // The user profile

  /** The profile shown beside the results: two answers passed through, four trait lines
      and two scale readings, each rendered as `n/5`. */
  datatype UserProfile = UserProfile(
    motivation: AnswerValue,
    timeCommitment: AnswerValue,
    personalityTraits: seq<string>,
    riskTolerance: string,
    techSkills: string)

  /** `answer as string || 'Not specified'`: a falsy answer becomes the placeholder; any
      other value, an array included, is passed through. */
  function OrNotSpecified(v: Option<AnswerValue>): AnswerValue {
    if Truthy(v) then v.value else Str("Not specified")
  }

  /** `${n}/5`. */
  function OutOfFive(n: int): string {
    IntToString(n) + "/5"
  }

  /** `${name}: ${n}/5`. */
  function TraitLine(name: string, n: int): string {
    name + ": " + OutOfFive(n)
  }

  const TraitNames: seq<string> := ["Organization", "Self-motivation", "Risk tolerance", "Creativity"]
  const TraitIds: seq<string> := ["organization", "self-motivation", "risk-tolerance", "creativity"]

  /** The profile for these answers, read with last-write-wins. */
  function ProfileOf(answers: seq<QuizAnswer>): UserProfile {
    UserProfile(
      OrNotSpecified(LastAnswer(answers, "motivation")),
      OrNotSpecified(LastAnswer(answers, "time-commitment")),
      [ TraitLine("Organization", ScaleValue(LastAnswer(answers, "organization"))),
        TraitLine("Self-motivation", ScaleValue(LastAnswer(answers, "self-motivation"))),
        TraitLine("Risk tolerance", ScaleValue(LastAnswer(answers, "risk-tolerance"))),
        TraitLine("Creativity", ScaleValue(LastAnswer(answers, "creativity"))) ],
      OutOfFive(ScaleValue(LastAnswer(answers, "risk-tolerance"))),
      OutOfFive(ScaleValue(LastAnswer(answers, "tech-skills"))))
  }

  /** `getUserProfile`: fills its own answer map, then reads the six questions from it. */
  method GetUserProfile(answers: seq<QuizAnswer>) returns (p: UserProfile)
    ensures p == ProfileOf(answers)
  {
    var answerMap := BuildAnswerMap(answers);
    var motivation := Get(answerMap, answers, "motivation");
    var timeCommitment := Get(answerMap, answers, "time-commitment");
    var organization := Get(answerMap, answers, "organization");
    var selfMotivation := Get(answerMap, answers, "self-motivation");
    var riskTolerance := Get(answerMap, answers, "risk-tolerance");
    var creativity := Get(answerMap, answers, "creativity");
    var techSkills := Get(answerMap, answers, "tech-skills");
    p := UserProfile(
      OrNotSpecified(motivation),
      OrNotSpecified(timeCommitment),
      [ TraitLine("Organization", ScaleValue(organization)),
        TraitLine("Self-motivation", ScaleValue(selfMotivation)),
        TraitLine("Risk tolerance", ScaleValue(riskTolerance)),
        TraitLine("Creativity", ScaleValue(creativity)) ],
      OutOfFive(ScaleValue(riskTolerance)),
      OutOfFive(ScaleValue(techSkills)));
  }

  /** The four trait lines always appear, in this order, each as `Name: n/5`, where `n` is
      the last numeric answer to that question and 0 when there is none. */
  lemma ProfileTraitsShape(answers: seq<QuizAnswer>)
    ensures |ProfileOf(answers).personalityTraits| == 4
    ensures forall k :: 0 <= k < 4 ==>
              ProfileOf(answers).personalityTraits[k]
              == TraitLine(TraitNames[k], ScaleValue(LastAnswer(answers, TraitIds[k])))
    ensures forall k :: 0 <= k < 4 ==>
              var line := ProfileOf(answers).personalityTraits[k];
              |line| >= |TraitNames[k]| + 5
              && line[..|TraitNames[k]| + 2] == TraitNames[k] + ": "
              && line[|line| - 2..] == "/5"
  {
    var traits := ProfileOf(answers).personalityTraits;
    forall k | 0 <= k < 4
      ensures traits[k] == TraitLine(TraitNames[k], ScaleValue(LastAnswer(answers, TraitIds[k])))
    {
    }
    forall k | 0 <= k < 4
      ensures |traits[k]| >= |TraitNames[k]| + 5
      ensures traits[k][..|TraitNames[k]| + 2] == TraitNames[k] + ": "
      ensures traits[k][|traits[k]| - 2..] == "/5"
    {
      TraitLineShape(TraitNames[k], ScaleValue(LastAnswer(answers, TraitIds[k])));
    }
  }

  lemma TraitLineShape(name: string, n: int)
    ensures |TraitLine(name, n)| >= |name| + 5
    ensures TraitLine(name, n)[..|name| + 2] == name + ": "
    ensures TraitLine(name, n)[|TraitLine(name, n)| - 2..] == "/5"
  {
    var digits := IntToString(n);
    assert TraitLine(name, n) == (name + ": ") + digits + "/5";
  }

  /** With no answers at all every field shows its placeholder. */
  lemma EmptyProfile()
    ensures ProfileOf([]) == UserProfile(Str("Not specified"), Str("Not specified"),
              ["Organization: 0/5", "Self-motivation: 0/5", "Risk tolerance: 0/5", "Creativity: 0/5"],
              "0/5", "0/5")
  {
    assert DigitChar(0) == '0';
    assert OutOfFive(0) == "0/5";
    assert forall id :: LastAnswer([], id) == None;
    assert TraitLine("Organization", 0) == "Organization: 0/5";
    assert TraitLine("Self-motivation", 0) == "Self-motivation: 0/5";
    assert TraitLine("Risk tolerance", 0) == "Risk tolerance: 0/5";
    assert TraitLine("Creativity", 0) == "Creativity: 0/5";
    assert OrNotSpecified(None) == Str("Not specified");
  }

  /** For every answer list: an unanswered or falsy `motivation` or `time-commitment` shows
      "Not specified" and a truthy one is shown as given; an unanswered scale question
      shows 0, both as a trait line and as a reading. */
  lemma ProfileDefaults(answers: seq<QuizAnswer>)
    ensures !Truthy(LastAnswer(answers, "motivation")) ==> ProfileOf(answers).motivation == Str("Not specified")
    ensures Truthy(LastAnswer(answers, "motivation")) ==>
              LastAnswer(answers, "motivation") == Some(ProfileOf(answers).motivation)
    ensures !Truthy(LastAnswer(answers, "time-commitment")) ==>
              ProfileOf(answers).timeCommitment == Str("Not specified")
    ensures Truthy(LastAnswer(answers, "time-commitment")) ==>
              LastAnswer(answers, "time-commitment") == Some(ProfileOf(answers).timeCommitment)
    ensures |ProfileOf(answers).personalityTraits| == 4
    ensures forall k :: 0 <= k < 4 && LastAnswer(answers, TraitIds[k]).None? ==>
              ProfileOf(answers).personalityTraits[k] == TraitNames[k] + ": 0/5"
    ensures LastAnswer(answers, "risk-tolerance").None? ==> ProfileOf(answers).riskTolerance == "0/5"
    ensures LastAnswer(answers, "tech-skills").None? ==> ProfileOf(answers).techSkills == "0/5"
  {
    assert DigitChar(0) == '0';
    assert OutOfFive(0) == "0/5";
    ProfileTraitsShape(answers);
    forall k | 0 <= k < 4 && LastAnswer(answers, TraitIds[k]).None?
      ensures ProfileOf(answers).personalityTraits[k] == TraitNames[k] + ": 0/5"
    {
      assert TraitLine(TraitNames[k], 0) == TraitNames[k] + ": " + "0/5";
    }
  }

  /** A scale answer of 1 to 5 is shown as that single digit out of five. */
  lemma AnsweredScaleShown(answers: seq<QuizAnswer>, n: int)
    requires 1 <= n <= 5 && LastAnswer(answers, "tech-skills") == Some(Num(n))
    ensures ProfileOf(answers).techSkills == [DigitChar(n)] + "/5"
  {
    assert IntToString(n) == NatToString(n) == [DigitChar(n)];
  }
}
