# Business-AI-Platform: the quiz, the scorer, the analyzer and the pages that use them

Business-AI-Platform is a React single-page application. A visitor answers a
multi-round quiz. The app then ranks a static catalog of business models against
those answers. Two independent pieces of logic read the answers:

- the **scorer** (`calculateBusinessMatch`) adds up eleven weighted factors and
  returns a match percentage, clamped to [25, 100], or 0 when nothing it reads was
  answered; `getUserProfile` renders a short profile from the same answers;
- the **analyzer** (`generateAIAnalysis`) starts from 50 and applies ten rules. Each
  rule moves the score and pushes canned sentences onto four lists. Fallback
  sentences fill empty lists, and the score is clamped to [20, 100].

Three pages use them:

- the **Results** page scores and analyses every model, sorts by percentage and
  shows the best four;
- the **Business detail** page replaces the analyzer's score with the scorer's
  percentage, and renders a model's long description as titled sections of bullets;
- the **Explorer** page filters the catalog by category and difficulty.

The **Quiz** page itself is a small state machine. It holds the current question,
the recorded answers, the answer being edited and the round-break flag.

The two readers of an answer list disagree on duplicates. The scorer fills a `Map`
in list order, so the last answer to a question wins. The analyzer uses `find`, so
the first answer wins. The model keeps both lookups (`Answers.LastAnswer`,
`Answers.FirstAnswer`). It proves that they agree on every list the quiz page can
produce, because the page never records a question twice.

Modules, one per file:

- `Wrappers`, `Strings` (the JavaScript string operations used: `includes`, `split`,
  `join`, `trim`, `replace` of a character, ASCII `toLowerCase`);
- `Answers` (answer values and the two lookups);
- `Catalog` (the business-model record);
- `QuizLogic` (scorer and profile) and `AiAnalysis` (analyzer, match colour and label);
- `StableSort` (the stable descending sort and `slice`);
- `Results`, `BusinessDetail`, `BusinessExplorer` and `Quiz` (the pages).

The scorer and the analyzer each appear twice:

- as a specification function: the table of eleven factor credits, and the fold of
  ten rule outcomes;
- as the source's step-by-step method, proved to compute exactly that function.

The quiz page is a class whose methods update its fields.

## Model

| member | source | states |
|---|---|---|
| Answers.BuildAnswerMap | src/utils/quizLogic.ts:9-12 | after filling the map in list order, looking up any question gives the value of the last answer to it, and nothing for an unanswered question |
| Answers.LastAnswerSpec | src/utils/quizLogic.ts:9-17 | the last-wins lookup finds nothing exactly when no answer is for the question, and otherwise returns an answer for it that no later answer for it follows |
| Answers.FirstAnswerSpec | src/utils/aiAnalysis.ts:13-16 | the `find` lookup finds nothing exactly when no answer is for the question, and otherwise returns an answer for it that no earlier answer for it precedes |
| Answers.FirstIsLastWhenDistinct | src/utils/aiAnalysis.ts:13-16 | on a list where no question is answered twice, the scorer's and the analyzer's lookups agree on every question |
| Answers.DuplicateLookupsDiffer | src/utils/quizLogic.ts:10-12 | with two answers to one question the scorer sees the second and the analyzer the first |
| Answers.LastAnswerMember | src/utils/quizLogic.ts:9-17 | without repeated questions, the last answer for `id` is `v` exactly when the pair (id, v) is in the list |
| Answers.PermutedLookupsAgree | src/utils/quizLogic.ts:9-17 | reordering a list without repeated questions changes no last-wins lookup |
| Answers.LastAnswerShadowed | src/utils/quizLogic.ts:10-12 | appending a second answer to a question hides the first from every last-wins lookup |
| Answers.FirstAnswerAppended | src/utils/aiAnalysis.ts:13-16 | appending an answer to a question already answered changes no first-wins lookup |
| QuizLogic.CalculateBusinessMatch | src/utils/quizLogic.ts:4-348 | the accumulating method returns exactly `MatchPercentage`: the eleven factor credits summed into points and weight, 0 when the weight is 0, otherwise the rounded percentage clamped to [25, 100] |
| QuizLogic.Get | src/utils/quizLogic.ts:15-17 | reading the filled map gives the last answer to the question |
| QuizLogic.TimeFactor | src/utils/quizLogic.ts:36-65 | the block adds the time-commitment credit to the running score and weight: weight 15 when the answer is truthy, points chosen by the model's difficulty |
| QuizLogic.InvestmentFactor | src/utils/quizLogic.ts:67-100 | the block adds the investment credit (weight 12, points chosen by which amounts the model's investment text contains) |
| QuizLogic.IncomeFactor | src/utils/quizLogic.ts:102-133 | the block adds the target-income credit (weight 10, points chosen by which amounts the model's income text contains) |
| QuizLogic.TechFactor | src/utils/quizLogic.ts:135-167 | the block adds the tech-skills credit (weight 10 for a positive scale answer, thresholds chosen by the lower-cased joined skills) |
| QuizLogic.RiskFactor | src/utils/quizLogic.ts:169-200 | the block adds the risk-tolerance credit (weight 8; high-risk tiers for Finance or scalability exactly "High", then Advanced, then the rest) |
| QuizLogic.CommunicationFactor | src/utils/quizLogic.ts:202-231 | the block adds the communication credit (weight 8 when the scale is positive or client-calls is truthy; tiers by whether a skill needs direct contact) |
| QuizLogic.CreativityFactor | src/utils/quizLogic.ts:233-253 | the block adds the creativity credit (weight 7, Creative category stricter) |
| QuizLogic.SocialMediaFactor | src/utils/quizLogic.ts:255-275 | the block adds the social-media credit (weight 6, two social-media model ids stricter) |
| QuizLogic.PassiveIncomeFactor | src/utils/quizLogic.ts:277-303 | the block adds the passive-income credit (weight 6, reversed tiers for the five passive-income model ids) |
| QuizLogic.SelfMotivationFactor | src/utils/quizLogic.ts:305-317 | the block adds the self-motivation credit (weight 5) |
| QuizLogic.OrganizationFactor | src/utils/quizLogic.ts:319-339 | the block adds the organization credit (weight 4, Advanced or Service stricter) |
| QuizLogic.RoundHalfUp | src/utils/quizLogic.ts:344 | the result is the integer nearest to num/den, halves rounded up, as `Math.round` does on a non-negative ratio |
| QuizLogic.CreditsWithin | src/utils/quizLogic.ts:36-339 | there are eleven credits; each is skipped or earns exactly its rubric weight (15, 12, 10, 10, 8, 8, 7, 6, 6, 5, 4) and between 1 and that weight in points; some credit is earned exactly when some question the scorer reads is answered |
| QuizLogic.TotalsWithin | src/utils/quizLogic.ts:36-342 | for credits within their weights: points ≤ weight ≤ sum of the weights; the weight is 0 exactly when every factor is skipped; a positive weight comes with at least one point |
| QuizLogic.ScoreBounds | src/utils/quizLogic.ts:341-347 | points ≤ total weight ≤ 91; the weight is positive exactly when a scored question is answered, and then at least one point was earned |
| QuizLogic.RoundedAtMostHundred | src/utils/quizLogic.ts:344 | rounding a ratio of at most 1, times 100, never exceeds 100 |
| QuizLogic.ZeroIffNothingScored | src/utils/quizLogic.ts:342 | the percentage is 0 exactly when no question the scorer reads is answered |
| QuizLogic.MatchRange | src/utils/quizLogic.ts:344-347 | with any scored answer the percentage lies in [25, 100], and the rounded value before clamping is already at most 100 (the `min(100, …)` never bites) |
| QuizLogic.UnscoredAnswersGiveZero | src/utils/quizLogic.ts:342 | no answers, or only a motivation answer (which the scorer never reads), give 0 |
| QuizLogic.ZeroInvestmentExample | src/utils/quizLogic.ts:73-75 | "$0" against the freelance-writing model earns the full 12 investment points, and alone gives 100% |
| QuizLogic.BeginnerShortHoursFullCredit | src/utils/quizLogic.ts:40-42 | under 5 hours or 5–10 hours earns the full 15 time points on every Beginner model |
| QuizLogic.UnnumberedScaleSkipped | src/utils/quizLogic.ts:29-32 | a missing, non-numeric or zero scale answer skips every scale factor (weight not added) |
| QuizLogic.SameLookupsSameScore | src/utils/quizLogic.ts:9-17 | two answer lists with the same last-wins lookups get the same credits and percentage |
| QuizLogic.EarlierDuplicateIgnored | src/utils/quizLogic.ts:10-12 | answering a question twice scores as if only the second answer had been given |
| QuizLogic.PermutedAnswersSameScore | src/utils/quizLogic.ts:9-17 | reordering a list without repeated questions does not change the percentage |
| QuizLogic.VeryHighIsNotHighRisk | src/utils/quizLogic.ts:174 | a non-Finance model with scalability "Very High" is not treated as high risk: its risk credit is that of a "Low" model |
| QuizLogic.VeryHighRiskExample | src/utils/quizLogic.ts:174-199 | risk tolerance 2 earns 6 of 8 on the "Very High" e-commerce model, but would earn 2 were it "High" |
| QuizLogic.GetUserProfile | src/utils/quizLogic.ts:350-377 | the method returns exactly the profile function `ProfileOf` of the answers |
| QuizLogic.ProfileTraitsShape | src/utils/quizLogic.ts:368-373 | the profile has four trait lines, each "Name: n/5" for the last scale answer (0 when absent), in the order organization, self-motivation, risk tolerance, creativity |
| QuizLogic.ProfileDefaults | src/utils/quizLogic.ts:366-375 | on every answer list: a falsy or missing motivation or time-commitment answer shows "Not specified" and a truthy one is shown as given; an unanswered organization, self-motivation, risk-tolerance or creativity question shows "Name: 0/5", and unanswered risk-tolerance and tech-skills readings show "0/5" |
| QuizLogic.EmptyProfile | src/utils/quizLogic.ts:365-376 | with no answers every text field is "Not specified" and every reading "0/5" |
| QuizLogic.AnsweredScaleShown | src/utils/quizLogic.ts:375 | a tech-skills answer n in 1..5 is shown as "n/5" |
| AiAnalysis.GenerateAIAnalysis | src/utils/aiAnalysis.ts:12-144 | the step-by-step method returns exactly `AnalysisOf`: the ten rule outcomes folded onto score 50 and empty lists, then fallbacks and the clamp |
| AiAnalysis.Complete | src/utils/aiAnalysis.ts:121-143 | the fallback-and-clamp tail produces `Finish` of the draft |
| AiAnalysis.TimeBlock | src/utils/aiAnalysis.ts:24-33 | the block applies the time rule to the draft (+15 and a strength, or −10 with a challenge and a recommendation) |
| AiAnalysis.InvestmentBlock | src/utils/aiAnalysis.ts:35-43 | the block applies the investment rule |
| AiAnalysis.TechBlock | src/utils/aiAnalysis.ts:45-54 | the block applies the tech rule |
| AiAnalysis.CommunicationBlock | src/utils/aiAnalysis.ts:56-66 | the block applies the communication rule |
| AiAnalysis.CreativityBlock | src/utils/aiAnalysis.ts:68-73 | the block applies the creativity rule |
| AiAnalysis.MotivationBlock | src/utils/aiAnalysis.ts:75-83 | the block applies the motivation rule |
| AiAnalysis.RiskBlock | src/utils/aiAnalysis.ts:85-93 | the block applies the risk rule |
| AiAnalysis.ConsistencyBlock | src/utils/aiAnalysis.ts:95-105 | the block applies the consistency rule |
| AiAnalysis.WorkStyleBlock | src/utils/aiAnalysis.ts:107-112 | the block applies the work-style rule |
| AiAnalysis.FirstIncomeBlock | src/utils/aiAnalysis.ts:114-119 | the block applies the first-income rule |
| AiAnalysis.Rules | src/utils/aiAnalysis.ts:24-119 | there are exactly ten rules, one per analysed topic |
| AiAnalysis.RulesFit | src/utils/aiAnalysis.ts:24-119 | each rule's reach: which list it may push to, that a challenge always comes with a recommendation, and the range of its score change (time −10..15, investment 0..10, tech −5..10, …) |
| AiAnalysis.DraftBounds | src/utils/aiAnalysis.ts:18-119 | after the ten rules: at most 6 strengths, 3 insights and 5 challenges, as many recommendations as challenges, and the raw score in [35, 140] |
| AiAnalysis.AnalysisBounds | src/utils/aiAnalysis.ts:121-143 | the returned score is min(100, raw) and lies in [35, 100] (the 20 floor is never reached); 1–6 strengths, 1–3 insights, at most 5 challenges; one recommendation per challenge, or the single fallback when there are none |
| AiAnalysis.DefaultScaleIsNeutral | src/utils/aiAnalysis.ts:46-99 | an unanswered scale question reads as 3, which fires none of the tech, communication, creativity, risk or consistency rules |
| AiAnalysis.EmptyAnswersAnalysis | src/utils/aiAnalysis.ts:121-143 | with no answers the analysis is score 50 with the three fallback sentences and no challenge |
| AiAnalysis.LaterDuplicateIgnored | src/utils/aiAnalysis.ts:13-16 | appending an answer to a question already answered leaves the analysis unchanged |
| AiAnalysis.MatchBands | src/utils/aiAnalysis.ts:146-157 | the label is Excellent / Good / Fair / Needs Work exactly on ≥ 80, [60, 80), [40, 60), < 40; the colour is green / yellow / red exactly on ≥ 80, [60, 80), < 60 |
| AiAnalysis.MatchBandsMonotone | src/utils/aiAnalysis.ts:146-157 | a higher score never gets a lower label or colour |
| StableSort.InsertPermutes | src/pages/Results.tsx:25 | inserting adds exactly one occurrence of the entry |
| StableSort.InsertSorted | src/pages/Results.tsx:25 | inserting into a list sorted highest first keeps it sorted |
| StableSort.InsertStable | src/pages/Results.tsx:25 | inserting places the entry after every entry of equal key |
| StableSort.SortDescPermutes | src/pages/Results.tsx:25 | the sort is a permutation of its input |
| StableSort.SortDescSorted | src/pages/Results.tsx:25 | the sort orders by key, highest first |
| StableSort.SortDescStable | src/pages/Results.tsx:25 | entries of equal key keep their input order (a stable sort) |
| StableSort.TakeSpec | src/pages/Results.tsx:25 | `slice(0, n)` keeps min(n, length) entries, a sub-multiset, with every equal-key group a prefix of its group in the input |
| StableSort.TakeSorted | src/pages/Results.tsx:25 | a prefix of a sorted list is sorted, and every entry left out, named by value or by its position past the cut, has a key no higher than the last one kept |
| StableSort.SubMultisetDistinct | src/pages/Results.tsx:21-25 | entries drawn from a list without repeats, no more often than they occur, have no repeats |
| Results.TopMatchesSpec | src/pages/Results.tsx:21-25 | the ranking has min(4, N) entries of the N scored models, sorted by percentage highest first, equal percentages in catalog order, and every model left out (by value, or by position past the cut of the sorted list) scores no higher than the last one shown |
| Results.ScoredEntries | src/pages/Results.tsx:21-24 | each scored entry carries a catalog model, its scorer percentage and its analyzer result |
| Results.TopMatchesEntries | src/pages/Results.tsx:21-25 | each entry shown is a catalog model with the scorer's percentage and the analyzer's own analysis |
| Results.RankingAgreesWithDetail | src/pages/Results.tsx:21-25 | opening the detail page of a ranked entry with the same non-empty stored answers shows that entry's percentage and analysis (src/pages/BusinessDetail.tsx:16-40); with an empty list the detail page shows no analysis |
| Results.TopMatchesDistinct | src/pages/Results.tsx:21-25 | a catalog without repeated models shows no model twice |
| Results.EmptyAnswersRanking | src/pages/Results.tsx:21-25 | with an empty answer list every entry shows 0% while its analysis says 50 |
| Results.ResultsColorBands | src/pages/Results.tsx:31-36 | the page's colour is green / blue / orange / grey exactly on ≥ 90, [80, 90), [70, 80), < 70, and never drops as the percentage rises |
| BusinessDetail.FindBusiness | src/pages/BusinessDetail.tsx:14 | the model found is the first in catalog order with the route's id; nothing is found exactly when no model has that id |
| BusinessDetail.ReconciledScore | src/pages/BusinessDetail.tsx:16-40 | with stored answers and a known model, the analysis shown is the analyzer's with the scorer's percentage as its score, and the label follows that percentage |
| BusinessDetail.AnalysisOnlyWithAnswers | src/pages/BusinessDetail.tsx:16-40 | an analysis is shown exactly when a non-empty answer list was stored; the page's percentage is 0 unless answers were stored and the model exists |
| BusinessDetail.OverviewShown | src/pages/BusinessDetail.tsx:199-209 | a model with a non-empty long description renders at least one block; one without renders none |
| BusinessDetail.DescriptionBlocks | src/pages/BusinessDetail.tsx:209-214 | one block per blank-line piece, the pieces rejoin to the description, and a block is a section exactly when its first line matches the header pattern |
| BusinessDetail.HeaderTitle | src/pages/BusinessDetail.tsx:215 | the title drops exactly one character, the first colon; when the final colon is the only one, the title is the line without it |
| BusinessDetail.SectionBody | src/pages/BusinessDetail.tsx:216-224 | re-joining and re-splitting the lines after the header renders the same items as those lines |
| BusinessDetail.BulletRebuilt | src/pages/BusinessDetail.tsx:225-240 | a bullet is labelled exactly when its content has a colon, and then bold part, colon and rest rebuild the content; otherwise the content is shown whole |
| BusinessDetail.BulletMarkRemoved | src/pages/BusinessDetail.tsx:225-226 | only the first bullet mark, the one that begins the trimmed line, is removed; leading white space and later marks are kept |
| BusinessDetail.BlankLineNothing | src/pages/BusinessDetail.tsx:245-249 | a section line renders nothing exactly when it is blank |
| BusinessDetail.SectionItemsCount | src/pages/BusinessDetail.tsx:224-250 | a section shows one item per non-blank line |
| Strings.JoinSplit | src/pages/BusinessDetail.tsx:209-216 | joining the pieces of a split with the separator gives back the string |
| Strings.SplitPiecesFree | src/pages/BusinessDetail.tsx:209-224 | no piece of a split contains the separator |
| Strings.SplitJoin | src/pages/BusinessDetail.tsx:216-224 | splitting a join at a one-character separator that no part contains gives back the parts |
| Strings.ContainsIff | src/utils/quizLogic.ts:74 | `includes` holds exactly when the substring occurs at some position |
| Strings.TrimStart | src/pages/BusinessDetail.tsx:225 | the result is a suffix that does not start with white space, and only white space was dropped |
| Strings.TrimEnd | src/pages/BusinessDetail.tsx:226 | the result is a prefix that does not end with white space, and only white space was dropped |
| Strings.TrimEmptyIff | src/pages/BusinessDetail.tsx:245 | a trimmed line is empty exactly when the line is all white space |
| Strings.RemoveFirst | src/pages/BusinessDetail.tsx:215 | `replace` of a character removes one character when it occurs, and changes nothing otherwise |
| Strings.RemoveFirstAt | src/pages/BusinessDetail.tsx:215 | the character removed is the first occurrence |
| Strings.ToLower | src/utils/quizLogic.ts:139 | lower-casing keeps the length and maps every character |
| Quiz.RoundOf | src/pages/Quiz.tsx:24-62 | the round is between 1 and 6 |
| Quiz.RoundCutoffs | src/pages/Quiz.tsx:24-62 | rounds 1–6 cover question numbers 1–8, 9–15, 16–25, 26–30, 31–35 and 36 on |
| Quiz.RoundMonotone | src/pages/Quiz.tsx:24-62 | later questions never belong to earlier rounds |
| Quiz.BreakMarksRoundStart | src/pages/Quiz.tsx:67-70 | a question is a break number exactly when it is the first question of rounds 2–6 |
| Quiz.LateRoundBreak | src/pages/Quiz.tsx:103-108 | as written, stepping from question 8 to 9 (into round 2) raises no break, and stepping from 9 to 10 (inside round 2) does |
| Quiz.CorrectedBreakIffNewRound | src/pages/Quiz.tsx:67-70 | testing the question arrived at raises the break exactly when the step enters a new round |
| Quiz.WithoutSpec | src/pages/Quiz.tsx:99 | the filter keeps exactly the answers to other questions, and leaves a list with none for the question unchanged |
| Quiz.WithoutDistinct | src/pages/Quiz.tsx:99 | filtering keeps a list free of repeated questions |
| Quiz.UpsertSpec | src/pages/Quiz.tsx:99-100 | after filter and push the new answer is last, no other entry is for its question, every other entry comes from the old list, every last-wins lookup is updated for that question only, and no question is repeated |
| Quiz.WithoutLookup | src/pages/Quiz.tsx:99 | filtering one question leaves the lookups of the others unchanged |
| Quiz.WithoutAppend | src/pages/Quiz.tsx:99 | the filter distributes over concatenation |
| Quiz.QuizListLookupsAgree | src/pages/Quiz.tsx:99-101 | on a list the page records, the scorer's and the analyzer's lookups agree |
| Quiz.RemoveAllSpec | src/pages/Quiz.tsx:416 | the option filter keeps exactly the other options and changes nothing when the option is absent |
| Quiz.ToggleSpec | src/pages/Quiz.tsx:413-418 | toggling flips the option's membership and no other; toggling an absent option twice restores the list |
| Quiz.RemoveAllAppend | src/pages/Quiz.tsx:416 | the option filter distributes over concatenation |
| Quiz.ToggleAnswers | src/pages/Quiz.tsx:180-185 | selecting a new option in a multi-select question makes it answered |
| Quiz.QuizPage.constructor | src/pages/Quiz.tsx:10-14 | the page starts on the first question with no answers, an empty edited answer, no break and nothing submitted |
| Quiz.QuizPage.ChangeAnswer | src/pages/Quiz.tsx:88-90 | only the edited answer changes |
| Quiz.QuizPage.ToggleOption | src/pages/Quiz.tsx:413-418 | the edited answer becomes the toggled list (from the empty list when it was not a list); nothing else changes |
| Quiz.QuizPage.LoadCurrentAnswer | src/pages/Quiz.tsx:73-86 | with no break showing, the edited answer becomes the first recorded answer to the current question, or an empty list or empty string by question type, so the question counts as answered (src/pages/Quiz.tsx:180-185) exactly when a recorded answer would; nothing else changes |
| Quiz.QuizPage.Next | src/pages/Quiz.tsx:92-112 | as written: records the edited answer by filter and push; before the last question it advances and raises the break when the question just answered is a break number; on the last question it submits the updated list; no question is ever repeated |
| Quiz.QuizPage.NextCorrected | src/pages/Quiz.tsx:92-112 | as `Next`, but the break is raised exactly when the step enters a new round |
| Quiz.QuizPage.RoundBreakNext | src/pages/Quiz.tsx:114-116 | clears the break flag and nothing else |
| Quiz.QuizPage.Previous | src/pages/Quiz.tsx:118-131 | nothing on the first question; otherwise steps back one and shows the break exactly when the question arrived at is the first or a break number |
| BusinessExplorer.IndexOf | src/pages/BusinessExplorer.tsx:8 | the position of the first occurrence |
| BusinessExplorer.DedupSpec | src/pages/BusinessExplorer.tsx:8 | `Array.from(new Set(xs))` has the same elements, each once, ordered by first appearance |
| BusinessExplorer.CategoriesSpec | src/pages/BusinessExplorer.tsx:8 | the choices are "All" and then every catalog category once, each the category of some model, in order of first appearance |
| BusinessExplorer.FilterSpec | src/pages/BusinessExplorer.tsx:11-15 | a model is shown exactly when it is in the catalog and passes both tests; the result keeps catalog order |
| BusinessExplorer.FilterAllAll | src/pages/BusinessExplorer.tsx:11-15 | with "All" for both choices the whole catalog is shown |
| BusinessExplorer.DifficultyBadges | src/pages/BusinessExplorer.tsx:17-24 | the three difficulty levels get three different badges and every other value the grey default (the card at lines 102-109 and the Results page at src/pages/Results.tsx:38-45 use the same mapping) |
| BusinessExplorer.VeryHighIsGrey | src/pages/BusinessExplorer.tsx:26-33 | "Very High" has no case and gets the grey default, unlike "High" |
| Answers.LastAnswer | src/utils/quizLogic.ts:9-17 | definition; properties in Answers.LastAnswerSpec |
| Answers.FirstAnswer | src/utils/aiAnalysis.ts:13-16 | definition; properties in Answers.FirstAnswerSpec |
| QuizLogic.TimeCredit | src/utils/quizLogic.ts:36-65 | definition; properties in QuizLogic.CreditsWithin, QuizLogic.BeginnerShortHoursFullCredit |
| QuizLogic.InvestmentCredit | src/utils/quizLogic.ts:67-100 | definition; properties in QuizLogic.CreditsWithin, QuizLogic.ZeroInvestmentExample |
| QuizLogic.IncomeCredit | src/utils/quizLogic.ts:102-133 | definition; properties in QuizLogic.CreditsWithin |
| QuizLogic.TechCredit | src/utils/quizLogic.ts:135-167 | definition; properties in QuizLogic.CreditsWithin, QuizLogic.UnnumberedScaleSkipped |
| QuizLogic.RiskCredit | src/utils/quizLogic.ts:169-200 | definition; properties in QuizLogic.CreditsWithin, QuizLogic.VeryHighIsNotHighRisk |
| QuizLogic.CommunicationCredit | src/utils/quizLogic.ts:202-231 | definition; properties in QuizLogic.CreditsWithin |
| QuizLogic.CreativityCredit | src/utils/quizLogic.ts:233-253 | definition; properties in QuizLogic.CreditsWithin |
| QuizLogic.SocialMediaCredit | src/utils/quizLogic.ts:255-275 | definition; properties in QuizLogic.CreditsWithin |
| QuizLogic.PassiveIncomeCredit | src/utils/quizLogic.ts:277-303 | definition; properties in QuizLogic.CreditsWithin |
| QuizLogic.SelfMotivationCredit | src/utils/quizLogic.ts:305-317 | definition; properties in QuizLogic.CreditsWithin |
| QuizLogic.OrganizationCredit | src/utils/quizLogic.ts:319-339 | definition; properties in QuizLogic.CreditsWithin |
| QuizLogic.MatchPercentage | src/utils/quizLogic.ts:4-348 | definition; properties in QuizLogic.CalculateBusinessMatch, QuizLogic.MatchRange, QuizLogic.ZeroIffNothingScored |
| QuizLogic.ProfileOf | src/utils/quizLogic.ts:350-377 | definition; properties in QuizLogic.GetUserProfile, QuizLogic.ProfileDefaults, QuizLogic.ProfileTraitsShape |
| AiAnalysis.TimeRule | src/utils/aiAnalysis.ts:24-33 | definition; properties in AiAnalysis.RulesFit |
| AiAnalysis.InvestmentRule | src/utils/aiAnalysis.ts:35-43 | definition; properties in AiAnalysis.RulesFit |
| AiAnalysis.TechRule | src/utils/aiAnalysis.ts:45-54 | definition; properties in AiAnalysis.RulesFit, AiAnalysis.DefaultScaleIsNeutral |
| AiAnalysis.CommunicationRule | src/utils/aiAnalysis.ts:56-66 | definition; properties in AiAnalysis.RulesFit, AiAnalysis.DefaultScaleIsNeutral |
| AiAnalysis.CreativityRule | src/utils/aiAnalysis.ts:68-73 | definition; properties in AiAnalysis.RulesFit, AiAnalysis.DefaultScaleIsNeutral |
| AiAnalysis.MotivationRule | src/utils/aiAnalysis.ts:75-83 | definition; properties in AiAnalysis.RulesFit |
| AiAnalysis.RiskRule | src/utils/aiAnalysis.ts:85-93 | definition; properties in AiAnalysis.RulesFit, AiAnalysis.DefaultScaleIsNeutral |
| AiAnalysis.ConsistencyRule | src/utils/aiAnalysis.ts:95-105 | definition; properties in AiAnalysis.RulesFit, AiAnalysis.DefaultScaleIsNeutral |
| AiAnalysis.WorkStyleRule | src/utils/aiAnalysis.ts:107-112 | definition; properties in AiAnalysis.RulesFit |
| AiAnalysis.FirstIncomeRule | src/utils/aiAnalysis.ts:114-119 | definition; properties in AiAnalysis.RulesFit |
| AiAnalysis.AnalysisOf | src/utils/aiAnalysis.ts:12-144 | definition; properties in AiAnalysis.GenerateAIAnalysis, AiAnalysis.AnalysisBounds, AiAnalysis.EmptyAnswersAnalysis |
| AiAnalysis.GetMatchColor | src/utils/aiAnalysis.ts:146-150 | definition; properties in AiAnalysis.MatchBands, AiAnalysis.MatchBandsMonotone |
| AiAnalysis.GetMatchLabel | src/utils/aiAnalysis.ts:152-157 | definition; properties in AiAnalysis.MatchBands, AiAnalysis.MatchBandsMonotone |
| Results.TopMatches | src/pages/Results.tsx:21-25 | definition; properties in Results.TopMatchesSpec, Results.TopMatchesEntries |
| Results.GetResultsColor | src/pages/Results.tsx:31-36 | definition; properties in Results.ResultsColorBands |
| BusinessDetail.LoadDetail | src/pages/BusinessDetail.tsx:16-30 | definition; properties in BusinessDetail.AnalysisOnlyWithAnswers, BusinessDetail.ReconciledScore |
| BusinessDetail.DisplayedAnalysis | src/pages/BusinessDetail.tsx:32-40 | definition; properties in BusinessDetail.AnalysisOnlyWithAnswers, BusinessDetail.ReconciledScore |
| BusinessDetail.ShownDescription | src/pages/BusinessDetail.tsx:199-209 | definition; properties in BusinessDetail.OverviewShown |
| BusinessDetail.RenderDescription | src/pages/BusinessDetail.tsx:209-268 | definition; properties in BusinessDetail.DescriptionBlocks |
| BusinessDetail.RenderBlock | src/pages/BusinessDetail.tsx:210-267 | definition; properties in BusinessDetail.DescriptionBlocks, BusinessDetail.HeaderTitle |
| BusinessDetail.IsHeader | src/pages/BusinessDetail.tsx:214 | definition; properties in BusinessDetail.DescriptionBlocks |
| BusinessDetail.SectionItems | src/pages/BusinessDetail.tsx:224-250 | definition; properties in BusinessDetail.SectionBody, BusinessDetail.SectionItemsCount |
| BusinessDetail.BulletItem | src/pages/BusinessDetail.tsx:225-240 | definition; properties in BusinessDetail.BulletRebuilt, BusinessDetail.BulletMarkRemoved |
| Quiz.ShouldShowRoundBreak | src/pages/Quiz.tsx:67-70 | definition; properties in Quiz.BreakMarksRoundStart, Quiz.LateRoundBreak |
| Quiz.Upsert | src/pages/Quiz.tsx:99-100 | definition; properties in Quiz.UpsertSpec |
| Quiz.Toggled | src/pages/Quiz.tsx:413-418 | definition; properties in Quiz.ToggleSpec |
| Quiz.QuizPage.IsAnswered | src/pages/Quiz.tsx:180-185 | definition; properties in Quiz.ToggleAnswers, Quiz.QuizPage.LoadCurrentAnswer |
| BusinessExplorer.Categories | src/pages/BusinessExplorer.tsx:8 | definition; properties in BusinessExplorer.CategoriesSpec |
| BusinessExplorer.FilterModels | src/pages/BusinessExplorer.tsx:11-15 | definition; properties in BusinessExplorer.FilterSpec, BusinessExplorer.FilterAllAll |
| BusinessExplorer.GetDifficultyColor | src/pages/BusinessExplorer.tsx:17-24 | definition; properties in BusinessExplorer.DifficultyBadges |
| BusinessExplorer.GetScalabilityColor | src/pages/BusinessExplorer.tsx:26-33 | definition; properties in BusinessExplorer.VeryHighIsGrey |

## Left out

- Rendering, animation, confetti (random), navigation, the progress bar's fraction,
  the scale-label table of the quiz (src/pages/Quiz.tsx:270-350), the success modal
  and the `isSubmitting` flag with its 1.5-second delay: they are presentation, timers
  and randomness.
- `localStorage` and `JSON.parse`: the stored answer list is a parameter
  (`TopMatches`, `LoadDetail`). The submitted list is the `submitted` field of
  `QuizPage`. When nothing is stored, the Results page shows no ranking; the model
  does not state that case.
- The quiz questions and the catalog data are parameters. Two catalog records are
  transcribed for concrete lemmas; their long descriptions are not transcribed.
- `answerIncludes` in the scorer is never called and is not modelled.
- Numbers are integers. The scorer's `Math.round((score / totalWeight) * 100)` is
  modelled in exact arithmetic, so a ratio that floating point lands just below a
  half may round differently there.
- `toLowerCase` is modelled for ASCII letters only.
- AiAnalysis.GenerateAIAnalysis (and every analyzer member) requires `WellTyped`:
  - its text questions hold no number, because `?.includes` on a number throws;
  - its scale questions hold a number or a falsy value, because JavaScript's coercion
    of a non-empty string or a list in `>=` and `<=` is not modelled.
  In the source the quiz page's inputs put numbers in scale questions and strings or
  lists in the others. Quiz.QuizPage.ChangeAnswer accepts any value, so the model
  does not prove that the list `Next` submits is `WellTyped`; the question kinds
  are a parameter and are not tied to the analyzer's question ids.
- BusinessDetail.DisplayedAnalysis takes the model as a value. The page also calls
  the analyzer when no model has the route's id, which throws there; that path is
  not modelled.
- The Results page's sort is modelled as a stable insertion sort on values. It states
  the order and stability that ECMAScript 2019 guarantees for `Array.prototype.sort`,
  not the engine's algorithm.

## Findings

| source | as written | input that shows it | evidently intended | confidence | as-written member | corrected member |
|---|---|---|---|---|---|---|
| src/pages/Quiz.tsx:103-108 | `handleNext` tests `shouldShowRoundBreak()` with the index from before the step, so the break screen for a round appears one question late | at index 7 (question 8), Next moves to question 9, the first of round 2, with no break; at index 8 it moves to question 10 and shows the round-2 break there | raise the break when the question arrived at starts a new round, as the comment and `handlePrevious` (which tests the destination) show | not executed | Quiz.QuizPage.Next, Quiz.LateRoundBreak | Quiz.QuizPage.NextCorrected, Quiz.CorrectedBreakIffNewRound |
