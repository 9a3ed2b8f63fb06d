# Home diagnosis engine, modelled in Dafny

This project models the diagnosis engine of the home-diagnosis app
(`home-diagnosis/src/lib/diagnose.ts`, with the enumerations and records of
`home-diagnosis/src/lib/types.ts`). The engine takes one or two partners'
answers to a Likert questionnaire, the household's requirements and optional
budget answers, and produces one diagnosis result. It does this in these steps:

- It scores seven axes (COST, PERF, DESIGN, LIFE, FLEX; INVOLVE, ASSURE) from
  0 to 100.
- It averages the two partners' scores.
- It picks one of ten value types from the ranking of the five core averages.
- It computes a floor-area range in tsubo and a size type S, M or L.
- It lists the axes where the partners disagree, graded 'check' or 'risk'.
- It recommends up to three of eight builder categories through threshold rules.
- It estimates the loan and total budget from the monthly payment.

The model follows the code's own form:

- The loops of `calculateAxisScores`, `calculateGaps` and the coreAvg loop of
  `diagnose` are methods with loop invariants. Each is proved against a
  specification function.
- `calculateTsubo` has no loop. It widens its range step by step, and each step
  is a method proved equal to its addition function (`Tsubo.BaseRange`,
  `StudyExtra`, `HobbyExtra`, `GuestExtra`, `StorageExtra`).
- The `scores` and `reasons` records of `recommendBuilderTypes`, together with
  their `addScore` closure, are a class whose method updates its fields.
- The pure helpers are functions: `likertToRaw`, `determineValueType`,
  `singleAxisType`, `classifySizeType` and `calculateBudgetEstimate`.

Every JavaScript sort in the engine is a stable sort by descending key. It is
modelled once (`Ranking.SortDesc`), and its stability is stated as a ranking
with ties broken by enumeration order.

Modules:

| file | module | models |
|---|---|---|
| types.dfy | Types | axes, modes, type ids, result records |
| wrappers.dfy | Wrappers | Option and Result |
| rounding.dfy | Rounding | Math.round of a rational |
| ranking.dfy | Ranking | the stable descending sort |
| axis_scores.dfy | AxisScoring | likertToRaw, calculateAxisScores |
| value_type.dfy | ValueTyping | determineValueType, singleAxisType |
| tsubo.dfy | Tsubo | calculateTsubo, classifySizeType |
| gaps.dfy | Gaps | calculateGaps |
| builders.dfy | Recommending | BUILDER_TYPES, BUILDER_REASONS, recommendBuilderTypes |
| budget.dfy | Budget | calculateBudgetEstimate |
| diagnose.dfy | Diagnosing | diagnose |

The diagnosis data that the engine imports from its JSON file is a parameter,
`Diagnosing.Catalog`. It holds:

- the question bank;
- the alignment questions per axis;
- the value-type and size-type texts;
- the next steps and the disclaimer.

`Math.pow` is also a parameter. The engine looks value types and size types up
by id and asserts that they are found. The model returns a `DiagnosisError` when
the catalog lacks the entry.

Where the code and the written design disagree, the model follows the code:

- An answer outside 1..5 counts as raw 0; it is not rejected.
- Partner B's answers are averaged in whenever they are supplied, whatever the
  mode. Gaps need both couple mode and B's answers.
- The error order: a missing size type is reported before a missing value type.
  The value-type lookup happens first, but the display name reads the size
  label first, and that is where the engine throws.

## Model

| member | source | states |
|---|---|---|
| Types.Ord | home-diagnosis/src/lib/types.ts:6-8 | each axis sits at one position of ALL_AXES, the core axes exactly at the first five |
| Types.AxesEnumerated | home-diagnosis/src/lib/types.ts:6-8 | ALL_AXES lists every axis once, CORE_AXES exactly the core ones, in increasing position |
| Rounding.RoundDiv | home-diagnosis/src/lib/diagnose.ts:59 | Math.round(p/q) for q > 0; what it computes is stated by RoundDivBounds, RoundDivUnique and RoundDivExact |
| Rounding.RoundDivBounds | home-diagnosis/src/lib/diagnose.ts:59 | Math.round(p/q) is an integer within half of p/q, the half rounded up |
| Rounding.RoundDivUnique | home-diagnosis/src/lib/diagnose.ts:59 | only one integer meets that bound, so the rounding is determined |
| Rounding.RoundDivExact | home-diagnosis/src/lib/diagnose.ts:59 | a whole quotient is left unchanged |
| Rounding.Mean | home-diagnosis/src/lib/diagnose.ts:350 | the rounded mean of two scores lies between them |
| Ranking.SortDesc | home-diagnosis/src/lib/diagnose.ts:166 | the sort returns a permutation of its input with keys non-increasing |
| Ranking.SortDescRanked | home-diagnosis/src/lib/diagnose.ts:68-69 | stability: input in enumeration order comes out by descending key, ties in enumeration order |
| Ranking.SameElements | home-diagnosis/src/lib/diagnose.ts:166 | every element of a permutation is found in the original |
| AxisScoring.LikertToRaw | home-diagnosis/src/lib/diagnose.ts:24-27 | 1..5 map to -2..2 (v - 3); any other value counts as 0 |
| AxisScoring.Effective | home-diagnosis/src/lib/diagnose.ts:43-46 | a reverse-keyed answer v counts as 3 - v, a plain one as v - 3, always within -2..2 |
| AxisScoring.AxisSum | home-diagnosis/src/lib/diagnose.ts:40-49 | an axis's raw sum over n answered questions lies within -2n..2n |
| AxisScoring.AxisScore | home-diagnosis/src/lib/diagnose.ts:51-61 | 50 for an unanswered axis, otherwise the rounded percentage, always within 0..100 |
| AxisScoring.ScoreOf | home-diagnosis/src/lib/diagnose.ts:30-63 | the score of an axis for an answer sheet lies within 0..100 |
| AxisScoring.CalculateAxisScores | home-diagnosis/src/lib/diagnose.ts:30-63 | every axis gets a score, equal to ScoreOf and within 0..100 |
| AxisScoring.ZeroTotals | home-diagnosis/src/lib/diagnose.ts:35-38 | every axis starts with sum 0 and count 0 |
| AxisScoring.TallyAnswers | home-diagnosis/src/lib/diagnose.ts:40-49 | after the loop each axis holds the sum and count of its answered questions; unanswered ones are skipped |
| AxisScoring.ScoresFromTotals | home-diagnosis/src/lib/diagnose.ts:51-61 | the last loop writes each axis's ScoreOf |
| AxisScoring.NeutralAnswersScoreFifty | home-diagnosis/src/lib/diagnose.ts:30-63 | answers of 3 throughout give exactly 50, whatever the reverse flags |
| AxisScoring.MaximalAnswersScoreHundred | home-diagnosis/src/lib/diagnose.ts:43-60 | 5 on plain and 1 on reverse questions give exactly 100 |
| AxisScoring.MinimalAnswersScoreZero | home-diagnosis/src/lib/diagnose.ts:43-60 | 1 on plain and 5 on reverse questions give exactly 0 |
| AxisScoring.UnansweredAxisScoresFifty | home-diagnosis/src/lib/diagnose.ts:54-55 | an axis nobody answered gets the default 50 |
| AxisScoring.AxisScoreExact | home-diagnosis/src/lib/diagnose.ts:59 | a percentage that is already whole is the score |
| ValueTyping.RankCoreAxes | home-diagnosis/src/lib/diagnose.ts:68-69 | the five core axes with their averages, each once, by descending average, ties in CORE_AXES order |
| ValueTyping.RankingHead | home-diagnosis/src/lib/diagnose.ts:71-72 | the first two ranked entries are the top two core axes |
| ValueTyping.TopTwoUnique | home-diagnosis/src/lib/diagnose.ts:71-72 | only one pair of axes can be first and second |
| ValueTyping.SingleAxisType | home-diagnosis/src/lib/diagnose.ts:92-101 | a core axis maps to one of V1..V5 |
| ValueTyping.SingleAxisTypeInjective | home-diagnosis/src/lib/diagnose.ts:92-101 | different axes get different single-axis types |
| ValueTyping.DetermineValueType | home-diagnosis/src/lib/diagnose.ts:66-90 | the value type of the core averages; its contract is BalanceTypeRule, PairTypeRules and SingleTypeRule, which together decide every outcome |
| ValueTyping.BalanceTypeRule | home-diagnosis/src/lib/diagnose.ts:74-75 | V10 if and only if every core average is below 65 |
| ValueTyping.PairTypeRules | home-diagnosis/src/lib/diagnose.ts:77-83 | V6, V7, V8 and V9 each if and only if its pair is on top, the first at 70 or more and the second at 65 or more |
| ValueTyping.PairOnTopAtHead | home-diagnosis/src/lib/diagnose.ts:71-78 | a pair is on top exactly when it heads the ranking with those scores |
| ValueTyping.SingleTypeRule | home-diagnosis/src/lib/diagnose.ts:84-89 | axis a's single type if and only if a ranks first at 65 or more and no typed pair is on top |
| ValueTyping.TopAtSixtyFiveIsSingle | home-diagnosis/src/lib/diagnose.ts:74-89 | a top average of exactly 65 gives the top axis's own type, not V10 |
| Tsubo.BaseRange | home-diagnosis/src/lib/diagnose.ts:108-113 | the base range is at least 6 wide, low within 26..42, high within 32..52 |
| Tsubo.Range | home-diagnosis/src/lib/diagnose.ts:104-139 | the base range plus the four additions; stated by TsuboBounds and the per-answer lemmas below |
| Tsubo.TsuboSpec | home-diagnosis/src/lib/diagnose.ts:104-142 | the range with its rounded midpoint; stated by TsuboBounds and met by CalculateTsubo |
| Tsubo.CalculateTsubo | home-diagnosis/src/lib/diagnose.ts:104-142 | the range is the base range plus the four additions, with its rounded midpoint |
| Tsubo.BaseStep | home-diagnosis/src/lib/diagnose.ts:108-113 | the if-chain on household size yields the base range |
| Tsubo.StudyStep | home-diagnosis/src/lib/diagnose.ts:116-119 | the study answer adds its addition to the range |
| Tsubo.HobbyStep | home-diagnosis/src/lib/diagnose.ts:121-128 | the hobby answers add their addition to the range |
| Tsubo.GuestStep | home-diagnosis/src/lib/diagnose.ts:130-133 | the guest answers add their addition to the range |
| Tsubo.StorageStep | home-diagnosis/src/lib/diagnose.ts:135-138 | the storage answer adds its addition to the range |
| Tsubo.TsuboBounds | home-diagnosis/src/lib/diagnose.ts:104-142 | the range is at least 6 wide, its midpoint strictly inside, low within 26..50, high within 32..68 |
| Tsubo.PrivateStudyAdds | home-diagnosis/src/lib/diagnose.ts:116-119 | a private study adds exactly 2 and 4 |
| Tsubo.HobbyRoomAdds | home-diagnosis/src/lib/diagnose.ts:121-128 | much gear adds 1 and 2, or 3 and 6 with a dedicated room |
| Tsubo.GuestRoomOnlyWeekly | home-diagnosis/src/lib/diagnose.ts:130-133 | unless guests stay weekly, every R07a answer (yes, no, unanswered) gives the same range |
| Tsubo.WeeklyGuestRoomAdds | home-diagnosis/src/lib/diagnose.ts:130-133 | weekly guests with a guest room add exactly 2 and 4 over R07a no or unanswered |
| Tsubo.StorageMaxAdds | home-diagnosis/src/lib/diagnose.ts:135-138 | maximal storage adds exactly 1 and 2 |
| Tsubo.SameOtherExtras | home-diagnosis/src/lib/diagnose.ts:104-138 | the guest answers leave the base range and the other additions alone |
| Tsubo.MorePeopleNeverSmaller | home-diagnosis/src/lib/diagnose.ts:105-113 | more adults never shrink either end of the range |
| Tsubo.BaseRangeMonotone | home-diagnosis/src/lib/diagnose.ts:108-113 | a larger household never gets a smaller base range |
| Tsubo.ClassifySizeType | home-diagnosis/src/lib/diagnose.ts:145-149 | S if and only if mid < 31, M if and only if 31 <= mid < 39, L if and only if mid >= 39 |
| Tsubo.SizeTypeMonotone | home-diagnosis/src/lib/diagnose.ts:145-149 | a larger midpoint never gives a smaller size type |
| Gaps.Abs | home-diagnosis/src/lib/diagnose.ts:155 | Math.abs returns the difference or its negation, never negative |
| Gaps.Level | home-diagnosis/src/lib/diagnose.ts:157-159 | ok if and only if gap < 12, check if and only if 12..19, risk if and only if 20 or more |
| Gaps.Pushed | home-diagnosis/src/lib/diagnose.ts:154-165 | the entries pushed for the first n axes; stated by PushedReports, PushedInOrder and PushedCovers |
| Gaps.GapsSpec | home-diagnosis/src/lib/diagnose.ts:152-167 | the sorted gap list; stated by GapsReported, GapsComplete, GapsRanked and GapsSymmetric |
| Gaps.CalculateGaps | home-diagnosis/src/lib/diagnose.ts:152-167 | the loop pushes the non-ok axes, and the stable sort yields GapsSpec |
| Gaps.GapsReported | home-diagnosis/src/lib/diagnose.ts:153-164 | every entry carries its axis's difference of 12 or more, the right level and the axis's alignment questions (none if the catalog has none) |
| Gaps.GapsComplete | home-diagnosis/src/lib/diagnose.ts:153-164 | an axis is listed if and only if the two scores differ by 12 or more |
| Gaps.GapsRanked | home-diagnosis/src/lib/diagnose.ts:166 | largest gap first, ties in ALL_AXES order, no axis twice |
| Gaps.GapsSymmetric | home-diagnosis/src/lib/diagnose.ts:152-167 | swapping the partners gives the same list |
| Gaps.IdenticalScoresNoGaps | home-diagnosis/src/lib/diagnose.ts:152-167 | identical score sheets give an empty list |
| Recommending.Label | home-diagnosis/src/lib/diagnose.ts:170-179 | BUILDER_TYPES: the label of each category, read by SelectRanked |
| Recommending.ReasonText | home-diagnosis/src/lib/diagnose.ts:181-216 | BUILDER_REASONS: the reason of a category for a rule key, if any; stated by RuleAwardsFacts and ReasonTextsNonEmpty |
| Recommending.RuleAwards | home-diagnosis/src/lib/diagnose.ts:235-279 | the addScore calls of each rule in source order; stated by RuleAwardsFacts |
| Recommending.Fires | home-diagnosis/src/lib/diagnose.ts:235-279 | the thresholds: 70 or more for the high rules, 40 or less for the low ones; used by AwardsFacts and NoRuleNoRecommendation |
| Recommending.Awards | home-diagnosis/src/lib/diagnose.ts:235-279 | all addScore calls of one run; stated by AwardsFacts and met by ApplyRules |
| Recommending.Join | home-diagnosis/src/lib/diagnose.ts:296 | the reasons joined with a separator; stated by JoinNonEmpty and RecommendationReasons |
| Recommending.ReasonLine | home-diagnosis/src/lib/diagnose.ts:296 | the joined reasons or the fallback text; RecommendationReasons shows the fallback never appears |
| Recommending.AwardStep | home-diagnosis/src/lib/diagnose.ts:229-233 | one addScore call changes only its own category's points and reasons |
| Recommending.Tally.constructor | home-diagnosis/src/lib/diagnose.ts:222-227 | every category starts at 0 points with no reasons |
| Recommending.Tally.AddScore | home-diagnosis/src/lib/diagnose.ts:229-233 | adds the points to one category, appends its reason for the key if it exists and is new, leaves every other category alone |
| Recommending.ApplyRule | home-diagnosis/src/lib/diagnose.ts:235-279 | a firing rule makes its addScore calls in source order; otherwise nothing |
| Recommending.ApplyRules | home-diagnosis/src/lib/diagnose.ts:235-279 | the nine rules run in source order |
| Recommending.RecommendBuilderTypes | home-diagnosis/src/lib/diagnose.ts:218-298 | the result is that of the tallied awards: filtered, ranked, first three, labelled |
| Recommending.TallyMaps | home-diagnosis/src/lib/diagnose.ts:222-233 | a tally's records hold the points and reasons its awards give |
| Recommending.RuleAwardsFacts | home-diagnosis/src/lib/diagnose.ts:181-279 | every rule awards something, every award is positive and has a reason in BUILDER_REASONS |
| Recommending.ReasonTextsNonEmpty | home-diagnosis/src/lib/diagnose.ts:181-216 | no reason text is empty |
| Recommending.AwardsFacts | home-diagnosis/src/lib/diagnose.ts:235-279 | the awards are well formed, and there are none if and only if no rule fires |
| Recommending.PointsFacts | home-diagnosis/src/lib/diagnose.ts:229-233 | points are never negative, and positive if and only if the category was awarded something |
| Recommending.ReasonsFacts | home-diagnosis/src/lib/diagnose.ts:229-233 | collected reasons are non-empty and distinct, and an awarded category has at least one |
| Recommending.FirstThree | home-diagnosis/src/lib/diagnose.ts:291 | at most three elements, a prefix, the whole list when it is that short |
| Recommending.JoinNonEmpty | home-diagnosis/src/lib/diagnose.ts:296 | a join starting with a non-empty text is non-empty |
| Recommending.SelectHead | home-diagnosis/src/lib/diagnose.ts:281-297 | the selection is the records of the first three sorted candidates |
| Recommending.SelectRanked | home-diagnosis/src/lib/diagnose.ts:281-297 | at most three categories, each with points and its label, ranked by points, ties in B1..B8 order |
| Recommending.SelectTopThree | home-diagnosis/src/lib/diagnose.ts:281-291 | a category with points left out comes after three chosen ones |
| Recommending.SelectEmpty | home-diagnosis/src/lib/diagnose.ts:281-291 | nothing is selected if and only if no category has points |
| Recommending.RecommendationsRanked | home-diagnosis/src/lib/diagnose.ts:281-297 | the same for the tallied awards |
| Recommending.TopThreeChosen | home-diagnosis/src/lib/diagnose.ts:281-291 | no category with points is passed over for one ranked below it |
| Recommending.RecommendationReasons | home-diagnosis/src/lib/diagnose.ts:293-297 | each reason line is the category's distinct reasons joined with ／, never the fallback text |
| Recommending.RecommendFromEmpty | home-diagnosis/src/lib/diagnose.ts:281-297 | well-formed awards recommend nothing if and only if there are none |
| Recommending.NoRuleNoRecommendation | home-diagnosis/src/lib/diagnose.ts:218-298 | the list is empty if and only if no threshold rule fires |
| Budget.LoanMax | home-diagnosis/src/lib/diagnose.ts:309-319 | the rounded annuity loan, payment times months at rate 0; stated by InterestFreeLoan, with `Math.pow` a parameter (see Left out) |
| Budget.Round | home-diagnosis/src/lib/diagnose.ts:319 | Math.round on a number: the integer within half of it, the half rounded up |
| Budget.RoundUnique | home-diagnosis/src/lib/diagnose.ts:319 | that integer is the only one |
| Budget.CalculateBudgetEstimate | home-diagnosis/src/lib/diagnose.ts:301-329 | none if and only if B01 is missing or not positive; otherwise the loan from the defaulted answers, the total = loan + down payment, and the answers used |
| Budget.InterestFreeLoan | home-diagnosis/src/lib/diagnose.ts:312-314 | at rate 0 the loan is payment times months, rounded, whatever the power function |
| Budget.Defaults | home-diagnosis/src/lib/diagnose.ts:304-307 | missing answers mean 35 years, 1.5 %, no down payment |
| Budget.DownPaymentAddsToTotal | home-diagnosis/src/lib/diagnose.ts:320 | the down payment raises the total by its amount and leaves the loan alone |
| Diagnosing.Find | home-diagnosis/src/lib/diagnose.ts:368 | none if and only if no entry has the id; otherwise the first entry with it |
| Diagnosing.FindFrom | home-diagnosis/src/lib/diagnose.ts:373 | the same from a given index on |
| Diagnosing.ScoresOf | home-diagnosis/src/lib/diagnose.ts:344 | a partner's scores cover every axis, each being ScoreOf |
| Diagnosing.PartnerScores | home-diagnosis/src/lib/diagnose.ts:345 | B has scores if and only if B answered |
| Diagnosing.CoreAverage | home-diagnosis/src/lib/diagnose.ts:348-355 | the core averages cover the core axes and nothing else |
| Diagnosing.SupportAverage | home-diagnosis/src/lib/diagnose.ts:357-364 | both support axes are averaged |
| Diagnosing.Diagnose | home-diagnosis/src/lib/diagnose.ts:340-445 | fails with the size type when the catalog lacks it, then with the value type; otherwise every part of the result is the one stated for it |
| Diagnosing.Report | home-diagnosis/src/lib/diagnose.ts:375-444 | the result assembled from the catalog entries and the computed parts |
| Diagnosing.Findings | home-diagnosis/src/lib/diagnose.ts:378-427 | the top three, the gap list, the builders, the estimate and the scores shown |
| Diagnosing.PartnersScores | home-diagnosis/src/lib/diagnose.ts:343-345 | A's scores, and B's only when B answered |
| Diagnosing.SameScores | home-diagnosis/src/lib/diagnose.ts:344 | two complete score sheets that agree on every axis are equal |
| Diagnosing.AverageCore | home-diagnosis/src/lib/diagnose.ts:347-355 | the loop yields the rounded mean on every core axis, or A's score without B |
| Diagnosing.AverageSupport | home-diagnosis/src/lib/diagnose.ts:357-364 | the support record is SupportAverage |
| Diagnosing.CoupleGaps | home-diagnosis/src/lib/diagnose.ts:384-387 | gaps only for a couple with B's answers, dropped when empty (line 435) |
| Diagnosing.ShowScores | home-diagnosis/src/lib/diagnose.ts:416-427 | solo shows A's scores as solo, couple as personA and personB |
| Diagnosing.CompleteCatalogSucceeds | home-diagnosis/src/lib/diagnose.ts:367-373 | with every type in the catalog both lookups succeed, so the diagnosis never fails |
| Diagnosing.TopThreeCoreAxes | home-diagnosis/src/lib/diagnose.ts:378-382 | exactly three core axes with their averages, ranked, the first two the top two, each ahead of both axes left out |
| Diagnosing.GapsOnlyForCouples | home-diagnosis/src/lib/diagnose.ts:384-387 | a gap list appears if and only if couple mode, B answered and some axis differs by 12 or more, and it is calculateGaps's list |
| Diagnosing.ReportedGapsIff | home-diagnosis/src/lib/diagnose.ts:435 | the same for the gating of the result field |
| Diagnosing.GapsExist | home-diagnosis/src/lib/diagnose.ts:152-167 | the list is non-empty if and only if some axis differs by 12 or more |
| Diagnosing.OpposedPartnersAtRisk | home-diagnosis/src/lib/diagnose.ts:384-387 | partners 20 or more apart on an axis get a risk entry with that axis's alignment questions |
| Diagnosing.SoloScoresUnaveraged | home-diagnosis/src/lib/diagnose.ts:348-364 | without B the averages are A's own scores, and a solo result shows only solo |
| Diagnosing.AveragesRoundHalfUp | home-diagnosis/src/lib/diagnose.ts:350 | with B every average is the partners' mean, the half rounded up |
| Diagnosing.MeanSymmetric | home-diagnosis/src/lib/diagnose.ts:348-364 | the averages do not depend on which partner is A |
| Diagnosing.NeutralAnswersBalanceType | home-diagnosis/src/lib/diagnose.ts:340-367 | neutral answers give core averages of 50 and the balance type V10 |
| Diagnosing.EstimateOnlyWithPayment | home-diagnosis/src/lib/diagnose.ts:413-414 | an estimate appears if and only if budget answers with a positive monthly payment were given |
| Diagnosing.RecommendationsIffRuleFires | home-diagnosis/src/lib/diagnose.ts:404-405 | the builder list is empty if and only if no threshold rule fires on the averages |
| Diagnosing.SwapPartners | home-diagnosis/src/lib/diagnose.ts:340-445 | swapping A and B changes neither the averages, the value type, the top three, the gap list nor the builders |

## Left out

- UI pages, `store.ts` (persisted answers), `main.js`, `next.config.ts`: outside the engine.
- The getters of `diagnosisData.ts` and the JSON data: the catalog is the parameter `Diagnosing.Catalog`. Its `weight`, `text`, `policyBullets` and `builderSelectionPoints` fields are never read by the engine.
- `formatYen` and other display formatting: presentation only.
- Budget.LoanMax: `Math.pow` is an uninterpreted parameter. Budget answers are exact reals, not IEEE doubles, so float rounding of the annuity factor and of the loan is not modelled, and neither is a NaN answer.
- AxisScoring.AxisScore: the percentage ((sum + 2n) / 4n) * 100 is rounded exactly as a rational. A double could land just below or above an exact .5 and round differently.
- Diagnosing.Diagnose: the engine throws a TypeError on a missing catalog entry. The model returns `DiagnosisError` instead, with no exception object.
- Recommending.Tally.AddScore: the reason is looked up by rule key, so a key that is not one of the nine rules cannot be expressed. The engine passes only those nine.
- Requirement answers are taken as given numbers and strings. Nothing validates them, as in the engine.
