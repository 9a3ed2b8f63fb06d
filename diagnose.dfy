/** `diagnose` (home-diagnosis/src/lib/diagnose.ts): one or two partners' value answers,
    the household requirements and the optional budget answers, put through every step
    of the engine into one diagnosis result. The catalog (question bank, alignment
    questions, value-type and size-type texts, next steps, disclaimer) is a parameter. */
module Diagnosing {
  import opened Types
  import opened Wrappers
  import opened Rounding
  import opened Ranking
  import opened AxisScoring
  import opened ValueTyping
  import opened Tsubo
  import opened Gaps
  import opened Recommending
  import opened Budget

  datatype ValueTypeData = ValueTypeData(id: ValueType, name: string, summary: string,
    layoutPatterns: seq<string>, budgetRules: seq<string>, pitfalls: seq<string>)

  datatype SizeTypeData = SizeTypeData(id: SizeType, labelText: string, layoutOverrides: seq<string>, warnings: seq<string>)

  /** The diagnosis data the engine reads. */
  datatype Catalog = Catalog(questions: seq<Question>, alignment: Alignment,
    valueTypes: seq<ValueTypeData>, sizeTypes: seq<SizeTypeData>,
    commonNextSteps: seq<string>, disclaimerText: seq<string>)

  /** DiagnosisInput: partner B's answers and the budget answers are optional. */
  datatype DiagnosisInput = DiagnosisInput(mode: Mode, valueAnswersA: Answers, valueAnswersB: Option<Answers>,
    requirements: Requirements, budget: Option<BudgetAnswers>)

  datatype ValueTypeSummary = ValueTypeSummary(id: ValueType, name: string, summary: string)

  datatype SizeTypeSummary = SizeTypeSummary(id: SizeType, labelText: string)

  /** `axisScores`: the averages, and the raw scores as `solo` or as `personA`/`personB`. */
  datatype AxisScoresOut = AxisScoresOut(avg: Scores, supportAvg: Scores,
    solo: Option<Scores>, personA: Option<Scores>, personB: Option<Scores>)

  datatype DiagnosisResult = DiagnosisResult(
    mode: Mode,
    valueType: ValueTypeSummary,
    sizeType: SizeTypeSummary,
    typeDisplayName: string,
    axisScores: AxisScoresOut,
    top3CoreAxes: seq<AxisEntry>,
    gaps: Option<seq<GapInfo>>,
    tsubo: TsuboRange,
    layoutAdvice: seq<string>,
    budgetAdvice: seq<string>,
    pitfalls: seq<string>,
    builderTypeRecommendations: seq<BuilderRecommendation>,
    nextSteps: seq<string>,
    disclaimer: seq<string>,
    budgetEstimate: Option<BudgetEstimate>)

  /** The engine looks the two types up by id and asserts the entry is there; a missing
      entry throws when the display name reads its label (size type) or its name (value
      type). */
  datatype DiagnosisError = MissingSizeType(sizeType: SizeType) | MissingValueType(valueType: ValueType)

  const NameSeparator: string := "・"

  function ValueTypeKey(v: ValueTypeData): ValueType {
    v.id
  }

  function SizeTypeKey(s: SizeTypeData): SizeType {
    s.id
  }

  /** Array.prototype.find by key: the first element with the key, if any. */
  function Find<T, K(==)>(s: seq<T>, key: T -> K, id: K): (r: Option<T>)
    ensures r.None? <==> forall k :: 0 <= k < |s| ==> key(s[k]) != id
    ensures r.Some? ==>
      exists k :: 0 <= k < |s| && s[k] == r.value && key(s[k]) == id && forall j :: 0 <= j < k ==> key(s[j]) != id
  {
    FindFrom(s, key, id, 0)
  }

  /** The search from index i on. */
  function FindFrom<T, K(==)>(s: seq<T>, key: T -> K, id: K, i: nat): (r: Option<T>)
    requires i <= |s|
    ensures r.None? <==> forall k :: i <= k < |s| ==> key(s[k]) != id
    ensures r.Some? ==>
      exists k :: i <= k < |s| && s[k] == r.value && key(s[k]) == id && forall j :: i <= j < k ==> key(s[j]) != id
    decreases |s| - i
  {
    if i == |s| then None
    else if key(s[i]) == id then Some(s[i])
    else FindFrom(s, key, id, i + 1)
  }

  /** The scores calculateAxisScores gives an answer sheet. */
  function ScoresOf(qs: seq<Question>, answers: Answers): (s: Scores)
    ensures Complete(s) && forall a: Axis :: s[a] == ScoreOf(qs, answers, a)
  {
    AxesEnumerated();
    map a | a in AllAxes :: ScoreOf(qs, answers, a)
  }

  function PartnerScores(qs: seq<Question>, answers: Option<Answers>): (s: Option<Scores>)
    ensures s.Some? <==> answers.Some?
    ensures s.Some? ==> Complete(s.value)
  {
    if answers.Some? then Some(ScoresOf(qs, answers.value)) else None
  }

  /** One axis of the averages: the rounded mean of the two partners, or A's score alone. */
  function AxisAverage(sA: Scores, sB: Option<Scores>, a: Axis): int
    requires Complete(sA) && (sB.Some? ==> Complete(sB.value))
  {
    if sB.Some? then Mean(sA[a], sB.value[a]) else sA[a]
  }

  /** `coreAvg`: an average for each core axis and for nothing else. */
  function CoreAverage(sA: Scores, sB: Option<Scores>): (avg: Scores)
    requires Complete(sA) && (sB.Some? ==> Complete(sB.value))
    ensures CoreComplete(avg) && forall a :: a in avg ==> a.IsCore()
  {
    AxesEnumerated();
    map a | a in CoreAxes :: AxisAverage(sA, sB, a)
  }

  /** `supportAvg`: the averages of INVOLVE and ASSURE. */
  function SupportAverage(sA: Scores, sB: Option<Scores>): (avg: Scores)
    requires Complete(sA) && (sB.Some? ==> Complete(sB.value))
    ensures SupportComplete(avg)
  {
    map[INVOLVE := AxisAverage(sA, sB, INVOLVE), ASSURE := AxisAverage(sA, sB, ASSURE)]
  }

  /** The gap list of the result: only for a couple with both answer sheets, and left
      out when empty. */
  function ReportedGaps(mode: Mode, sA: Scores, sB: Option<Scores>, al: Alignment): Option<seq<GapInfo>>
    requires Complete(sA) && (sB.Some? ==> Complete(sB.value))
  {
    if mode == Couple && sB.Some? then
      var gaps := GapsSpec(sA, sB.value, al);
      if |gaps| > 0 then Some(gaps) else None
    else None
  }

  function ScoresOut(mode: Mode, coreAvg: Scores, supportAvg: Scores, sA: Scores, sB: Option<Scores>): AxisScoresOut {
    if mode == Solo then AxisScoresOut(coreAvg, supportAvg, Some(sA), None, None)
    else AxisScoresOut(coreAvg, supportAvg, None, Some(sA), sB)
  }

  function EstimateOf(budget: Option<BudgetAnswers>, pow: (real, real) -> real): Option<BudgetEstimate> {
    if budget.Some? then CalculateBudgetEstimate(budget.value, pow) else None
  }

  function ScoresA(input: DiagnosisInput, catalog: Catalog): (s: Scores)
    ensures Complete(s)
  {
    ScoresOf(catalog.questions, input.valueAnswersA)
  }

  function ScoresB(input: DiagnosisInput, catalog: Catalog): (s: Option<Scores>)
    ensures s.Some? ==> Complete(s.value)
  {
    PartnerScores(catalog.questions, input.valueAnswersB)
  }

  /** The value type the averages decide. */
  function ValueTypeOf(input: DiagnosisInput, catalog: Catalog): ValueType {
    DetermineValueType(CoreAverage(ScoresA(input, catalog), ScoresB(input, catalog)))
  }

  /** The size type the requirements decide. */
  function SizeTypeOf(input: DiagnosisInput): SizeType {
    ClassifySizeType(TsuboSpec(input.requirements).mid)
  }

  /** The parts of a diagnosis result, each stated on its own so that a property can be
      proved from the parts it needs. */

  /** The averages are those of the partners' scores. */
  predicate AveragesOf(input: DiagnosisInput, catalog: Catalog, res: DiagnosisResult) {
    var sA, sB := ScoresA(input, catalog), ScoresB(input, catalog);
    res.axisScores.avg == CoreAverage(sA, sB) && res.axisScores.supportAvg == SupportAverage(sA, sB)
  }

  /** The raw scores are shown as `solo`, or as `personA` and `personB`. */
  predicate PartnersShown(input: DiagnosisInput, catalog: Catalog, res: DiagnosisResult) {
    var out := ScoresOut(input.mode, res.axisScores.avg, res.axisScores.supportAvg, ScoresA(input, catalog), ScoresB(input, catalog));
    res.mode == input.mode && res.axisScores == out
  }

  /** The value type is decided by the core averages, the size type by the tsubo range. */
  predicate TypesOf(input: DiagnosisInput, res: DiagnosisResult) {
    CoreComplete(res.axisScores.avg) && res.valueType.id == DetermineValueType(res.axisScores.avg) &&
    res.tsubo == TsuboSpec(input.requirements) && res.sizeType.id == ClassifySizeType(res.tsubo.mid)
  }

  /** `top3CoreAxes` is the head of the ranking of the core averages. */
  predicate TopThreeOf(res: DiagnosisResult) {
    CoreComplete(res.axisScores.avg) && res.top3CoreAxes == RankCoreAxes(res.axisScores.avg)[..3]
  }

  predicate GapsOf(input: DiagnosisInput, catalog: Catalog, res: DiagnosisResult) {
    res.gaps == ReportedGaps(input.mode, ScoresA(input, catalog), ScoresB(input, catalog), catalog.alignment)
  }

  predicate BuildersOf(res: DiagnosisResult) {
    CoreComplete(res.axisScores.avg) && SupportComplete(res.axisScores.supportAvg) &&
    res.builderTypeRecommendations == RecommendSpec(res.axisScores.avg, res.axisScores.supportAvg)
  }

  predicate EstimateFor(input: DiagnosisInput, pow: (real, real) -> real, res: DiagnosisResult) {
    res.budgetEstimate == EstimateOf(input.budget, pow)
  }

  /** The texts come from the catalog entries v and t of the two types; the display name
      joins the size label and the value-type name. */
  predicate FromEntries(catalog: Catalog, res: DiagnosisResult, v: ValueTypeData, t: SizeTypeData) {
    v.id == res.valueType.id && t.id == res.sizeType.id &&
    res.valueType.name == v.name && res.valueType.summary == v.summary && res.sizeType.labelText == t.labelText &&
    res.typeDisplayName == t.labelText + NameSeparator + v.name &&
    res.layoutAdvice == v.layoutPatterns + t.layoutOverrides && res.budgetAdvice == v.budgetRules &&
    res.pitfalls == v.pitfalls + t.warnings &&
    res.nextSteps == catalog.commonNextSteps && res.disclaimer == catalog.disclaimerText
  }

  /** Everything a successful diagnosis of the input is, with v and t the catalog entries
      of its value type and its size type. */
  predicate Diagnosed(input: DiagnosisInput, catalog: Catalog, pow: (real, real) -> real, res: DiagnosisResult,
                      v: ValueTypeData, t: SizeTypeData) {
    AveragesOf(input, catalog, res) && PartnersShown(input, catalog, res) && TypesOf(input, res) &&
    TopThreeOf(res) && GapsOf(input, catalog, res) && BuildersOf(res) && EstimateFor(input, pow, res) &&
    FromEntries(catalog, res, v, t)
  }

  /** diagnose: stops at a type the catalog lacks, the size type first; otherwise every
      part of the result is the one stated for it above. */
  method Diagnose(input: DiagnosisInput, catalog: Catalog, pow: (real, real) -> real)
    returns (res: Result<DiagnosisResult, DiagnosisError>)
    ensures var vt, st := ValueTypeOf(input, catalog), SizeTypeOf(input);
      var v, t := Find(catalog.valueTypes, ValueTypeKey, vt), Find(catalog.sizeTypes, SizeTypeKey, st);
      (t.None? ==> res == Failure(MissingSizeType(st))) &&
      (t.Some? && v.None? ==> res == Failure(MissingValueType(vt))) &&
      (t.Some? && v.Some? ==> res.Success? && Diagnosed(input, catalog, pow, res.value, v.value, t.value))
  {
    var scoresA, scoresB := PartnersScores(input, catalog);
    var coreAvg := AverageCore(scoresA, scoresB);
    var supportAvg := AverageSupport(scoresA, scoresB);
    var valueTypeId := DetermineValueType(coreAvg);
    var vtData := Find(catalog.valueTypes, ValueTypeKey, valueTypeId);
    var tsubo := CalculateTsubo(input.requirements);
    var sizeTypeId := ClassifySizeType(tsubo.mid);
    var stData := Find(catalog.sizeTypes, SizeTypeKey, sizeTypeId);
    if stData.None? {
      return Failure(MissingSizeType(sizeTypeId));
    }
    if vtData.None? {
      return Failure(MissingValueType(valueTypeId));
    }
    var result := Report(input, catalog, pow, scoresA, scoresB, coreAvg, supportAvg, tsubo, vtData.value, stData.value);
    res := Success(result);
  }

  /** Steps 5 to 15 of diagnose: the result for the scores, averages and range already computed, with
      the catalog entries v and t of the two types. */
  method Report(input: DiagnosisInput, catalog: Catalog, pow: (real, real) -> real,
                scoresA: Scores, scoresB: Option<Scores>, coreAvg: Scores, supportAvg: Scores, tsubo: TsuboRange,
                v: ValueTypeData, t: SizeTypeData)
    returns (result: DiagnosisResult)
    requires scoresA == ScoresA(input, catalog) && scoresB == ScoresB(input, catalog)
    requires coreAvg == CoreAverage(scoresA, scoresB) && supportAvg == SupportAverage(scoresA, scoresB)
    requires tsubo == TsuboSpec(input.requirements)
    requires v.id == DetermineValueType(coreAvg) && t.id == ClassifySizeType(tsubo.mid)
    ensures Diagnosed(input, catalog, pow, result, v, t)
  {
    var typeDisplayName := t.labelText + NameSeparator + v.name;
    var top3, gaps, builderTypeRecommendations, budgetEstimate, axisScoresOut :=
      Findings(input.mode, input.budget, pow, catalog.alignment, scoresA, scoresB, coreAvg, supportAvg);
    var layoutAdvice := v.layoutPatterns + t.layoutOverrides;
    var budgetAdvice := v.budgetRules;
    var pitfalls := v.pitfalls + t.warnings;
    result := DiagnosisResult(
      input.mode,
      ValueTypeSummary(v.id, v.name, v.summary),
      SizeTypeSummary(t.id, t.labelText),
      typeDisplayName,
      axisScoresOut,
      top3,
      gaps,
      tsubo,
      layoutAdvice,
      budgetAdvice,
      pitfalls,
      builderTypeRecommendations,
      catalog.commonNextSteps,
      catalog.disclaimerText,
      budgetEstimate);
  }

  /** Steps 6, 7, 11, 14 and 15 of diagnose: the top three, the gaps, the builders, the
      budget estimate and the scores shown. */
  method Findings(mode: Mode, budget: Option<BudgetAnswers>, pow: (real, real) -> real, al: Alignment,
                  scoresA: Scores, scoresB: Option<Scores>, coreAvg: Scores, supportAvg: Scores)
    returns (top3: seq<AxisEntry>, gaps: Option<seq<GapInfo>>, builders: seq<BuilderRecommendation>,
             budgetEstimate: Option<BudgetEstimate>, axisScoresOut: AxisScoresOut)
    requires Complete(scoresA) && (scoresB.Some? ==> Complete(scoresB.value))
    requires CoreComplete(coreAvg) && SupportComplete(supportAvg)
    ensures top3 == RankCoreAxes(coreAvg)[..3] && gaps == ReportedGaps(mode, scoresA, scoresB, al)
    ensures builders == RecommendSpec(coreAvg, supportAvg) && budgetEstimate == EstimateOf(budget, pow)
    ensures axisScoresOut == ScoresOut(mode, coreAvg, supportAvg, scoresA, scoresB)
  {
    top3 := RankCoreAxes(coreAvg)[..3];
    gaps := CoupleGaps(mode, scoresA, scoresB, al);
    builders := RecommendBuilderTypes(coreAvg, supportAvg);
    budgetEstimate := if budget.Some? then CalculateBudgetEstimate(budget.value, pow) else None;
    axisScoresOut := ShowScores(mode, coreAvg, supportAvg, scoresA, scoresB);
  }

  /** Step 2 of diagnose for the support axes: a record of the two averages. */
  method AverageSupport(scoresA: Scores, scoresB: Option<Scores>) returns (supportAvg: Scores)
    requires Complete(scoresA) && (scoresB.Some? ==> Complete(scoresB.value))
    ensures supportAvg == SupportAverage(scoresA, scoresB)
  {
    supportAvg := map[
      INVOLVE := if scoresB.Some? then Mean(scoresA[INVOLVE], scoresB.value[INVOLVE]) else scoresA[INVOLVE],
      ASSURE := if scoresB.Some? then Mean(scoresA[ASSURE], scoresB.value[ASSURE]) else scoresA[ASSURE]];
  }

  /** Step 7 of diagnose, with the result's rule that an empty gap list is left out. */
  method CoupleGaps(mode: Mode, scoresA: Scores, scoresB: Option<Scores>, al: Alignment) returns (gaps: Option<seq<GapInfo>>)
    requires Complete(scoresA) && (scoresB.Some? ==> Complete(scoresB.value))
    ensures gaps == ReportedGaps(mode, scoresA, scoresB, al)
  {
    var calculated: Option<seq<GapInfo>> := None;
    if mode == Couple && scoresB.Some? {
      var g := CalculateGaps(scoresA, scoresB.value, al);
      calculated := Some(g);
    }
    gaps := if calculated.Some? && |calculated.value| > 0 then calculated else None;
  }

  /** Step 15 of diagnose: `axisScores`, with the raw scores added by mode. */
  method ShowScores(mode: Mode, coreAvg: Scores, supportAvg: Scores, scoresA: Scores, scoresB: Option<Scores>)
    returns (axisScoresOut: AxisScoresOut)
    ensures axisScoresOut == ScoresOut(mode, coreAvg, supportAvg, scoresA, scoresB)
  {
    axisScoresOut := AxisScoresOut(coreAvg, supportAvg, None, None, None);
    if mode == Solo {
      axisScoresOut := axisScoresOut.(solo := Some(scoresA));
    } else {
      axisScoresOut := axisScoresOut.(personA := Some(scoresA), personB := scoresB);
    }
  }

  /** Step 1 of diagnose: the partners' axis scores, B's only when B answered. */
  method PartnersScores(input: DiagnosisInput, catalog: Catalog) returns (scoresA: Scores, scoresB: Option<Scores>)
    ensures scoresA == ScoresOf(catalog.questions, input.valueAnswersA)
    ensures scoresB == PartnerScores(catalog.questions, input.valueAnswersB)
  {
    scoresA := CalculateAxisScores(catalog.questions, input.valueAnswersA);
    SameScores(scoresA, ScoresOf(catalog.questions, input.valueAnswersA));
    scoresB := None;
    if input.valueAnswersB.Some? {
      var s := CalculateAxisScores(catalog.questions, input.valueAnswersB.value);
      SameScores(s, ScoresOf(catalog.questions, input.valueAnswersB.value));
      scoresB := Some(s);
    }
  }

  lemma SameScores(m: Scores, m': Scores)
    requires Complete(m) && Complete(m') && forall a: Axis :: m[a] == m'[a]
    ensures m == m'
  {
  }

  /** Step 2 of diagnose: the loop over CORE_AXES that fills in `coreAvg`. */
  method AverageCore(scoresA: Scores, scoresB: Option<Scores>) returns (coreAvg: Scores)
    requires Complete(scoresA) && (scoresB.Some? ==> Complete(scoresB.value))
    ensures coreAvg == CoreAverage(scoresA, scoresB)
  {
    coreAvg := map[];
    for k := 0 to |CoreAxes|
      invariant forall a :: a in coreAvg <==> a in CoreAxes[..k]
      invariant forall a :: a in coreAvg ==> coreAvg[a] == AxisAverage(scoresA, scoresB, a)
    {
      var axis := CoreAxes[k];
      if scoresB.Some? {
        coreAvg := coreAvg[axis := Mean(scoresA[axis], scoresB.value[axis])];
      } else {
        coreAvg := coreAvg[axis := scoresA[axis]];
      }
      assert CoreAxes[..k + 1] == CoreAxes[..k] + [axis];
    }
    assert CoreAxes[..|CoreAxes|] == CoreAxes;
  }

  /** A type is present in the catalog. */
  predicate HasValueType(catalog: Catalog, v: ValueType) {
    exists k :: 0 <= k < |catalog.valueTypes| && catalog.valueTypes[k].id == v
  }

  predicate HasSizeType(catalog: Catalog, t: SizeType) {
    exists k :: 0 <= k < |catalog.sizeTypes| && catalog.sizeTypes[k].id == t
  }

  /** With an entry for every type both look-ups succeed, whatever the answers, so the
      diagnosis never stops. */
  lemma CompleteCatalogSucceeds(catalog: Catalog, vt: ValueType, st: SizeType)
    requires forall v :: HasValueType(catalog, v)
    requires forall t :: HasSizeType(catalog, t)
    ensures Find(catalog.valueTypes, ValueTypeKey, vt).Some? && Find(catalog.sizeTypes, SizeTypeKey, st).Some?
  {
    assert HasValueType(catalog, vt) && HasSizeType(catalog, st);
    var k :| 0 <= k < |catalog.valueTypes| && catalog.valueTypes[k].id == vt;
    var m :| 0 <= m < |catalog.sizeTypes| && catalog.sizeTypes[m].id == st;
    assert ValueTypeKey(catalog.valueTypes[k]) == vt && SizeTypeKey(catalog.sizeTypes[m]) == st;
  }

  /** `top3CoreAxes` holds exactly three core axes with their averages, in ranking order,
      and each of them is ranked ahead of both core axes left out. */
  lemma TopThreeCoreAxes(res: DiagnosisResult)
    requires TopThreeOf(res)
    ensures var avg, t := res.axisScores.avg, res.top3CoreAxes;
      |t| == 3 && Ranked(t, Score, EntryOrd) && TopTwo(avg, t[0].axis, t[1].axis) &&
      (forall k :: 0 <= k < 3 ==> t[k].axis.IsCore() && t[k].score == avg[t[k].axis]) &&
      forall a: Axis, k :: a.IsCore() && 0 <= k < 3 && a != t[0].axis && a != t[1].axis && a != t[2].axis ==>
        Beats(avg, t[k].axis, a)
  {
    var avg := res.axisScores.avg;
    var ranking := RankCoreAxes(avg);
    var t := res.top3CoreAxes;
    RankingHead(avg);
    forall a: Axis, k | a.IsCore() && 0 <= k < 3 && a != t[0].axis && a != t[1].axis && a != t[2].axis
      ensures Beats(avg, t[k].axis, a)
    {
      var m :| 0 <= m < |ranking| && ranking[m].axis == a;
      assert Before(ranking[k], ranking[m], Score, EntryOrd);
    }
  }

  /** A gap list is reported exactly for a couple with both answer sheets whose scores
      differ by 12 or more on some axis, and it is then calculateGaps's list. */
  lemma GapsOnlyForCouples(input: DiagnosisInput, catalog: Catalog, res: DiagnosisResult)
    requires GapsOf(input, catalog, res)
    ensures var sA, sB := ScoresA(input, catalog), ScoresB(input, catalog);
      (res.gaps.Some? <==> input.mode == Couple && sB.Some? && exists a: Axis :: Abs(sA[a] - sB.value[a]) >= 12) &&
      (res.gaps.Some? ==> res.gaps.value == GapsSpec(sA, sB.value, catalog.alignment))
  {
    ReportedGapsIff(input.mode, ScoresA(input, catalog), ScoresB(input, catalog), catalog.alignment);
  }

  lemma ReportedGapsIff(mode: Mode, sA: Scores, sB: Option<Scores>, al: Alignment)
    requires Complete(sA) && (sB.Some? ==> Complete(sB.value))
    ensures var g := ReportedGaps(mode, sA, sB, al);
      (g.Some? <==> mode == Couple && sB.Some? && exists a: Axis :: Abs(sA[a] - sB.value[a]) >= 12) &&
      (g.Some? ==> g.value == GapsSpec(sA, sB.value, al))
  {
    if mode == Couple && sB.Some? {
      GapsExist(sA, sB.value, al, GapsSpec(sA, sB.value, al));
    }
  }

  /** Some gap is listed exactly when some axis differs by 12 or more. */
  lemma GapsExist(sA: Scores, sB: Scores, al: Alignment, gs: seq<GapInfo>)
    requires Complete(sA) && Complete(sB) && gs == GapsSpec(sA, sB, al)
    ensures |gs| > 0 <==> exists a: Axis :: Abs(sA[a] - sB[a]) >= 12
  {
    GapsComplete(sA, sB, al);
    if exists a: Axis :: Abs(sA[a] - sB[a]) >= 12 {
      var a: Axis :| Abs(sA[a] - sB[a]) >= 12;
      assert Lists(gs, a);
    } else if |gs| > 0 {
      assert Lists(gs, gs[0].axis);
    }
  }

  /** Two partners 20 or more apart on an axis get a 'risk' entry for it, with that
      axis's alignment questions. */
  lemma OpposedPartnersAtRisk(input: DiagnosisInput, catalog: Catalog, res: DiagnosisResult, x: Axis)
    requires GapsOf(input, catalog, res) && input.mode == Couple && input.valueAnswersB.Some?
    requires Abs(ScoresA(input, catalog)[x] - ScoresB(input, catalog).value[x]) >= 20
    ensures res.gaps.Some? &&
      exists g :: g in res.gaps.value && g.axis == x && g.level == Risk && g.alignmentQuestions == AlignmentFor(catalog.alignment, x)
  {
    var sA, sB := ScoresA(input, catalog), ScoresB(input, catalog).value;
    var gs := GapsSpec(sA, sB, catalog.alignment);
    GapsComplete(sA, sB, catalog.alignment);
    GapsReported(sA, sB, catalog.alignment);
    assert Lists(gs, x);
    var j :| 0 <= j < |gs| && gs[j].axis == x;
    assert Reports(sA, sB, catalog.alignment, gs[j]);
  }

  /** Without partner B's answers the averages are A's own scores, and a solo result shows
      A's scores as `solo` only. */
  lemma SoloScoresUnaveraged(input: DiagnosisInput, catalog: Catalog, res: DiagnosisResult)
    requires AveragesOf(input, catalog, res) && PartnersShown(input, catalog, res) && input.valueAnswersB.None?
    ensures var sA := ScoresA(input, catalog);
      (forall a: Axis :: a.IsCore() ==> res.axisScores.avg[a] == sA[a]) &&
      res.axisScores.supportAvg[INVOLVE] == sA[INVOLVE] && res.axisScores.supportAvg[ASSURE] == sA[ASSURE] &&
      (input.mode == Solo ==> res.axisScores.solo == Some(sA) && res.axisScores.personA.None? && res.axisScores.personB.None?)
  {
    AxesEnumerated();
  }

  /** With both answer sheets each average is the partners' mean, a half rounded up. */
  lemma AveragesRoundHalfUp(input: DiagnosisInput, catalog: Catalog, res: DiagnosisResult)
    requires AveragesOf(input, catalog, res) && input.valueAnswersB.Some?
    ensures var sA, sB, avg, sup := ScoresA(input, catalog), ScoresB(input, catalog).value, res.axisScores.avg, res.axisScores.supportAvg;
      (forall a: Axis :: a.IsCore() ==> a in avg && sA[a] + sB[a] <= 2 * avg[a] <= sA[a] + sB[a] + 1) &&
      sA[INVOLVE] + sB[INVOLVE] <= 2 * sup[INVOLVE] <= sA[INVOLVE] + sB[INVOLVE] + 1 &&
      sA[ASSURE] + sB[ASSURE] <= 2 * sup[ASSURE] <= sA[ASSURE] + sB[ASSURE] + 1
  {
    var sA, sB := ScoresA(input, catalog), ScoresB(input, catalog).value;
    AxesEnumerated();
    forall a: Axis ensures sA[a] + sB[a] <= 2 * Mean(sA[a], sB[a]) <= sA[a] + sB[a] + 1 {
      RoundDivBounds(sA[a] + sB[a], 2);
    }
  }

  /** Neutral answers throughout: every core average is 50 and the value type is V10. */
  predicate AllNeutral(qs: seq<Question>, answers: Answers) {
    forall i :: 0 <= i < |qs| && qs[i].id in answers ==> answers[qs[i].id] == 3
  }

  lemma NeutralAnswersBalanceType(input: DiagnosisInput, catalog: Catalog, res: DiagnosisResult)
    requires AveragesOf(input, catalog, res) && TypesOf(input, res)
    requires AllNeutral(catalog.questions, input.valueAnswersA)
    requires input.valueAnswersB.Some? ==> AllNeutral(catalog.questions, input.valueAnswersB.value)
    ensures res.valueType.id == V10 && forall a: Axis :: a.IsCore() ==> res.axisScores.avg[a] == 50
  {
    var qs := catalog.questions;
    var sA, sB := ScoresA(input, catalog), ScoresB(input, catalog);
    forall a: Axis ensures sA[a] == 50 && (sB.Some? ==> sB.value[a] == 50) {
      NeutralAnswersScoreFifty(qs, input.valueAnswersA, a);
      if sB.Some? {
        NeutralAnswersScoreFifty(qs, input.valueAnswersB.value, a);
      }
    }
    var avg := CoreAverage(sA, sB);
    AxesEnumerated();
    assert forall a: Axis :: a.IsCore() ==> avg[a] == 50;
    BalanceTypeRule(avg);
  }

  /** A budget estimate appears exactly when budget answers with a positive monthly
      payment were given. */
  lemma EstimateOnlyWithPayment(input: DiagnosisInput, pow: (real, real) -> real, res: DiagnosisResult)
    requires EstimateFor(input, pow, res)
    ensures res.budgetEstimate.Some? <==>
      input.budget.Some? && input.budget.value.b01.Some? && input.budget.value.b01.value > 0.0
  {
  }

  /** The builder list is empty exactly when none of the nine threshold rules fires on the
      averages. */
  lemma RecommendationsIffRuleFires(res: DiagnosisResult)
    requires BuildersOf(res)
    ensures res.builderTypeRecommendations == [] <==> forall key :: !Fires(key, res.axisScores.avg, res.axisScores.supportAvg)
  {
    NoRuleNoRecommendation(res.axisScores.avg, res.axisScores.supportAvg);
  }

  /** Swapping partners A and B changes neither the averages nor the gap list, and so
      neither the value type, the top three, nor the builder list. */
  lemma SwapPartners(input: DiagnosisInput, catalog: Catalog, res: DiagnosisResult, res': DiagnosisResult)
    requires input.valueAnswersB.Some?
    requires var swapped := input.(valueAnswersA := input.valueAnswersB.value, valueAnswersB := Some(input.valueAnswersA));
      AveragesOf(input, catalog, res) && TypesOf(input, res) && TopThreeOf(res) && GapsOf(input, catalog, res) && BuildersOf(res) &&
      AveragesOf(swapped, catalog, res') && TypesOf(swapped, res') && TopThreeOf(res') && GapsOf(swapped, catalog, res') && BuildersOf(res')
    ensures res'.axisScores.avg == res.axisScores.avg && res'.axisScores.supportAvg == res.axisScores.supportAvg
    ensures res'.valueType.id == res.valueType.id && res'.top3CoreAxes == res.top3CoreAxes
    ensures res'.gaps == res.gaps && res'.builderTypeRecommendations == res.builderTypeRecommendations
  {
    var swapped := input.(valueAnswersA := input.valueAnswersB.value, valueAnswersB := Some(input.valueAnswersA));
    var sA, sB := ScoresA(input, catalog), ScoresB(input, catalog).value;
    assert ScoresA(swapped, catalog) == sB && ScoresB(swapped, catalog) == Some(sA);
    MeanSymmetric(sA, sB);
    GapsSymmetric(sA, sB, catalog.alignment);
  }

  lemma MeanSymmetric(sA: Scores, sB: Scores)
    requires Complete(sA) && Complete(sB)
    ensures CoreAverage(sA, Some(sB)) == CoreAverage(sB, Some(sA))
    ensures SupportAverage(sA, Some(sB)) == SupportAverage(sB, Some(sA))
  {
    assert forall a: Axis :: Mean(sA[a], sB[a]) == Mean(sB[a], sA[a]);
  }
}
