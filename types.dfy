/** The engine's enumerations and records (home-diagnosis/src/lib/types.ts). */
module Types {

  /** The seven axes, declared in ALL_AXES order: five core axes, then two support axes. */
  datatype Axis = COST | PERF | DESIGN | LIFE | FLEX | INVOLVE | ASSURE {
    predicate IsCore() {
      !(INVOLVE? || ASSURE?)
    }
  }

  const CoreAxes: seq<Axis> := [COST, PERF, DESIGN, LIFE, FLEX]
  const SupportAxes: seq<Axis> := [INVOLVE, ASSURE]
  const AllAxes: seq<Axis> := CoreAxes + SupportAxes

  /** Position of an axis in ALL_AXES; every stable sort of the engine breaks ties by it. */
  function Ord(a: Axis): (k: nat)
    ensures k < |AllAxes| && AllAxes[k] == a
    ensures a.IsCore() <==> k < |CoreAxes|
  {
    match a
    case COST => 0
    case PERF => 1
    case DESIGN => 2
    case LIFE => 3
    case FLEX => 4
    case INVOLVE => 5
    case ASSURE => 6
  }

  /** Ord inverts indexing into ALL_AXES. */
  lemma OrdAt(k: nat)
    requires k < |AllAxes|
    ensures Ord(AllAxes[k]) == k
  {
  }

  lemma AxesEnumerated()
    ensures forall a: Axis :: a in AllAxes
    ensures forall a: Axis :: a in CoreAxes <==> a.IsCore()
    ensures forall i, j :: 0 <= i < j < |AllAxes| ==> Ord(AllAxes[i]) < Ord(AllAxes[j])
  {
    forall a: Axis ensures a in AllAxes && (a in CoreAxes <==> a.IsCore()) {
      var k := Ord(a);
    }
  }

  type Scores = map<Axis, int>

  /** Record<AxisId, number>: a score for every axis. */
  predicate Complete(m: Scores) {
    forall a: Axis :: a in m
  }

  /** Record<CoreAxisId, number>: a score for every core axis. */
  predicate CoreComplete(m: Scores) {
    forall a: Axis :: a.IsCore() ==> a in m
  }

  /** A score for each of the two support axes, INVOLVE and ASSURE. */
  predicate SupportComplete(m: Scores) {
    INVOLVE in m && ASSURE in m
  }

  datatype Mode = Solo | Couple

  datatype ValueType = V1 | V2 | V3 | V4 | V5 | V6 | V7 | V8 | V9 | V10

  datatype SizeType = S | M | L

  datatype GapLevel = Ok | Check | Risk

  /** The eight builder categories, in declaration (and tie-break) order. */
  datatype Builder = B1 | B2 | B3 | B4 | B5 | B6 | B7 | B8

  const Builders: seq<Builder> := [B1, B2, B3, B4, B5, B6, B7, B8]

  function BuilderOrd(b: Builder): (k: nat)
    ensures k < |Builders| && Builders[k] == b
  {
    match b
    case B1 => 0
    case B2 => 1
    case B3 => 2
    case B4 => 3
    case B5 => 4
    case B6 => 5
    case B7 => 6
    case B8 => 7
  }

  /** One entry of a ranked axis list: an axis and its score. */
  datatype AxisEntry = AxisEntry(axis: Axis, score: int)

  datatype GapInfo = GapInfo(axis: Axis, gap: int, level: GapLevel, alignmentQuestions: seq<string>)

  datatype TsuboRange = TsuboRange(low: int, high: int, mid: int)

  datatype BuilderRecommendation = BuilderRecommendation(id: Builder, labelText: string, reason: string)

  datatype BudgetEstimate = BudgetEstimate(
    loanMax: int,
    totalBudgetApprox: real,
    monthlyPayment: real,
    years: real,
    rate: real)
}
