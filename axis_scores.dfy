/** Likert answers to 0..100 axis scores: `likertToRaw` and `calculateAxisScores`
    (home-diagnosis/src/lib/diagnose.ts). The question bank is a parameter. */
module AxisScoring {
  import opened Types
  import opened Rounding

  /** A question of the bank: its id, its axis and whether it is reverse-scored. Its weight is never read by the engine. */
  datatype Question = Question(id: string, axis: Axis, reverse: bool)

  /** ValueAnswers: question id to Likert value. */
  type Answers = map<string, int>

  /** The fixed table 5 -> 2, 4 -> 1, 3 -> 0, 2 -> -1, 1 -> -2; any other value
      misses the table and counts as 0. */
  function LikertToRaw(v: int): (raw: int)
    ensures 1 <= v <= 5 ==> raw == v - 3
    ensures !(1 <= v <= 5) ==> raw == 0
  {
    if v == 5 then 2
    else if v == 4 then 1
    else if v == 3 then 0
    else if v == 2 then -1
    else if v == 1 then -2
    else 0
  }

  /** The raw value of an answer, negated for a reverse-keyed question. */
  function Effective(q: Question, v: int): (raw: int)
    ensures -2 <= raw <= 2
    ensures q.reverse && 1 <= v <= 5 ==> raw == 3 - v
    ensures !q.reverse && 1 <= v <= 5 ==> raw == v - 3
  {
    var raw := LikertToRaw(v);
    if q.reverse then -raw else raw
  }

  /** Does question q count towards axis a? (It does when it is answered and on that axis.) */
  predicate Counts(q: Question, answers: Answers, a: Axis) {
    q.axis == a && q.id in answers
  }

  /** Number of answered questions of axis a among the first i questions. */
  function AxisCount(qs: seq<Question>, answers: Answers, a: Axis, i: nat): (n: nat)
    requires i <= |qs|
    ensures n <= i
  {
    if i == 0 then 0
    else AxisCount(qs, answers, a, i - 1) + (if Counts(qs[i - 1], answers, a) then 1 else 0)
  }

  /** Sum of the effective raw values of the answered questions of axis a among the first
      i questions; each lies in [-2, 2], so the sum lies in [-2n, 2n]. */
  function AxisSum(qs: seq<Question>, answers: Answers, a: Axis, i: nat): (sum: int)
    requires i <= |qs|
    ensures -2 * AxisCount(qs, answers, a, i) <= sum <= 2 * AxisCount(qs, answers, a, i)
  {
    if i == 0 then 0
    else
      var q := qs[i - 1];
      AxisSum(qs, answers, a, i - 1) + (if Counts(q, answers, a) then Effective(q, answers[q.id]) else 0)
  }

  /** An axis's score from its raw sum over n answered questions:
      50 when nothing was answered, else round(((sum + 2n) / 4n) * 100). */
  function AxisScore(sum: int, n: nat): (score: int)
    requires -2 * n <= sum <= 2 * n
    ensures 0 <= score <= 100
  {
    if n == 0 then 50
    else
      var score := RoundDiv(100 * (sum + 2 * n), 4 * n);
      ScoreBounded(sum, n, score);
      score
  }

  lemma ScoreBounded(sum: int, n: nat, r: int)
    requires n > 0 && -2 * n <= sum <= 2 * n
    requires r == RoundDiv(100 * (sum + 2 * n), 4 * n)
    ensures 0 <= r <= 100
  {
    var p, q := 100 * (sum + 2 * n), 4 * n;
    RoundDivBounds(p, q);
    assert 0 <= 2 * p <= 200 * q;
    if r > 100 {
      MulMono(q, 201, 2 * r - 1);
    } else if r < 0 {
      MulMono(q, 2 * r + 1, -1);
    }
  }

  /** The score of axis a for the given answers. */
  function ScoreOf(qs: seq<Question>, answers: Answers, a: Axis): (score: int)
    ensures 0 <= score <= 100
  {
    AxisScore(AxisSum(qs, answers, a, |qs|), AxisCount(qs, answers, a, |qs|))
  }

  /** calculateAxisScores: accumulate per-axis sums and counts over the question bank,
      then fill in a score for every axis. Its three loops are the three methods below. */
  method CalculateAxisScores(qs: seq<Question>, answers: Answers) returns (scores: Scores)
    ensures Complete(scores)
    ensures forall a: Axis :: scores[a] == ScoreOf(qs, answers, a)
    ensures forall a: Axis :: 0 <= scores[a] <= 100
  {
    var axisSums, axisCounts := ZeroTotals(qs, answers);
    axisSums, axisCounts := TallyAnswers(qs, answers, axisSums, axisCounts);
    scores := ScoresFromTotals(qs, answers, axisSums, axisCounts);
  }

  /** First loop: a zero sum and a zero count for every axis of ALL_AXES. */
  method ZeroTotals(qs: seq<Question>, answers: Answers) returns (axisSums: map<Axis, int>, axisCounts: map<Axis, nat>)
    ensures Tallied(axisSums, axisCounts, qs, answers, 0)
  {
    axisSums, axisCounts := map[], map[];
    for k := 0 to |AllAxes|
      invariant forall a: Axis :: Ord(a) < k ==> a in axisSums && axisSums[a] == 0 && a in axisCounts && axisCounts[a] == 0
    {
      OrdAt(k);
      axisSums := axisSums[AllAxes[k] := 0];
      axisCounts := axisCounts[AllAxes[k] := 0];
    }
  }

  /** Second loop: each answered question adds its effective value to its axis's sum and
      one to its count; an unanswered question is skipped. */
  method TallyAnswers(qs: seq<Question>, answers: Answers, sums: map<Axis, int>, counts: map<Axis, nat>)
    returns (axisSums: map<Axis, int>, axisCounts: map<Axis, nat>)
    requires Tallied(sums, counts, qs, answers, 0)
    ensures Tallied(axisSums, axisCounts, qs, answers, |qs|)
  {
    axisSums, axisCounts := sums, counts;
    for i := 0 to |qs|
      invariant Tallied(axisSums, axisCounts, qs, answers, i)
    {
      var q := qs[i];
      ghost var sums0, counts0, raw0 := axisSums, axisCounts, 0;
      if q.id in answers {
        var raw := LikertToRaw(answers[q.id]);
        if q.reverse {
          raw := -raw;
        }
        raw0 := raw;
        axisSums := axisSums[q.axis := axisSums[q.axis] + raw];
        axisCounts := axisCounts[q.axis := axisCounts[q.axis] + 1];
      }
      TallyStep(sums0, counts0, axisSums, axisCounts, raw0, qs, answers, i);
    }
  }

  /** Third loop: 50 for an axis with no answers, else round(((sum + 2n) / 4n) * 100). */
  method ScoresFromTotals(qs: seq<Question>, answers: Answers, axisSums: map<Axis, int>, axisCounts: map<Axis, nat>)
    returns (scores: Scores)
    requires Tallied(axisSums, axisCounts, qs, answers, |qs|)
    ensures Complete(scores)
    ensures forall a: Axis :: scores[a] == ScoreOf(qs, answers, a)
  {
    scores := map[];
    for k := 0 to |AllAxes|
      invariant ScoredBelow(scores, qs, answers, k)
    {
      var axis := AllAxes[k];
      ghost var scores0 := scores;
      var n := axisCounts[axis];
      if n == 0 {
        scores := scores[axis := 50];
      } else {
        var sum := axisSums[axis];
        scores := scores[axis := RoundDiv(100 * (sum + 2 * n), 4 * n)];
      }
      ScoreStep(axisSums, axisCounts, scores0, scores, qs, answers, k);
    }
  }

  /** Every axis before position k of ALL_AXES holds its score. */
  ghost predicate ScoredBelow(scores: Scores, qs: seq<Question>, answers: Answers, k: nat) {
    forall a: Axis :: Ord(a) < k ==> a in scores && scores[a] == ScoreOf(qs, answers, a)
  }

  /** One pass of the last loop: the score written for the k-th axis is its ScoreOf. */
  lemma ScoreStep(sums: map<Axis, int>, counts: map<Axis, nat>, scores: Scores, scores': Scores,
                  qs: seq<Question>, answers: Answers, k: nat)
    requires k < |AllAxes| && Tallied(sums, counts, qs, answers, |qs|) && ScoredBelow(scores, qs, answers, k)
    requires var a := AllAxes[k]; var n := counts[a];
      scores' == scores[a := if n == 0 then 50 else RoundDiv(100 * (sums[a] + 2 * n), 4 * n)]
    ensures ScoredBelow(scores', qs, answers, k + 1)
  {
    OrdAt(k);
  }

  /** The accumulators hold the sum and count of every axis over the first i questions. */
  ghost predicate Tallied(sums: map<Axis, int>, counts: map<Axis, nat>, qs: seq<Question>, answers: Answers, i: nat)
    requires i <= |qs|
  {
    forall a: Axis :: a in sums && sums[a] == AxisSum(qs, answers, a, i) && a in counts && counts[a] == AxisCount(qs, answers, a, i)
  }

  /** One question's contribution: an unanswered question leaves the accumulators as they
      are; an answered one adds its effective value and one count to its own axis. */
  lemma TallyStep(sums: map<Axis, int>, counts: map<Axis, nat>, sums': map<Axis, int>, counts': map<Axis, nat>,
                  raw: int, qs: seq<Question>, answers: Answers, i: nat)
    requires i < |qs| && Tallied(sums, counts, qs, answers, i)
    requires qs[i].id !in answers ==> sums' == sums && counts' == counts
    requires qs[i].id in answers ==>
      var q := qs[i];
      raw == (if q.reverse then -LikertToRaw(answers[q.id]) else LikertToRaw(answers[q.id])) &&
      sums' == sums[q.axis := sums[q.axis] + raw] && counts' == counts[q.axis := counts[q.axis] + 1]
    ensures Tallied(sums', counts', qs, answers, i + 1)
  {
  }

  /** When every answered question of axis a among the first i has the same effective
      value c, the axis sum is c times the number answered. */
  lemma {:induction false} UniformSum(qs: seq<Question>, answers: Answers, a: Axis, c: int, i: nat)
    requires i <= |qs|
    requires forall j :: 0 <= j < i && Counts(qs[j], answers, a) ==> Effective(qs[j], answers[qs[j].id]) == c
    ensures AxisSum(qs, answers, a, i) == c * AxisCount(qs, answers, a, i)
  {
    if i > 0 {
      UniformSum(qs, answers, a, c, i - 1);
      var n, d := AxisCount(qs, answers, a, i - 1), if Counts(qs[i - 1], answers, a) then 1 else 0;
      Distribute(c, n, d);
    }
  }

  lemma Distribute(c: int, n: int, d: int)
    ensures c * (n + d) == c * n + c * d
  {
  }

  /** A score whose rational value is already a whole number k. */
  lemma AxisScoreExact(sum: int, n: nat, k: int)
    requires n > 0 && -2 * n <= sum <= 2 * n
    requires 100 * (sum + 2 * n) == k * (4 * n)
    ensures AxisScore(sum, n) == k
  {
    RoundDivExact(k, 4 * n);
  }

  /** All-neutral answers (3) on an axis give exactly 50, whatever the reverse flags. */
  lemma NeutralAnswersScoreFifty(qs: seq<Question>, answers: Answers, a: Axis)
    requires forall i :: 0 <= i < |qs| && Counts(qs[i], answers, a) ==> answers[qs[i].id] == 3
    ensures ScoreOf(qs, answers, a) == 50
  {
    UniformSum(qs, answers, a, 0, |qs|);
    var n := AxisCount(qs, answers, a, |qs|);
    if n > 0 {
      AxisScoreExact(0, n, 50);
    }
  }

  /** Answers whose effective value is +2 on every question (5, or 1 when reverse-keyed)
      give exactly 100, once at least one is answered. */
  lemma MaximalAnswersScoreHundred(qs: seq<Question>, answers: Answers, a: Axis)
    requires forall i :: 0 <= i < |qs| && Counts(qs[i], answers, a) ==> answers[qs[i].id] == (if qs[i].reverse then 1 else 5)
    requires AxisCount(qs, answers, a, |qs|) > 0
    ensures ScoreOf(qs, answers, a) == 100
  {
    UniformSum(qs, answers, a, 2, |qs|);
    var n := AxisCount(qs, answers, a, |qs|);
    AxisScoreExact(2 * n, n, 100);
  }

  /** Answers whose effective value is -2 on every question (1, or 5 when reverse-keyed)
      give exactly 0, once at least one is answered. */
  lemma MinimalAnswersScoreZero(qs: seq<Question>, answers: Answers, a: Axis)
    requires forall i :: 0 <= i < |qs| && Counts(qs[i], answers, a) ==> answers[qs[i].id] == (if qs[i].reverse then 5 else 1)
    requires AxisCount(qs, answers, a, |qs|) > 0
    ensures ScoreOf(qs, answers, a) == 0
  {
    UniformSum(qs, answers, a, -2, |qs|);
    var n: int := AxisCount(qs, answers, a, |qs|);
    AxisScoreExact(-2 * n, n, 0);
  }

  /** An axis nobody answered gets the neutral default 50. */
  lemma UnansweredAxisScoresFifty(qs: seq<Question>, answers: Answers, a: Axis)
    requires forall i :: 0 <= i < |qs| && qs[i].axis == a ==> qs[i].id !in answers
    ensures ScoreOf(qs, answers, a) == 50
  {
    NoneCounted(qs, answers, a, |qs|);
  }

  lemma {:induction false} NoneCounted(qs: seq<Question>, answers: Answers, a: Axis, i: nat)
    requires i <= |qs|
    requires forall j :: 0 <= j < i ==> !Counts(qs[j], answers, a)
    ensures AxisCount(qs, answers, a, i) == 0 && AxisSum(qs, answers, a, i) == 0
  {
    if i > 0 {
      NoneCounted(qs, answers, a, i - 1);
    }
  }
}
