/** `determineValueType` and `singleAxisType` (home-diagnosis/src/lib/diagnose.ts):
    the five core-axis averages, ranked by a stable descending sort, decide one of the
    ten value types. */
module ValueTyping {
  import opened Types
  import opened Ranking

  function Score(e: AxisEntry): int {
    e.score
  }

  function EntryOrd(e: AxisEntry): int {
    Ord(e.axis)
  }

  /** Each axis paired with its average, in the order given. */
  function Entries(axes: seq<Axis>, avg: Scores): (es: seq<AxisEntry>)
    requires forall a :: a in axes ==> a in avg
    ensures |es| == |axes|
    ensures forall j :: 0 <= j < |axes| ==> es[j] == AxisEntry(axes[j], avg[axes[j]])
  {
    if axes == [] then [] else [AxisEntry(axes[0], avg[axes[0]])] + Entries(axes[1..], avg)
  }

  function CoreEntries(avg: Scores): (es: seq<AxisEntry>)
    requires CoreComplete(avg)
  {
    Entries(CoreAxes, avg)
  }

  /** Core axis a is ranked ahead of b: a higher average, or an equal one and a earlier
      in CORE_AXES. */
  predicate Beats(avg: Scores, a: Axis, b: Axis)
    requires a in avg && b in avg
  {
    avg[a] > avg[b] || (avg[a] == avg[b] && Ord(a) < Ord(b))
  }

  /** a is ranked first among the core axes. */
  predicate IsTop(avg: Scores, a: Axis)
    requires CoreComplete(avg)
  {
    a.IsCore() && forall b: Axis :: b.IsCore() && b != a ==> Beats(avg, a, b)
  }

  /** a is ranked first and b second among the core axes. */
  predicate TopTwo(avg: Scores, a: Axis, b: Axis)
    requires CoreComplete(avg)
  {
    IsTop(avg, a) && b.IsCore() && b != a &&
    forall c: Axis :: c.IsCore() && c != a && c != b ==> Beats(avg, b, c)
  }

  /** The core axes with their averages, sorted by the engine's stable descending sort
      (`sorted` in determineValueType, the source of `top3CoreAxes` in diagnose). */
  function RankCoreAxes(avg: Scores): (r: seq<AxisEntry>)
    requires CoreComplete(avg)
    ensures |r| == |CoreAxes|
    ensures Ranked(r, Score, EntryOrd)
    ensures forall k :: 0 <= k < |r| ==> r[k].axis.IsCore() && r[k].score == avg[r[k].axis]
    ensures forall a: Axis :: a.IsCore() ==> exists k :: 0 <= k < |r| && r[k].axis == a
  {
    var es := CoreEntries(avg);
    var r := SortDesc(es, Score);
    CoreEntriesInOrder(avg);
    SortDescRanked(es, Score, EntryOrd);
    SortedCoreEntries(avg, r);
    r
  }

  /** Sorting keeps the entries: each holds a core axis with its average, and every core
      axis has its entry. */
  lemma SortedCoreEntries(avg: Scores, r: seq<AxisEntry>)
    requires CoreComplete(avg) && r == SortDesc(CoreEntries(avg), Score)
    ensures forall k :: 0 <= k < |r| ==> r[k].axis.IsCore() && r[k].score == avg[r[k].axis]
    ensures forall a: Axis :: a.IsCore() ==> exists k :: 0 <= k < |r| && r[k].axis == a
  {
    var es := CoreEntries(avg);
    forall k | 0 <= k < |r| ensures r[k].axis.IsCore() && r[k].score == avg[r[k].axis] {
      var j := SameElements(es, r, k);
      CoreEntry(avg, j);
    }
    forall a: Axis | a.IsCore() ensures exists k :: 0 <= k < |r| && r[k].axis == a {
      CoreEntry(avg, Ord(a));
      var k := SameElements(r, es, Ord(a));
    }
  }

  lemma CoreEntriesInOrder(avg: Scores)
    requires CoreComplete(avg)
    ensures InOrder(CoreEntries(avg), EntryOrd)
  {
    forall i, j | 0 <= i < j < |CoreAxes| ensures Ord(CoreAxes[i]) < Ord(CoreAxes[j]) {
      OrdAt(i);
      OrdAt(j);
    }
  }

  lemma CoreEntry(avg: Scores, j: int)
    requires CoreComplete(avg) && 0 <= j < |CoreAxes|
    ensures var e := CoreEntries(avg)[j]; e.axis.IsCore() && Ord(e.axis) == j && e.score == avg[e.axis]
  {
    OrdAt(j);
  }

  /** The first two entries of the ranking are the top two core axes. */
  lemma RankingHead(avg: Scores)
    requires CoreComplete(avg)
    ensures var r := RankCoreAxes(avg); TopTwo(avg, r[0].axis, r[1].axis)
  {
    var r := RankCoreAxes(avg);
    forall b: Axis | b.IsCore() && b != r[0].axis
      ensures Beats(avg, r[0].axis, b) && (b != r[1].axis ==> Beats(avg, r[1].axis, b))
    {
      var k :| 0 <= k < |r| && r[k].axis == b;
      assert Before(r[0], r[k], Score, EntryOrd);
      if b != r[1].axis {
        assert Before(r[1], r[k], Score, EntryOrd);
      }
    }
    assert Before(r[0], r[1], Score, EntryOrd);
  }

  /** Only one axis can be ranked first, and only one pair first and second. */
  lemma TopTwoUnique(avg: Scores, a: Axis, b: Axis)
    requires CoreComplete(avg) && TopTwo(avg, a, b)
    ensures var r := RankCoreAxes(avg); a == r[0].axis && b == r[1].axis
  {
    var r := RankCoreAxes(avg);
    RankingHead(avg);
    TopUnique(avg, a, r[0].axis);
  }

  lemma TopUnique(avg: Scores, a: Axis, a': Axis)
    requires CoreComplete(avg) && IsTop(avg, a) && IsTop(avg, a')
    ensures a == a'
  {
  }

  /** singleAxisType: the single-axis value type of a core axis. */
  function SingleAxisType(a: Axis): (v: ValueType)
    requires a.IsCore()
    ensures v in {V1, V2, V3, V4, V5}
  {
    match a
    case COST => V1
    case PERF => V2
    case DESIGN => V3
    case LIFE => V4
    case FLEX => V5
  }

  /** The single-axis types are all different: the type names its axis. */
  lemma SingleAxisTypeInjective(a: Axis, b: Axis)
    requires a.IsCore() && b.IsCore() && SingleAxisType(a) == SingleAxisType(b)
    ensures a == b
  {
  }

  /** determineValueType */
  function DetermineValueType(avg: Scores): ValueType
    requires CoreComplete(avg)
  {
    var sorted := RankCoreAxes(avg);
    var top1, top2 := sorted[0], sorted[1];
    if top1.score < 65 then V10
    else if top1.score >= 70 && top2.score >= 65 then
      var pair := {top1.axis, top2.axis};
      if COST in pair && LIFE in pair then V6
      else if COST in pair && PERF in pair then V7
      else if PERF in pair && DESIGN in pair then V8
      else if PERF in pair && LIFE in pair then V9
      else SingleAxisType(top1.axis)
    else SingleAxisType(top1.axis)
  }

  /** x and y are the top two core axes in some order, the first at least 70 and the
      second at least 65. */
  predicate PairOnTop(avg: Scores, x: Axis, y: Axis)
    requires CoreComplete(avg)
  {
    (TopTwo(avg, x, y) && avg[x] >= 70 && avg[y] >= 65) ||
    (TopTwo(avg, y, x) && avg[y] >= 70 && avg[x] >= 65)
  }

  /** A combination of two axes that has a value type of its own. */
  predicate AnyPairOnTop(avg: Scores)
    requires CoreComplete(avg)
  {
    PairOnTop(avg, COST, LIFE) || PairOnTop(avg, COST, PERF) ||
    PairOnTop(avg, PERF, DESIGN) || PairOnTop(avg, PERF, LIFE)
  }

  /** A pair is on top exactly when it is the first two entries of the ranking, the first
      at least 70 and the second at least 65. */
  lemma PairOnTopAtHead(avg: Scores, x: Axis, y: Axis)
    requires CoreComplete(avg) && x.IsCore() && y.IsCore()
    ensures var r := RankCoreAxes(avg);
      PairOnTop(avg, x, y) <==>
        ((r[0].axis == x && r[1].axis == y) || (r[0].axis == y && r[1].axis == x)) && r[0].score >= 70 && r[1].score >= 65
  {
    var r := RankCoreAxes(avg);
    var t1, t2 := r[0].axis, r[1].axis;
    RankingHead(avg);
    assert avg[t1] == r[0].score && avg[t2] == r[1].score;
    if TopTwo(avg, x, y) {
      TopTwoUnique(avg, x, y);
    } else if TopTwo(avg, y, x) {
      TopTwoUnique(avg, y, x);
    }
  }

  /** V10, the balance type, exactly when every core average is below 65. */
  lemma BalanceTypeRule(avg: Scores)
    requires CoreComplete(avg)
    ensures DetermineValueType(avg) == V10 <==> forall a: Axis :: a.IsCore() ==> avg[a] < 65
  {
    var r := RankCoreAxes(avg);
    var t1 := r[0].axis;
    RankingHead(avg);
    if r[0].score < 65 {
      forall a: Axis | a.IsCore() ensures avg[a] < 65 {
        if a != t1 {
          assert Beats(avg, t1, a);
        }
      }
    }
  }

  /** V6, V7, V8 and V9 exactly when their pair of axes is on top. */
  lemma PairTypeRules(avg: Scores)
    requires CoreComplete(avg)
    ensures DetermineValueType(avg) == V6 <==> PairOnTop(avg, COST, LIFE)
    ensures DetermineValueType(avg) == V7 <==> PairOnTop(avg, COST, PERF)
    ensures DetermineValueType(avg) == V8 <==> PairOnTop(avg, PERF, DESIGN)
    ensures DetermineValueType(avg) == V9 <==> PairOnTop(avg, PERF, LIFE)
  {
    var r := RankCoreAxes(avg);
    assert r[0].axis != r[1].axis by {
      assert Before(r[0], r[1], Score, EntryOrd);
    }
    PairOnTopAtHead(avg, COST, LIFE);
    PairOnTopAtHead(avg, COST, PERF);
    PairOnTopAtHead(avg, PERF, DESIGN);
    PairOnTopAtHead(avg, PERF, LIFE);
  }

  /** The single-axis type of axis a exactly when a is ranked first at 65 or more and no
      pair with a type of its own is on top. */
  lemma SingleTypeRule(avg: Scores, a: Axis)
    requires CoreComplete(avg) && a.IsCore()
    ensures DetermineValueType(avg) == SingleAxisType(a) <==> IsTop(avg, a) && avg[a] >= 65 && !AnyPairOnTop(avg)
  {
    var r := RankCoreAxes(avg);
    RankingHead(avg);
    PairTypeRules(avg);
    if IsTop(avg, a) {
      TopUnique(avg, a, r[0].axis);
    }
    if DetermineValueType(avg) == SingleAxisType(a) {
      SingleAxisTypeInjective(a, r[0].axis);
    }
  }

  /** A top score of exactly 65 is not yet a balance type: the top axis's own type. */
  lemma TopAtSixtyFiveIsSingle(avg: Scores, a: Axis)
    requires CoreComplete(avg) && IsTop(avg, a) && avg[a] == 65
    ensures DetermineValueType(avg) == SingleAxisType(a)
  {
    SingleTypeRule(avg, a);
  }
}
