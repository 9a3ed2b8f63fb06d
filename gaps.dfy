/** `calculateGaps` (home-diagnosis/src/lib/diagnose.ts): in couple mode the two
    partners' axis scores are compared axis by axis; a difference of 12 or more is
    reported, graded 'check' below 20 and 'risk' from 20 on, largest difference first. */
module Gaps {
  import opened Types
  import opened Ranking

  /** The catalog's alignment questions per axis (`axisAlignmentQuestions`). */
  type Alignment = map<Axis, seq<string>>

  function Abs(x: int): (r: nat)
    ensures r == x || r == -x
  {
    if x < 0 then -x else x
  }

  /** The severity of a gap between two scores. */
  function Level(gap: int): (l: GapLevel)
    ensures l == Ok <==> gap < 12
    ensures l == Check <==> 12 <= gap < 20
    ensures l == Risk <==> gap >= 20
  {
    if gap < 12 then Ok
    else if gap < 20 then Check
    else Risk
  }

  /** The axis's alignment questions, none when the catalog has no entry for it. */
  function AlignmentFor(al: Alignment, axis: Axis): seq<string> {
    if axis in al then al[axis] else []
  }

  function GapKey(g: GapInfo): int {
    g.gap
  }

  function GapOrd(g: GapInfo): int {
    Ord(g.axis)
  }

  /** The entries pushed while visiting the first n axes of ALL_AXES. */
  function Pushed(a: Scores, b: Scores, al: Alignment, n: nat): seq<GapInfo>
    requires Complete(a) && Complete(b) && n <= |AllAxes|
  {
    if n == 0 then []
    else
      var axis := AllAxes[n - 1];
      var gap := Abs(a[axis] - b[axis]);
      var level := Level(gap);
      if level != Ok then Pushed(a, b, al, n - 1) + [GapInfo(axis, gap, level, AlignmentFor(al, axis))]
      else Pushed(a, b, al, n - 1)
  }

  /** The gap list: every axis visited, then the stable sort by descending gap. */
  function GapsSpec(a: Scores, b: Scores, al: Alignment): seq<GapInfo>
    requires Complete(a) && Complete(b)
  {
    SortDesc(Pushed(a, b, al, |AllAxes|), GapKey)
  }

  /** calculateGaps */
  method CalculateGaps(scoresA: Scores, scoresB: Scores, al: Alignment) returns (gaps: seq<GapInfo>)
    requires Complete(scoresA) && Complete(scoresB)
    ensures gaps == GapsSpec(scoresA, scoresB, al)
  {
    gaps := [];
    for k := 0 to |AllAxes|
      invariant gaps == Pushed(scoresA, scoresB, al, k)
    {
      var axis := AllAxes[k];
      var gap := Abs(scoresA[axis] - scoresB[axis]);
      var level: GapLevel;
      if gap < 12 {
        level := Ok;
      } else if gap < 20 {
        level := Check;
      } else {
        level := Risk;
      }
      if level != Ok {
        gaps := gaps + [GapInfo(axis, gap, level, AlignmentFor(al, axis))];
      }
    }
    gaps := SortDesc(gaps, GapKey);
  }

  /** What an entry of the gap list says about its axis. */
  predicate Reports(a: Scores, b: Scores, al: Alignment, g: GapInfo)
    requires Complete(a) && Complete(b)
  {
    g.gap == Abs(a[g.axis] - b[g.axis]) && g.gap >= 12 &&
    (g.level == Check <==> g.gap < 20) && (g.level == Risk <==> g.gap >= 20) &&
    g.alignmentQuestions == AlignmentFor(al, g.axis)
  }

  predicate Lists(gs: seq<GapInfo>, axis: Axis) {
    exists j :: 0 <= j < |gs| && gs[j].axis == axis
  }

  lemma {:induction false} PushedReports(a: Scores, b: Scores, al: Alignment, n: nat)
    requires Complete(a) && Complete(b) && n <= |AllAxes|
    ensures forall g :: g in Pushed(a, b, al, n) ==> Reports(a, b, al, g) && Ord(g.axis) < n
  {
    if n > 0 {
      var p0, p := Pushed(a, b, al, n - 1), Pushed(a, b, al, n);
      PushedReports(a, b, al, n - 1);
      OrdAt(n - 1);
      forall g | g in p ensures Reports(a, b, al, g) && Ord(g.axis) < n {
        if g !in p0 {
          var axis := AllAxes[n - 1];
          assert g == GapInfo(axis, Abs(a[axis] - b[axis]), Level(Abs(a[axis] - b[axis])), AlignmentFor(al, axis));
        }
      }
    }
  }

  lemma {:induction false} PushedInOrder(a: Scores, b: Scores, al: Alignment, n: nat)
    requires Complete(a) && Complete(b) && n <= |AllAxes|
    ensures InOrder(Pushed(a, b, al, n), GapOrd)
  {
    if n > 0 {
      var p0, p := Pushed(a, b, al, n - 1), Pushed(a, b, al, n);
      PushedInOrder(a, b, al, n - 1);
      PushedReports(a, b, al, n - 1);
      OrdAt(n - 1);
      forall i, j | 0 <= i < j < |p| ensures GapOrd(p[i]) < GapOrd(p[j]) {
        assert p[i] == p0[i] && p0[i] in p0;
        if j < |p0| {
          assert p[j] == p0[j];
        }
      }
    }
  }

  lemma {:induction false} PushedCovers(a: Scores, b: Scores, al: Alignment, n: nat)
    requires Complete(a) && Complete(b) && n <= |AllAxes|
    ensures var p := Pushed(a, b, al, n);
      forall axis: Axis :: Ord(axis) < n ==> (Lists(p, axis) <==> Abs(a[axis] - b[axis]) >= 12)
  {
    if n > 0 {
      var p0 := Pushed(a, b, al, n - 1);
      PushedCovers(a, b, al, n - 1);
      PushedReports(a, b, al, n - 1);
      OrdAt(n - 1);
      var p := Pushed(a, b, al, n);
      forall x: Axis | Ord(x) < n ensures Lists(p, x) <==> Abs(a[x] - b[x]) >= 12 {
        PushedCoversStep(a, b, al, n, x);
      }
    }
  }

  lemma PushedCoversStep(a: Scores, b: Scores, al: Alignment, n: nat, x: Axis)
    requires Complete(a) && Complete(b) && 0 < n <= |AllAxes| && Ord(x) < n
    requires var p0 := Pushed(a, b, al, n - 1);
      (forall g :: g in p0 ==> Ord(g.axis) < n - 1) &&
      (Ord(x) < n - 1 ==> (Lists(p0, x) <==> Abs(a[x] - b[x]) >= 12))
    ensures Lists(Pushed(a, b, al, n), x) <==> Abs(a[x] - b[x]) >= 12
  {
    var p0, p := Pushed(a, b, al, n - 1), Pushed(a, b, al, n);
    OrdAt(n - 1);
    if Ord(x) < n - 1 {
      if Lists(p, x) {
        var j :| 0 <= j < |p| && p[j].axis == x;
        assert j < |p0|;
        assert p0[j] == p[j];
      }
      if Lists(p0, x) {
        var j :| 0 <= j < |p0| && p0[j].axis == x;
        assert p[j] == p0[j];
      }
    } else {
      assert x == AllAxes[n - 1];
      if Abs(a[x] - b[x]) >= 12 {
        assert p[|p0|].axis == x;
      }
    }
  }

  /** Every reported entry carries its axis's difference of at least 12 with the right
      level and the axis's alignment questions. */
  lemma GapsReported(a: Scores, b: Scores, al: Alignment)
    requires Complete(a) && Complete(b)
    ensures var gs := GapsSpec(a, b, al);
      forall k :: 0 <= k < |gs| ==> Reports(a, b, al, gs[k])
  {
    var p := Pushed(a, b, al, |AllAxes|);
    var gs := GapsSpec(a, b, al);
    PushedReports(a, b, al, |AllAxes|);
    forall k | 0 <= k < |gs| ensures Reports(a, b, al, gs[k]) {
      assert gs[k] in multiset(p);
    }
  }

  /** An axis is reported exactly when its two scores differ by 12 or more. */
  lemma GapsComplete(a: Scores, b: Scores, al: Alignment)
    requires Complete(a) && Complete(b)
    ensures forall axis: Axis :: Lists(GapsSpec(a, b, al), axis) <==> Abs(a[axis] - b[axis]) >= 12
  {
    var p := Pushed(a, b, al, |AllAxes|);
    var gs := GapsSpec(a, b, al);
    PushedCovers(a, b, al, |AllAxes|);
    forall axis: Axis ensures Lists(gs, axis) <==> Lists(p, axis) {
      if Lists(gs, axis) {
        var k :| 0 <= k < |gs| && gs[k].axis == axis;
        var j := SameElements(p, gs, k);
      }
      if Lists(p, axis) {
        var j :| 0 <= j < |p| && p[j].axis == axis;
        var k := SameElements(gs, p, j);
      }
    }
  }

  /** The list runs from the largest gap down, equal gaps in ALL_AXES order, and no axis
      is reported twice. */
  lemma GapsRanked(a: Scores, b: Scores, al: Alignment)
    requires Complete(a) && Complete(b)
    ensures var gs := GapsSpec(a, b, al);
      Ranked(gs, GapKey, GapOrd) &&
      forall i, j :: 0 <= i < j < |gs| ==> gs[i].axis != gs[j].axis
  {
    var gs := GapsSpec(a, b, al);
    PushedInOrder(a, b, al, |AllAxes|);
    SortDescRanked(Pushed(a, b, al, |AllAxes|), GapKey, GapOrd);
    GapsReported(a, b, al);
    forall i, j | 0 <= i < j < |gs| ensures gs[i].axis != gs[j].axis {
      assert Before(gs[i], gs[j], GapKey, GapOrd);
      assert Reports(a, b, al, gs[i]) && Reports(a, b, al, gs[j]);
    }
  }

  /** The list does not depend on which partner is A and which is B. */
  lemma GapsSymmetric(a: Scores, b: Scores, al: Alignment)
    requires Complete(a) && Complete(b)
    ensures GapsSpec(a, b, al) == GapsSpec(b, a, al)
  {
    PushedSymmetric(a, b, al, |AllAxes|);
  }

  lemma {:induction false} PushedSymmetric(a: Scores, b: Scores, al: Alignment, n: nat)
    requires Complete(a) && Complete(b) && n <= |AllAxes|
    ensures Pushed(a, b, al, n) == Pushed(b, a, al, n)
  {
    if n > 0 {
      PushedSymmetric(a, b, al, n - 1);
    }
  }

  /** Two identical answer sheets leave nothing to talk about. */
  lemma IdenticalScoresNoGaps(a: Scores, al: Alignment)
    requires Complete(a)
    ensures GapsSpec(a, a, al) == []
  {
    NothingPushed(a, al, |AllAxes|);
  }

  lemma {:induction false} NothingPushed(a: Scores, al: Alignment, n: nat)
    requires Complete(a) && n <= |AllAxes|
    ensures Pushed(a, a, al, n) == []
  {
    if n > 0 {
      NothingPushed(a, al, n - 1);
    }
  }
}
