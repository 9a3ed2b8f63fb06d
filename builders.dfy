/** `recommendBuilderTypes` (home-diagnosis/src/lib/diagnose.ts): threshold rules on the
    averaged axis scores award points and reasons to eight builder categories; the
    categories with points are ranked and the first three are recommended. */
module Recommending {
  import opened Types
  import opened Wrappers
  import opened Ranking

  /** The reason keys of BUILDER_REASONS. Each threshold rule awards its points under
      one key, named after the rule. */
  datatype RuleKey = CostHigh | PerfHigh | DesignHigh | LifeHigh | FlexHigh
                   | InvolveHigh | InvolveLow | AssureHigh | AssureLow

  const RuleKeys: seq<RuleKey> :=
    [CostHigh, PerfHigh, DesignHigh, LifeHigh, FlexHigh, InvolveHigh, InvolveLow, AssureHigh, AssureLow]

  /** BUILDER_TYPES: the label of each category. */
  function Label(b: Builder): string {
    match b
    case B1 => "規格・パッケージ（選択肢少なめ/コスパ）"
    case B2 => "セミオーダー（標準＋一部カスタム）"
    case B3 => "自由設計・提案型（間取り/動線提案が得意）"
    case B4 => "設計事務所/デザイン工務店（意匠特化）"
    case B5 => "性能特化（断熱/気密/パッシブ等に強い）"
    case B6 => "地元工務店・柔軟対応（現場対応/融通）"
    case B7 => "体制・保証重視（仕組み/保証/手続きが整う）"
    case B8 => "透明性・第三者確認重視（内訳/履歴/検査）"
  }

  /** The reason text BUILDER_REASONS gives builder b for a rule, if it has one. */
  function ReasonText(b: Builder, key: RuleKey): Option<string> {
    match (b, key)
    case (B1, CostHigh) => Some("予算管理が明確で、標準パッケージでコスパが高い")
    case (B1, InvolveLow) => Some("選択肢が絞られているので、決めやすい")
    case (B2, CostHigh) => Some("標準仕様ベースでコストを抑えつつカスタムも可能")
    case (B2, InvolveLow) => Some("標準をベースに一部だけ変更できる")
    case (B3, LifeHigh) => Some("生活動線を起点とした間取り提案が得意")
    case (B3, FlexHigh) => Some("将来の変更を見据えた柔軟な設計が可能")
    case (B3, InvolveHigh) => Some("打合せを重ねて、納得いく間取りを一緒に作れる")
    case (B4, DesignHigh) => Some("意匠・世界観を追求した設計が得意")
    case (B4, InvolveHigh) => Some("素材やディテールにこだわった提案が受けられる")
    case (B5, PerfHigh) => Some("断熱・気密・換気の実務が標準化されている")
    case (B6, LifeHigh) => Some("生活シーンに合わせた柔軟な対応が可能")
    case (B6, FlexHigh) => Some("将来の変更相談にも乗りやすい")
    case (B6, InvolveHigh) => Some("現場レベルで融通が利き、相談しやすい")
    case (B6, AssureLow) => Some("任せやすく、柔軟に対応してくれる")
    case (B7, FlexHigh) => Some("保証体制が整っており、長期の安心感がある")
    case (B7, InvolveLow) => Some("手続き・保証が仕組み化されていて安心")
    case (B7, AssureHigh) => Some("契約・保証・手続きの体制が整っている")
    case (B8, AssureHigh) => Some("内訳開示・第三者検査など透明性の仕組みがある")
    case _ => None
  }

  const Separator: string := "／"
  const Fallback: string := "バランスの取れた選択肢"

  /** One addScore call: a builder type, the points, the reason key. */
  datatype Award = Award(builder: Builder, points: int, key: RuleKey)

  /** The addScore calls a rule makes when it fires, in source order. */
  function RuleAwards(key: RuleKey): seq<Award> {
    match key
    case CostHigh => [Award(B1, 3, key), Award(B2, 2, key)]
    case PerfHigh => [Award(B5, 3, key)]
    case DesignHigh => [Award(B4, 3, key)]
    case LifeHigh => [Award(B3, 2, key), Award(B6, 1, key)]
    case FlexHigh => [Award(B3, 1, key), Award(B6, 2, key), Award(B7, 1, key)]
    case InvolveHigh => [Award(B3, 2, key), Award(B4, 2, key), Award(B6, 2, key)]
    case InvolveLow => [Award(B1, 2, key), Award(B2, 2, key), Award(B7, 2, key)]
    case AssureHigh => [Award(B8, 3, key), Award(B7, 2, key)]
    case AssureLow => [Award(B6, 1, key)]
  }

  /** The threshold of each rule: 70 or more is high, 40 or less is low. */
  predicate Fires(key: RuleKey, core: Scores, support: Scores)
    requires CoreComplete(core) && SupportComplete(support)
  {
    match key
    case CostHigh => core[COST] >= 70
    case PerfHigh => core[PERF] >= 70
    case DesignHigh => core[DESIGN] >= 70
    case LifeHigh => core[LIFE] >= 70
    case FlexHigh => core[FLEX] >= 70
    case InvolveHigh => support[INVOLVE] >= 70
    case InvolveLow => support[INVOLVE] <= 40
    case AssureHigh => support[ASSURE] >= 70
    case AssureLow => support[ASSURE] <= 40
  }

  function Fired(key: RuleKey, core: Scores, support: Scores): seq<Award>
    requires CoreComplete(core) && SupportComplete(support)
  {
    if Fires(key, core, support) then RuleAwards(key) else []
  }

  /** All addScore calls of one run, rule by rule in source order. */
  function Awards(core: Scores, support: Scores): seq<Award>
    requires CoreComplete(core) && SupportComplete(support)
  {
    Fired(CostHigh, core, support) + Fired(PerfHigh, core, support) + Fired(DesignHigh, core, support) +
    Fired(LifeHigh, core, support) + Fired(FlexHigh, core, support) + Fired(InvolveHigh, core, support) +
    Fired(InvolveLow, core, support) + Fired(AssureHigh, core, support) + Fired(AssureLow, core, support)
  }

  /** The points a category has collected from the awards. */
  function Points(aw: seq<Award>, b: Builder): int {
    if aw == [] then 0
    else
      var w := aw[|aw| - 1];
      Points(aw[..|aw| - 1], b) + (if w.builder == b then w.points else 0)
  }

  /** A reason is added when it exists, is not empty, and is not listed yet. */
  function AddReason(rs: seq<string>, r: Option<string>): seq<string> {
    if r.Some? && r.value != "" && r.value !in rs then rs + [r.value] else rs
  }

  /** The reasons a category has collected from the awards. */
  function ReasonsOf(aw: seq<Award>, b: Builder): seq<string> {
    if aw == [] then []
    else
      var w := aw[|aw| - 1];
      var rs := ReasonsOf(aw[..|aw| - 1], b);
      if w.builder == b then AddReason(rs, ReasonText(w.builder, w.key)) else rs
  }

  /** One more award changes only its own category's points and reasons. */
  lemma AwardStep(aw: seq<Award>, w: Award, b: Builder)
    ensures Points(aw + [w], b) == Points(aw, b) + (if w.builder == b then w.points else 0)
    ensures ReasonsOf(aw + [w], b) ==
      if w.builder == b then AddReason(ReasonsOf(aw, b), ReasonText(w.builder, w.key)) else ReasonsOf(aw, b)
  {
    assert (aw + [w])[..|aw|] == aw;
  }

  /** The scores and reasons records hold what the awards give every category. */
  ghost predicate Tallies(scores: map<Builder, int>, reasons: map<Builder, seq<string>>, aw: seq<Award>) {
    forall b: Builder :: b in scores && b in reasons && scores[b] == Points(aw, b) && reasons[b] == ReasonsOf(aw, b)
  }

  lemma TallyStep(scores: map<Builder, int>, reasons: map<Builder, seq<string>>, aw: seq<Award>, w: Award,
                  scores': map<Builder, int>, reasons': map<Builder, seq<string>>)
    requires Tallies(scores, reasons, aw)
    requires forall b: Builder :: b in scores' && scores'[b] == if b == w.builder then scores[b] + w.points else scores[b]
    requires forall b: Builder ::
               b in reasons' && reasons'[b] == if b == w.builder then AddReason(reasons[b], ReasonText(b, w.key)) else reasons[b]
    ensures Tallies(scores', reasons', aw + [w])
  {
    forall b: Builder {
      AwardStep(aw, w, b);
    }
  }

  /** The `scores` and `reasons` records and the `addScore` closure that updates them. */
  class Tally {
    var scores: map<Builder, int>
    var reasons: map<Builder, seq<string>>
    /** The addScore calls made so far. */
    ghost var awarded: seq<Award>

    ghost predicate Valid()
      reads this
    {
      Tallies(scores, reasons, awarded)
    }

    /** Every category starts at 0 points with no reasons. */
    constructor ()
      ensures Valid() && awarded == []
    {
      scores := map[B1 := 0, B2 := 0, B3 := 0, B4 := 0, B5 := 0, B6 := 0, B7 := 0, B8 := 0];
      reasons := map[B1 := [], B2 := [], B3 := [], B4 := [], B5 := [], B6 := [], B7 := [], B8 := []];
      awarded := [];
      new;
      forall b: Builder ensures b in scores && b in reasons {
        var k := BuilderOrd(b);
      }
    }

    /** addScore: adds the points and, once, the category's reason for the key. */
    method AddScore(bt: Builder, pts: int, reasonKey: RuleKey)
      requires Valid()
      modifies this
      ensures Valid() && awarded == old(awarded) + [Award(bt, pts, reasonKey)]
      ensures scores == old(scores)[bt := old(scores)[bt] + pts]
      ensures reasons == old(reasons)[bt := AddReason(old(reasons)[bt], ReasonText(bt, reasonKey))]
    {
      ghost var scores0, reasons0 := scores, reasons;
      scores := scores[bt := scores[bt] + pts];
      var r := ReasonText(bt, reasonKey);
      if r.Some? && r.value != "" && r.value !in reasons[bt] {
        reasons := reasons[bt := reasons[bt] + [r.value]];
      }
      TallyStep(scores0, reasons0, awarded, Award(bt, pts, reasonKey), scores, reasons);
      awarded := awarded + [Award(bt, pts, reasonKey)];
    }
  }

  /** One element of the intermediate list: id, score, label and reasons; the label is
      looked up when the output record is made. */
  datatype Candidate = Candidate(id: Builder, score: int, reasons: seq<string>)

  function CandScore(c: Candidate): int {
    c.score
  }

  function CandOrd(c: Candidate): int {
    BuilderOrd(c.id)
  }

  /** The categories B1..B(n) with a positive score, in Object.keys order. */
  function Candidates(scores: map<Builder, int>, reasons: map<Builder, seq<string>>, n: nat): seq<Candidate>
    requires n <= |Builders|
    requires forall b: Builder :: b in scores && b in reasons
  {
    if n == 0 then []
    else
      var id := Builders[n - 1];
      var rest := Candidates(scores, reasons, n - 1);
      if scores[id] > 0 then rest + [Candidate(id, scores[id], reasons[id])] else rest
  }

  /** At most the first three elements. */
  function FirstThree<T>(s: seq<T>): (r: seq<T>)
    ensures |r| <= 3 && r <= s
    ensures |s| <= 3 ==> r == s
  {
    if |s| <= 3 then s else s[..3]
  }

  /** JavaScript's join: the strings with the separator between neighbours. */
  function Join(rs: seq<string>, sep: string): string {
    if rs == [] then ""
    else if |rs| == 1 then rs[0]
    else rs[0] + sep + Join(rs[1..], sep)
  }

  /** The joined reasons, or the fallback text when the join is empty. */
  function ReasonLine(rs: seq<string>): string {
    var joined := Join(rs, Separator);
    if joined == "" then Fallback else joined
  }

  function Recommend(c: Candidate): BuilderRecommendation {
    BuilderRecommendation(c.id, Label(c.id), ReasonLine(c.reasons))
  }

  /** Filter, stable sort by descending score, first three, then the output records. */
  function Select(scores: map<Builder, int>, reasons: map<Builder, seq<string>>): seq<BuilderRecommendation>
    requires forall b: Builder :: b in scores && b in reasons
  {
    var top := FirstThree(SortDesc(Candidates(scores, reasons, |Builders|), CandScore));
    seq(|top|, i requires 0 <= i < |top| => Recommend(top[i]))
  }

  function ScoreMap(aw: seq<Award>): map<Builder, int> {
    map b | b in Builders :: Points(aw, b)
  }

  function ReasonMap(aw: seq<Award>): map<Builder, seq<string>> {
    map b | b in Builders :: ReasonsOf(aw, b)
  }

  /** The recommendations a tally of the given awards leads to. */
  function RecommendFrom(aw: seq<Award>): seq<BuilderRecommendation> {
    AllBuilders();
    Select(ScoreMap(aw), ReasonMap(aw))
  }

  /** What recommendBuilderTypes returns for the given averages. */
  function RecommendSpec(core: Scores, support: Scores): seq<BuilderRecommendation>
    requires CoreComplete(core) && SupportComplete(support)
  {
    RecommendFrom(Awards(core, support))
  }

  lemma AllBuilders()
    ensures forall b: Builder :: b in Builders
  {
    forall b: Builder ensures b in Builders {
      var k := BuilderOrd(b);
    }
  }

  /** recommendBuilderTypes */
  method RecommendBuilderTypes(coreAvg: Scores, supportAvg: Scores) returns (recs: seq<BuilderRecommendation>)
    requires CoreComplete(coreAvg) && SupportComplete(supportAvg)
    ensures recs == RecommendSpec(coreAvg, supportAvg)
  {
    var t := new Tally();
    ApplyRules(t, coreAvg, supportAvg);
    TallyMaps(t);
    var top := FirstThree(SortDesc(Candidates(t.scores, t.reasons, |Builders|), CandScore));
    recs := seq(|top|, i requires 0 <= i < |top| => Recommend(top[i]));
  }

  /** The scores and reasons of a valid tally are those its awards give. */
  lemma TallyMaps(t: Tally)
    requires t.Valid()
    ensures t.scores == ScoreMap(t.awarded) && t.reasons == ReasonMap(t.awarded)
  {
    AllBuilders();
  }

  /** The nine threshold rules, in source order. */
  method ApplyRules(t: Tally, coreAvg: Scores, supportAvg: Scores)
    requires CoreComplete(coreAvg) && SupportComplete(supportAvg)
    requires t.Valid() && t.awarded == []
    modifies t
    ensures t.Valid() && t.awarded == Awards(coreAvg, supportAvg)
  {
    ApplyRule(t, CostHigh, coreAvg, supportAvg);
    assert t.awarded == Fired(CostHigh, coreAvg, supportAvg);
    ApplyRule(t, PerfHigh, coreAvg, supportAvg);
    ApplyRule(t, DesignHigh, coreAvg, supportAvg);
    ApplyRule(t, LifeHigh, coreAvg, supportAvg);
    ApplyRule(t, FlexHigh, coreAvg, supportAvg);
    ApplyRule(t, InvolveHigh, coreAvg, supportAvg);
    ApplyRule(t, InvolveLow, coreAvg, supportAvg);
    ApplyRule(t, AssureHigh, coreAvg, supportAvg);
    ApplyRule(t, AssureLow, coreAvg, supportAvg);
  }

  /** One threshold rule: when it fires, its addScore calls in source order. */
  method ApplyRule(t: Tally, key: RuleKey, coreAvg: Scores, supportAvg: Scores)
    requires CoreComplete(coreAvg) && SupportComplete(supportAvg)
    requires t.Valid()
    modifies t
    ensures t.Valid() && t.awarded == old(t.awarded) + Fired(key, coreAvg, supportAvg)
  {
    match key
    case CostHigh =>
      if coreAvg[COST] >= 70 {
        t.AddScore(B1, 3, key);
        t.AddScore(B2, 2, key);
        AppendTwo(old(t.awarded), Award(B1, 3, key), Award(B2, 2, key));
      }
    case PerfHigh =>
      if coreAvg[PERF] >= 70 {
        t.AddScore(B5, 3, key);
      }
    case DesignHigh =>
      if coreAvg[DESIGN] >= 70 {
        t.AddScore(B4, 3, key);
      }
    case LifeHigh =>
      if coreAvg[LIFE] >= 70 {
        t.AddScore(B3, 2, key);
        t.AddScore(B6, 1, key);
        AppendTwo(old(t.awarded), Award(B3, 2, key), Award(B6, 1, key));
      }
    case FlexHigh =>
      if coreAvg[FLEX] >= 70 {
        t.AddScore(B3, 1, key);
        t.AddScore(B6, 2, key);
        t.AddScore(B7, 1, key);
        AppendThree(old(t.awarded), Award(B3, 1, key), Award(B6, 2, key), Award(B7, 1, key));
      }
    case InvolveHigh =>
      if supportAvg[INVOLVE] >= 70 {
        t.AddScore(B3, 2, key);
        t.AddScore(B4, 2, key);
        t.AddScore(B6, 2, key);
        AppendThree(old(t.awarded), Award(B3, 2, key), Award(B4, 2, key), Award(B6, 2, key));
      }
    case InvolveLow =>
      if supportAvg[INVOLVE] <= 40 {
        t.AddScore(B1, 2, key);
        t.AddScore(B2, 2, key);
        t.AddScore(B7, 2, key);
        AppendThree(old(t.awarded), Award(B1, 2, key), Award(B2, 2, key), Award(B7, 2, key));
      }
    case AssureHigh =>
      if supportAvg[ASSURE] >= 70 {
        t.AddScore(B8, 3, key);
        t.AddScore(B7, 2, key);
        AppendTwo(old(t.awarded), Award(B8, 3, key), Award(B7, 2, key));
      }
    case AssureLow =>
      if supportAvg[ASSURE] <= 40 {
        t.AddScore(B6, 1, key);
      }
  }

  lemma AppendTwo<T>(s: seq<T>, x: T, y: T)
    ensures s + [x] + [y] == s + [x, y]
  {
  }

  lemma AppendThree<T>(s: seq<T>, x: T, y: T, z: T)
    ensures s + [x] + [y] + [z] == s + [x, y, z]
  {
  }

  /** The threshold rules, with the facts BUILDER_REASONS is written to guarantee: every
      rule awards something, every award is positive and every award's key has a
      non-empty reason for its category. */
  lemma RuleAwardsFacts(key: RuleKey)
    ensures RuleAwards(key) != []
    ensures forall w :: w in RuleAwards(key) ==> w.key == key && w.points > 0 && ReasonText(w.builder, w.key).Some?
  {
    match key
    case CostHigh =>
    case PerfHigh =>
    case DesignHigh =>
    case LifeHigh =>
    case FlexHigh =>
    case InvolveHigh =>
    case InvolveLow =>
    case AssureHigh =>
    case AssureLow =>
  }

  /** No reason text of the table is empty. */
  lemma ReasonTextsNonEmpty(b: Builder, key: RuleKey)
    requires ReasonText(b, key).Some?
    ensures ReasonText(b, key).value != ""
  {
  }

  predicate WellFormed(aw: seq<Award>) {
    forall w :: w in aw ==> w.points > 0 && ReasonText(w.builder, w.key).Some? && ReasonText(w.builder, w.key).value != ""
  }

  /** The awards of a run are well-formed, and there are none exactly when no rule fires. */
  lemma AwardsFacts(core: Scores, support: Scores)
    requires CoreComplete(core) && SupportComplete(support)
    ensures WellFormed(Awards(core, support))
    ensures Awards(core, support) == [] <==> forall key :: !Fires(key, core, support)
  {
    forall key: RuleKey {
      RuleAwardsFacts(key);
    }
    forall b: Builder, key: RuleKey | ReasonText(b, key).Some? {
      ReasonTextsNonEmpty(b, key);
    }
    var aw := Awards(core, support);
    if aw == [] {
      forall key: RuleKey ensures !Fires(key, core, support) {
        assert |Fired(key, core, support)| <= |aw|;
      }
    }
  }

  predicate Awarded(aw: seq<Award>, b: Builder) {
    exists w :: w in aw && w.builder == b
  }

  /** With positive awards, a category has points exactly when it has been awarded
      something. */
  lemma {:induction false} PointsFacts(aw: seq<Award>, b: Builder)
    requires WellFormed(aw)
    ensures Points(aw, b) >= 0
    ensures Points(aw, b) > 0 <==> Awarded(aw, b)
  {
    if aw != [] {
      var prev, w := aw[..|aw| - 1], aw[|aw| - 1];
      assert aw == prev + [w];
      PointsFacts(prev, b);
      if Awarded(aw, b) && !Awarded(prev, b) {
        assert w.builder == b;
      }
    }
  }

  /** Every collected reason is a non-empty text, none is collected twice, and a category
      that has been awarded something has at least one. */
  lemma {:induction false} ReasonsFacts(aw: seq<Award>, b: Builder)
    requires WellFormed(aw)
    ensures forall r :: r in ReasonsOf(aw, b) ==> r != ""
    ensures forall i, j :: 0 <= i < j < |ReasonsOf(aw, b)| ==> ReasonsOf(aw, b)[i] != ReasonsOf(aw, b)[j]
    ensures Awarded(aw, b) ==> ReasonsOf(aw, b) != []
  {
    if aw != [] {
      var prev, w := aw[..|aw| - 1], aw[|aw| - 1];
      assert aw == prev + [w];
      ReasonsFacts(prev, b);
      var rs0 := ReasonsOf(prev, b);
      if w.builder == b {
        var t := ReasonText(w.builder, w.key);
        assert w in aw;
        if t.value !in rs0 {
          var rs := rs0 + [t.value];
          forall i, j | 0 <= i < j < |rs| ensures rs[i] != rs[j] {
            assert rs[i] == rs0[i] && rs0[i] in rs0;
            if j < |rs0| {
              assert rs[j] == rs0[j];
            }
          }
        }
      } else if Awarded(aw, b) {
        var v :| v in aw && v.builder == b;
        assert v in prev;
      }
    }
  }

  /** A join whose first part is not empty is not empty. */
  lemma JoinNonEmpty(rs: seq<string>, sep: string)
    requires rs != [] && rs[0] != ""
    ensures Join(rs, sep) != ""
  {
    if |rs| > 1 {
      assert |Join(rs, sep)| >= |rs[0]|;
    }
  }

  predicate Listed(cs: seq<Candidate>, b: Builder) {
    exists c :: c in cs && c.id == b
  }

  lemma {:induction false} CandidatesFacts(scores: map<Builder, int>, reasons: map<Builder, seq<string>>, n: nat)
    requires n <= |Builders|
    requires forall b: Builder :: b in scores && b in reasons
    ensures forall c :: c in Candidates(scores, reasons, n) ==>
      c.score == scores[c.id] > 0 && c.reasons == reasons[c.id] && BuilderOrd(c.id) < n
  {
    if n > 0 {
      CandidatesFacts(scores, reasons, n - 1);
      var id := Builders[n - 1];
      assert BuilderOrd(id) == n - 1;
    }
  }

  lemma {:induction false} CandidatesInOrder(scores: map<Builder, int>, reasons: map<Builder, seq<string>>, n: nat)
    requires n <= |Builders|
    requires forall b: Builder :: b in scores && b in reasons
    ensures InOrder(Candidates(scores, reasons, n), CandOrd)
  {
    if n > 0 {
      var cs0, cs := Candidates(scores, reasons, n - 1), Candidates(scores, reasons, n);
      CandidatesInOrder(scores, reasons, n - 1);
      CandidatesFacts(scores, reasons, n - 1);
      assert BuilderOrd(Builders[n - 1]) == n - 1;
      forall i, j | 0 <= i < j < |cs| ensures CandOrd(cs[i]) < CandOrd(cs[j]) {
        assert cs[i] == cs0[i] && cs0[i] in cs0;
        if j < |cs0| {
          assert cs[j] == cs0[j];
        }
      }
    }
  }

  lemma {:induction false} CandidatesCover(scores: map<Builder, int>, reasons: map<Builder, seq<string>>, n: nat)
    requires n <= |Builders|
    requires forall b: Builder :: b in scores && b in reasons
    ensures forall b: Builder :: BuilderOrd(b) < n ==> (Listed(Candidates(scores, reasons, n), b) <==> scores[b] > 0)
  {
    if n > 0 {
      CandidatesCover(scores, reasons, n - 1);
      CandidatesFacts(scores, reasons, n - 1);
      forall b: Builder | BuilderOrd(b) < n
        ensures Listed(Candidates(scores, reasons, n), b) <==> scores[b] > 0
      {
        CandidatesCoverStep(scores, reasons, n, b);
      }
    }
  }

  lemma CandidatesCoverStep(scores: map<Builder, int>, reasons: map<Builder, seq<string>>, n: nat, b: Builder)
    requires 0 < n <= |Builders| && BuilderOrd(b) < n
    requires forall b: Builder :: b in scores && b in reasons
    requires var cs0 := Candidates(scores, reasons, n - 1);
      (forall c :: c in cs0 ==> BuilderOrd(c.id) < n - 1) &&
      (BuilderOrd(b) < n - 1 ==> (Listed(cs0, b) <==> scores[b] > 0))
    ensures Listed(Candidates(scores, reasons, n), b) <==> scores[b] > 0
  {
    var cs0 := Candidates(scores, reasons, n - 1);
    var id := Builders[n - 1];
    var c := Candidate(id, scores[id], reasons[id]);
    assert BuilderOrd(id) == n - 1;
    if scores[id] > 0 {
      assert Candidates(scores, reasons, n) == cs0 + [c];
      if b == id {
        assert c in cs0 + [c];
      }
    }
  }

  /** Category x with px points is listed ahead of y with py: more points, or as many
      and earlier in B1..B8. */
  predicate RanksAhead(x: Builder, px: int, y: Builder, py: int) {
    px > py || (px == py && BuilderOrd(x) < BuilderOrd(y))
  }

  /** The candidates of a selection and where the selected ones sit among them. */
  lemma Selected(scores: map<Builder, int>, reasons: map<Builder, seq<string>>) returns (cs: seq<Candidate>, sorted: seq<Candidate>)
    requires forall b: Builder :: b in scores && b in reasons
    ensures multiset(sorted) == multiset(cs) && Ranked(sorted, CandScore, CandOrd)
    ensures |Select(scores, reasons)| == (if |sorted| <= 3 then |sorted| else 3)
    ensures forall i :: 0 <= i < |Select(scores, reasons)| ==> Select(scores, reasons)[i] == Recommend(sorted[i])
    ensures forall c :: c in cs ==> c.score == scores[c.id] > 0 && c.reasons == reasons[c.id]
    ensures forall b: Builder :: Listed(cs, b) <==> scores[b] > 0
  {
    cs := Candidates(scores, reasons, |Builders|);
    sorted := SortDesc(cs, CandScore);
    SelectHead(scores, reasons, sorted);
    CandidatesFacts(scores, reasons, |Builders|);
    CandidatesInOrder(scores, reasons, |Builders|);
    CandidatesCover(scores, reasons, |Builders|);
    SortDescRanked(cs, CandScore, CandOrd);
  }

  /** The selection is the records of the first three sorted candidates. */
  lemma SelectHead(scores: map<Builder, int>, reasons: map<Builder, seq<string>>, sorted: seq<Candidate>)
    requires forall b: Builder :: b in scores && b in reasons
    requires sorted == SortDesc(Candidates(scores, reasons, |Builders|), CandScore)
    ensures |Select(scores, reasons)| == (if |sorted| <= 3 then |sorted| else 3)
    ensures forall i :: 0 <= i < |Select(scores, reasons)| ==> Select(scores, reasons)[i] == Recommend(sorted[i])
  {
  }

  lemma SelectRanked(scores: map<Builder, int>, reasons: map<Builder, seq<string>>)
    requires forall b: Builder :: b in scores && b in reasons
    ensures var r := Select(scores, reasons);
      |r| <= 3 &&
      (forall i :: 0 <= i < |r| ==>
        scores[r[i].id] > 0 && r[i].labelText == Label(r[i].id) && r[i].reason == ReasonLine(reasons[r[i].id])) &&
      (forall i, j :: 0 <= i < j < |r| ==> RanksAhead(r[i].id, scores[r[i].id], r[j].id, scores[r[j].id]))
  {
    var r := Select(scores, reasons);
    var cs, sorted := Selected(scores, reasons);
    forall i | 0 <= i < |r| ensures sorted[i] in cs {
      assert sorted[i] in multiset(cs);
    }
    forall i, j | 0 <= i < j < |r| ensures RanksAhead(r[i].id, scores[r[i].id], r[j].id, scores[r[j].id]) {
      assert sorted[i] in cs && sorted[j] in cs;
      assert Before(sorted[i], sorted[j], CandScore, CandOrd);
    }
  }

  lemma SelectTopThree(scores: map<Builder, int>, reasons: map<Builder, seq<string>>, b: Builder, r: seq<BuilderRecommendation>)
    requires forall b: Builder :: b in scores && b in reasons
    requires r == Select(scores, reasons)
    requires scores[b] > 0
    requires forall i :: 0 <= i < |r| ==> r[i].id != b
    ensures |r| == 3 && forall i :: 0 <= i < 3 ==> RanksAhead(r[i].id, scores[r[i].id], b, scores[b])
  {
    var cs, sorted := Selected(scores, reasons);
    var c :| c in cs && c.id == b;
    assert c in multiset(sorted);
    var k :| 0 <= k < |sorted| && sorted[k] == c;
    assert k >= |r|;
    forall i | 0 <= i < 3 ensures RanksAhead(r[i].id, scores[r[i].id], b, scores[b]) {
      assert sorted[i] in multiset(cs);
      assert Before(sorted[i], sorted[k], CandScore, CandOrd);
    }
  }

  lemma SelectEmpty(scores: map<Builder, int>, reasons: map<Builder, seq<string>>, r: seq<BuilderRecommendation>)
    requires forall b: Builder :: b in scores && b in reasons
    requires r == Select(scores, reasons)
    ensures r == [] <==> forall b: Builder :: scores[b] <= 0
  {
    var cs, sorted := Selected(scores, reasons);
    if cs != [] {
      assert Listed(cs, cs[0].id);
    }
    if exists b: Builder :: scores[b] > 0 {
      var b: Builder :| scores[b] > 0;
      var c :| c in cs && c.id == b;
    }
  }

  lemma ScoreMapPoints(aw: seq<Award>)
    ensures forall b: Builder :: b in ScoreMap(aw) && ScoreMap(aw)[b] == Points(aw, b)
    ensures forall b: Builder :: b in ReasonMap(aw) && ReasonMap(aw)[b] == ReasonsOf(aw, b)
  {
    AllBuilders();
  }

  /** At most three categories are recommended, each one with points and under its own
      label, ranked by points with ties in B1..B8 order. */
  lemma RecommendationsRanked(aw: seq<Award>)
    ensures var r := RecommendFrom(aw);
      |r| <= 3 &&
      (forall i :: 0 <= i < |r| ==> Points(aw, r[i].id) > 0 && r[i].labelText == Label(r[i].id)) &&
      (forall i, j :: 0 <= i < j < |r| ==> RanksAhead(r[i].id, Points(aw, r[i].id), r[j].id, Points(aw, r[j].id)))
  {
    ScoreMapPoints(aw);
    SelectRanked(ScoreMap(aw), ReasonMap(aw));
  }

  /** No category with points is passed over: one that is not recommended comes after
      three that are. */
  lemma TopThreeChosen(aw: seq<Award>, b: Builder)
    requires Points(aw, b) > 0
    requires forall i :: 0 <= i < |RecommendFrom(aw)| ==> RecommendFrom(aw)[i].id != b
    ensures var r := RecommendFrom(aw);
      |r| == 3 && forall i :: 0 <= i < 3 ==> RanksAhead(r[i].id, Points(aw, r[i].id), b, Points(aw, b))
  {
    ScoreMapPoints(aw);
    SelectTopThree(ScoreMap(aw), ReasonMap(aw), b, RecommendFrom(aw));
  }

  /** Each recommendation gives its category's collected reasons joined with '／', never
      the fallback text, and no reason twice. */
  lemma RecommendationReasons(aw: seq<Award>)
    requires WellFormed(aw)
    ensures var r := RecommendFrom(aw);
      forall i :: 0 <= i < |r| ==>
        var rs := ReasonsOf(aw, r[i].id);
        rs != [] && r[i].reason == Join(rs, Separator) &&
        forall x, y :: 0 <= x < y < |rs| ==> rs[x] != rs[y]
  {
    var r := RecommendFrom(aw);
    ScoreMapPoints(aw);
    SelectRanked(ScoreMap(aw), ReasonMap(aw));
    forall i | 0 <= i < |r|
      ensures var rs := ReasonsOf(aw, r[i].id);
        rs != [] && r[i].reason == Join(rs, Separator) &&
        forall x, y :: 0 <= x < y < |rs| ==> rs[x] != rs[y]
    {
      var rs := ReasonsOf(aw, r[i].id);
      PointsFacts(aw, r[i].id);
      ReasonsFacts(aw, r[i].id);
      assert rs[0] in rs;
      JoinNonEmpty(rs, Separator);
    }
  }

  /** A tally of well-formed awards recommends nothing exactly when there are no awards. */
  lemma RecommendFromEmpty(aw: seq<Award>)
    requires WellFormed(aw)
    ensures RecommendFrom(aw) == [] <==> aw == []
  {
    ScoreMapPoints(aw);
    SelectEmpty(ScoreMap(aw), ReasonMap(aw), RecommendFrom(aw));
    if aw != [] {
      PointsFacts(aw, aw[0].builder);
    }
    forall b: Builder ensures Points(aw, b) <= 0 <==> !Awarded(aw, b) {
      PointsFacts(aw, b);
    }
  }

  /** Nothing is recommended exactly when no threshold rule fires. */
  lemma NoRuleNoRecommendation(core: Scores, support: Scores)
    requires CoreComplete(core) && SupportComplete(support)
    ensures RecommendSpec(core, support) == [] <==> forall key :: !Fires(key, core, support)
  {
    AwardsFacts(core, support);
    RecommendFromEmpty(Awards(core, support));
  }
}
