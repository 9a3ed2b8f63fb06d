/** `calculateTsubo` and `classifySizeType` (home-diagnosis/src/lib/diagnose.ts): the
    household answers give a floor-area range in tsubo, a base range by household size
    plus four independent additions, and its rounded midpoint gives the size type. */
module Tsubo {
  import opened Types
  import opened Wrappers
  import opened Rounding

  /** RequirementAnswers: R01 adults, R02 current children, R03 children expected within
      ten years, R04 remote work, R05 study, R06 hobby storage (R06a: a room of its own),
      R07 overnight guests (R07a: a guest room), R08 storage preference. */
  datatype Requirements = Requirements(
    r01: int, r02: int, r03: int,
    r04: string, r05: string,
    r06: string, r06a: Option<bool>,
    r07: string, r07a: Option<bool>,
    r08: string)

  /** An addition to the lower and upper end of the range. */
  datatype Extra = Extra(low: int, high: int)

  const NoExtra := Extra(0, 0)

  function People(req: Requirements): int {
    req.r01 + (req.r02 + req.r03)
  }

  /** The base range for a household of the given size. */
  function BaseRange(people: int): (b: Extra)
    ensures b.high - b.low >= 6
    ensures 26 <= b.low <= 42 && 32 <= b.high <= 52
  {
    if people <= 2 then Extra(26, 32)
    else if people == 3 then Extra(30, 36)
    else if people == 4 then Extra(34, 40)
    else if people == 5 then Extra(38, 46)
    else Extra(42, 52)
  }

  /** A private study or workspace. */
  function StudyExtra(req: Requirements): Extra {
    if req.r05 == "private" then Extra(2, 4) else NoExtra
  }

  /** Much hobby gear: more with a dedicated room, less without one. */
  function HobbyExtra(req: Requirements): Extra {
    if req.r06 != "many" then NoExtra
    else if req.r06a == Some(true) then Extra(3, 6)
    else Extra(1, 2)
  }

  /** Weekly guests who need a guest room. */
  function GuestExtra(req: Requirements): Extra {
    if req.r07 == "weekly" && req.r07a == Some(true) then Extra(2, 4) else NoExtra
  }

  /** Maximal storage. */
  function StorageExtra(req: Requirements): Extra {
    if req.r08 == "max" then Extra(1, 2) else NoExtra
  }

  function Plus(x: Extra, y: Extra): Extra {
    Extra(x.low + y.low, x.high + y.high)
  }

  /** The ends of the range: the base range plus the four additions. */
  function Range(req: Requirements): Extra {
    Plus(Plus(Plus(Plus(BaseRange(People(req)), StudyExtra(req)), HobbyExtra(req)), GuestExtra(req)), StorageExtra(req))
  }

  /** The range with its rounded midpoint. */
  function TsuboSpec(req: Requirements): TsuboRange {
    var r := Range(req);
    TsuboRange(r.low, r.high, Mean(r.low, r.high))
  }

  /** calculateTsubo: picks the base range, then widens it answer by answer. */
  method CalculateTsubo(req: Requirements) returns (t: TsuboRange)
    ensures t == TsuboSpec(req)
  {
    var futureKids := req.r02 + req.r03;
    var people := req.r01 + futureKids;
    var low: int, high: int := BaseStep(people);
    low, high := StudyStep(req, low, high);
    low, high := HobbyStep(req, low, high);
    low, high := GuestStep(req, low, high);
    low, high := StorageStep(req, low, high);
    var mid := Mean(low, high);
    t := TsuboRange(low, high, mid);
  }

  method BaseStep(people: int) returns (low: int, high: int)
    ensures Extra(low, high) == BaseRange(people)
  {
    if people <= 2 {
      low, high := 26, 32;
    } else if people == 3 {
      low, high := 30, 36;
    } else if people == 4 {
      low, high := 34, 40;
    } else if people == 5 {
      low, high := 38, 46;
    } else {
      low, high := 42, 52;
    }
  }

  method StudyStep(req: Requirements, low: int, high: int) returns (low': int, high': int)
    ensures Extra(low', high') == Plus(Extra(low, high), StudyExtra(req))
  {
    low', high' := low, high;
    if req.r05 == "private" {
      low', high' := low + 2, high + 4;
    }
  }

  method HobbyStep(req: Requirements, low: int, high: int) returns (low': int, high': int)
    ensures Extra(low', high') == Plus(Extra(low, high), HobbyExtra(req))
  {
    low', high' := low, high;
    if req.r06 == "many" {
      if req.r06a == Some(true) {
        low', high' := low + 3, high + 6;
      } else {
        low', high' := low + 1, high + 2;
      }
    }
  }

  method GuestStep(req: Requirements, low: int, high: int) returns (low': int, high': int)
    ensures Extra(low', high') == Plus(Extra(low, high), GuestExtra(req))
  {
    low', high' := low, high;
    if req.r07 == "weekly" && req.r07a == Some(true) {
      low', high' := low + 2, high + 4;
    }
  }

  method StorageStep(req: Requirements, low: int, high: int) returns (low': int, high': int)
    ensures Extra(low', high') == Plus(Extra(low, high), StorageExtra(req))
  {
    low', high' := low, high;
    if req.r08 == "max" {
      low', high' := low + 1, high + 2;
    }
  }

  /** The range is at least six tsubo wide and its midpoint lies strictly inside it. */
  lemma TsuboBounds(req: Requirements)
    ensures var t := TsuboSpec(req);
      t.high - t.low >= 6 && t.low < t.mid < t.high &&
      26 <= t.low <= 50 && 32 <= t.high <= 68
  {
    var r := Range(req);
    assert r.high - r.low >= 6 && 26 <= r.low <= 50 && 32 <= r.high <= 68;
    RoundDivBounds(r.low + r.high, 2);
  }

  /** A private study adds exactly 2 to the lower and 4 to the upper end. */
  lemma PrivateStudyAdds(req: Requirements, other: string)
    requires other != "private"
    ensures var without, with := Range(req.(r05 := other)), Range(req.(r05 := "private"));
      with.low == without.low + 2 && with.high == without.high + 4
  {
  }

  /** The guest-room answer counts only for weekly guests: monthly or rarer guests add
      nothing whatever R07a says (yes, no or unanswered). */
  lemma GuestRoomOnlyWeekly(req: Requirements, room: Option<bool>, room': Option<bool>)
    requires req.r07 != "weekly"
    ensures Range(req.(r07a := room)) == Range(req.(r07a := room'))
  {
    var x, y := req.(r07a := room), req.(r07a := room');
    assert GuestExtra(x) == NoExtra == GuestExtra(y);
    SameOtherExtras(x, y);
  }

  /** Weekly guests add (2, 4) with a guest room, and nothing when R07a is no or
      unanswered. */
  lemma WeeklyGuestRoomAdds(req: Requirements, noRoom: Option<bool>)
    requires noRoom != Some(true)
    ensures var with, without := Range(req.(r07 := "weekly", r07a := Some(true))), Range(req.(r07 := "weekly", r07a := noRoom));
      with.low == without.low + 2 && with.high == without.high + 4
  {
    var with, without := req.(r07 := "weekly", r07a := Some(true)), req.(r07 := "weekly", r07a := noRoom);
    assert GuestExtra(with) == Extra(2, 4) && GuestExtra(without) == NoExtra;
    SameOtherExtras(with, without);
  }

  /** Two households that differ only in their guest answers get the same base range and
      the same other additions. */
  lemma SameOtherExtras(req: Requirements, req': Requirements)
    requires req' == req.(r07 := req'.r07, r07a := req'.r07a)
    ensures People(req) == People(req')
    ensures StudyExtra(req) == StudyExtra(req') && HobbyExtra(req) == HobbyExtra(req')
    ensures StorageExtra(req) == StorageExtra(req')
  {
  }

  /** A hobby room adds (3, 6) over the base, hobby gear without one only (1, 2). */
  lemma HobbyRoomAdds(req: Requirements, other: string)
    requires other != "many"
    ensures var none, gear, room := Range(req.(r06 := other)), Range(req.(r06 := "many", r06a := Some(false))),
      Range(req.(r06 := "many", r06a := Some(true)));
      gear.low == none.low + 1 && gear.high == none.high + 2 &&
      room.low == none.low + 3 && room.high == none.high + 6
  {
  }

  /** Maximal storage adds exactly 1 to the lower and 2 to the upper end. */
  lemma StorageMaxAdds(req: Requirements, other: string)
    requires other != "max"
    ensures var without, with := Range(req.(r08 := other)), Range(req.(r08 := "max"));
      with.low == without.low + 1 && with.high == without.high + 2
  {
  }

  /** A larger household never gets a smaller range. */
  lemma MorePeopleNeverSmaller(req: Requirements, more: int)
    requires more >= 0
    ensures var t, t' := Range(req), Range(req.(r01 := req.r01 + more));
      t.low <= t'.low && t.high <= t'.high
  {
    var req' := req.(r01 := req.r01 + more);
    assert StudyExtra(req') == StudyExtra(req) && HobbyExtra(req') == HobbyExtra(req);
    assert GuestExtra(req') == GuestExtra(req) && StorageExtra(req') == StorageExtra(req);
    BaseRangeMonotone(People(req), People(req'));
  }

  lemma BaseRangeMonotone(p: int, p': int)
    requires p <= p'
    ensures BaseRange(p).low <= BaseRange(p').low && BaseRange(p).high <= BaseRange(p').high
  {
  }

  /** classifySizeType */
  function ClassifySizeType(mid: int): (s: SizeType)
    ensures s == S <==> mid < 31
    ensures s == M <==> 31 <= mid < 39
    ensures s == L <==> mid >= 39
  {
    if mid < 31 then S
    else if mid < 39 then M
    else L
  }

  function SizeRank(s: SizeType): nat {
    match s
    case S => 0
    case M => 1
    case L => 2
  }

  /** A larger midpoint never gives a smaller size type. */
  lemma SizeTypeMonotone(mid: int, mid': int)
    requires mid <= mid'
    ensures SizeRank(ClassifySizeType(mid)) <= SizeRank(ClassifySizeType(mid'))
  {
  }
}
