/** The engine ranks lists with JavaScript's array sort and a comparator that puts the
    larger key first. That sort is stable, so equal keys keep the order they
    had before sorting. SortDesc is that sort; SortDescRanked states what stability buys
    when the input is listed in enumeration order. */
module Ranking {

  /** x is listed before y: a larger key, or an equal key and an earlier enumeration position. */
  predicate Before<T>(x: T, y: T, key: T -> int, ord: T -> int) {
    key(x) > key(y) || (key(x) == key(y) && ord(x) < ord(y))
  }

  predicate NonIncreasing<T>(s: seq<T>, key: T -> int) {
    forall i, j :: 0 <= i < j < |s| ==> key(s[i]) >= key(s[j])
  }

  /** Sorted by descending key, ties in enumeration order. */
  predicate Ranked<T>(s: seq<T>, key: T -> int, ord: T -> int) {
    forall i, j :: 0 <= i < j < |s| ==> Before(s[i], s[j], key, ord)
  }

  /** Listed in strictly increasing enumeration order. */
  predicate InOrder<T>(s: seq<T>, ord: T -> int) {
    forall i, j :: 0 <= i < j < |s| ==> ord(s[i]) < ord(s[j])
  }

  /** Inserts x in front of the first element whose key is not larger, so that x
      stays ahead of the equal keys that followed it in the input. */
  function Insert<T(==)>(x: T, s: seq<T>, key: T -> int): (r: seq<T>)
    ensures multiset(r) == multiset(s) + multiset{x}
    ensures r[0] == x || (s != [] && r[0] == s[0])
  {
    if s == [] || key(x) >= key(s[0]) then [x] + s
    else
      assert s == [s[0]] + s[1..];
      [s[0]] + Insert(x, s[1..], key)
  }

  /** The stable descending sort. */
  function SortDesc<T(==)>(s: seq<T>, key: T -> int): (r: seq<T>)
    ensures multiset(r) == multiset(s)
    ensures |r| == |s|
    ensures NonIncreasing(r, key)
  {
    if s == [] then []
    else
      assert s == [s[0]] + s[1..];
      var t := SortDesc(s[1..], key);
      InsertNonIncreasing(s[0], t, key);
      Insert(s[0], t, key)
  }

  lemma {:induction false} InsertNonIncreasing<T>(x: T, s: seq<T>, key: T -> int)
    requires NonIncreasing(s, key)
    ensures NonIncreasing(Insert(x, s, key), key)
  {
    if s != [] && key(x) < key(s[0]) {
      var t := Insert(x, s[1..], key);
      InsertNonIncreasing(x, s[1..], key);
      assert key(s[0]) >= key(t[0]);
      var r := [s[0]] + t;
      forall i, j | 0 <= i < j < |r| ensures key(r[i]) >= key(r[j]) {
        if i == 0 && j > 1 {
          assert key(t[0]) >= key(t[j - 1]);
        }
      }
    }
  }

  lemma BeforeTransitive<T>(x: T, y: T, z: T, key: T -> int, ord: T -> int)
    requires Before(x, y, key, ord) && Before(y, z, key, ord)
    ensures Before(x, z, key, ord)
  {
  }

  lemma {:induction false} InsertRanked<T>(x: T, s: seq<T>, key: T -> int, ord: T -> int)
    requires Ranked(s, key, ord)
    requires forall k :: 0 <= k < |s| ==> ord(x) < ord(s[k])
    ensures Ranked(Insert(x, s, key), key, ord)
  {
    if s == [] || key(x) >= key(s[0]) {
      var r := [x] + s;
      forall i, j | 0 <= i < j < |r| ensures Before(r[i], r[j], key, ord) {
        if i == 0 {
          assert r[j] == s[j - 1];
          if j - 1 > 0 {
            assert Before(s[0], s[j - 1], key, ord);
          }
        }
      }
    } else {
      var t := Insert(x, s[1..], key);
      InsertRanked(x, s[1..], key, ord);
      var r := [s[0]] + t;
      assert Before(s[0], t[0], key, ord) by {
        if t[0] != x {
          assert Before(s[0], s[1], key, ord);
        }
      }
      forall i, j | 0 <= i < j < |r| ensures Before(r[i], r[j], key, ord) {
        if i == 0 && j > 1 {
          BeforeTransitive(s[0], t[0], t[j - 1], key, ord);
        }
      }
    }
  }

  /** Stability: sorting a list given in enumeration order ranks ties by that order. */
  lemma {:induction false} SortDescRanked<T>(s: seq<T>, key: T -> int, ord: T -> int)
    requires InOrder(s, ord)
    ensures Ranked(SortDesc(s, key), key, ord)
  {
    if s != [] {
      var t := SortDesc(s[1..], key);
      SortDescRanked(s[1..], key, ord);
      forall k | 0 <= k < |t| ensures ord(s[0]) < ord(t[k]) {
        assert t[k] in multiset(t);
        var j :| 0 <= j < |s[1..]| && s[1..][j] == t[k];
        assert s[j + 1] == t[k];
      }
      InsertRanked(s[0], t, key, ord);
    }
  }

  /** Two sequences with the same elements: where an element of one sits in the other. */
  lemma SameElements<T>(s: seq<T>, r: seq<T>, k: int) returns (j: int)
    requires multiset(r) == multiset(s) && 0 <= k < |r|
    ensures 0 <= j < |s| && s[j] == r[k]
  {
    assert r[k] in multiset(s);
    j :| 0 <= j < |s| && s[j] == r[k];
  }
}
