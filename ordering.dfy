/**
 * Sorting by date, newest first. The stores sort query results with
 * `sort({ date: -1 })` and the history sorts its merged array with a
 * comparator on dates; both are modelled by one stable insertion sort on a
 * key, so elements with equal keys keep the order they had before sorting.
 */
module Ordering {

  ghost predicate SortedDesc<T>(s: seq<T>, key: T -> int) {
    forall i, j :: 0 <= i < j < |s| ==> key(s[i]) >= key(s[j])
  }

  /**
   * Among elements with equal keys, `rank` never decreases: the order a
   * stable sort keeps for ties when the input was ordered by `rank`.
   */
  ghost predicate TiesByRank<T>(s: seq<T>, key: T -> int, rank: T -> int) {
    forall i, j :: 0 <= i < j < |s| && key(s[i]) == key(s[j]) ==> rank(s[i]) <= rank(s[j])
  }

  ghost predicate RankSorted<T>(s: seq<T>, rank: T -> int) {
    forall i, j :: 0 <= i < j < |s| ==> rank(s[i]) <= rank(s[j])
  }

  /** Index at which `x` enters `s`: in front of the first element whose key is at most `key(x)`. */
  function InsertPos<T>(x: T, s: seq<T>, key: T -> int): (p: nat)
    ensures p <= |s|
    ensures forall i :: 0 <= i < p ==> key(s[i]) > key(x)
    ensures p < |s| ==> key(s[p]) <= key(x)
  {
    if s == [] || key(x) >= key(s[0]) then 0 else 1 + InsertPos(x, s[1..], key)
  }

  /** `s` with `x` placed after every element of larger key and before the rest. */
  function Insert<T>(x: T, s: seq<T>, key: T -> int): (r: seq<T>)
    ensures |r| == |s| + 1
    ensures multiset(r) == multiset(s) + multiset{x}
  {
    var p := InsertPos(x, s, key);
    assert s == s[..p] + s[p..];
    s[..p] + [x] + s[p..]
  }

  /** Where each element of `s`, and `x`, ends up after inserting `x`. */
  lemma InsertIndex<T>(x: T, s: seq<T>, key: T -> int, k: nat)
    requires k <= |s|
    ensures var p := InsertPos(x, s, key);
            Insert(x, s, key)[k] == if k < p then s[k] else if k == p then x else s[k - 1]
  {
  }

  lemma InsertSorted<T>(x: T, s: seq<T>, key: T -> int)
    requires SortedDesc(s, key)
    ensures SortedDesc(Insert(x, s, key), key)
  {
    var p := InsertPos(x, s, key);
    var r := Insert(x, s, key);
    forall i, j | 0 <= i < j < |r| ensures key(r[i]) >= key(r[j]) {
      InsertIndex(x, s, key, i);
      InsertIndex(x, s, key, j);
    }
  }

  /** Stable sort by `key`, largest key first. */
  function SortDesc<T>(s: seq<T>, key: T -> int): (r: seq<T>)
    ensures multiset(r) == multiset(s)
    ensures |r| == |s|
    ensures SortedDesc(r, key)
  {
    if s == [] then []
    else
      var rest := SortDesc(s[1..], key);
      InsertSorted(s[0], rest, key);
      assert s == [s[0]] + s[1..];
      Insert(s[0], rest, key)
  }

  /**
   * Stability: when the input is ordered by `rank`, the sorted output breaks
   * every tie on the key by that same rank.
   */
  lemma {:induction false} SortKeepsTieOrder<T>(s: seq<T>, key: T -> int, rank: T -> int)
    requires RankSorted(s, rank)
    ensures TiesByRank(SortDesc(s, key), key, rank)
  {
    if s != [] {
      var rest := SortDesc(s[1..], key);
      assert RankSorted(s[1..], rank) by {
        forall i, j | 0 <= i < j < |s[1..]| ensures rank(s[1..][i]) <= rank(s[1..][j]) {
          assert s[1..][i] == s[i + 1] && s[1..][j] == s[j + 1];
        }
      }
      SortKeepsTieOrder(s[1..], key, rank);
      forall y | y in rest ensures rank(s[0]) <= rank(y) {
        assert y in multiset(s[1..]);
        var k :| 0 <= k < |s[1..]| && s[1..][k] == y;
        assert s[k + 1] == y;
      }
      InsertKeepsTieOrder(s[0], rest, key, rank);
    }
  }

  lemma InsertKeepsTieOrder<T>(x: T, s: seq<T>, key: T -> int, rank: T -> int)
    requires TiesByRank(s, key, rank)
    requires forall y :: y in s ==> rank(x) <= rank(y)
    ensures TiesByRank(Insert(x, s, key), key, rank)
  {
    var p := InsertPos(x, s, key);
    var r := Insert(x, s, key);
    forall i, j | 0 <= i < j < |r| && key(r[i]) == key(r[j]) ensures rank(r[i]) <= rank(r[j]) {
      InsertIndex(x, s, key, i);
      InsertIndex(x, s, key, j);
      if i == p {
        assert s[j - 1] in s;
      }
    }
  }

  /** Sorting commutes with a map that keeps the key, such as tagging a record with its type. */
  lemma {:induction false} SortCommutes<T, U>(s: seq<T>, f: T -> U, keyT: T -> int, keyU: U -> int)
    requires forall x :: keyU(f(x)) == keyT(x)
    ensures Map(SortDesc(s, keyT), f) == SortDesc(Map(s, f), keyU)
  {
    if s != [] {
      SortCommutes(s[1..], f, keyT, keyU);
      assert Map(s, f)[1..] == Map(s[1..], f);
      InsertCommutes(s[0], SortDesc(s[1..], keyT), f, keyT, keyU);
    }
  }

  lemma {:induction false} InsertCommutes<T, U>(x: T, s: seq<T>, f: T -> U, keyT: T -> int, keyU: U -> int)
    requires forall x :: keyU(f(x)) == keyT(x)
    ensures Map(Insert(x, s, keyT), f) == Insert(f(x), Map(s, f), keyU)
  {
    InsertPosCommutes(x, s, f, keyT, keyU);
    var p := InsertPos(x, s, keyT);
    var ins, ms := Insert(x, s, keyT), Map(s, f);
    assert ins == s[..p] + [x] + s[p..];
    var l, r := Map(ins, f), Insert(f(x), ms, keyU);
    assert r == ms[..p] + [f(x)] + ms[p..];
    assert |l| == |r|;
    forall i | 0 <= i < |l| ensures l[i] == r[i] {
      if i < p {
        assert ins[i] == s[i] && r[i] == ms[i];
      } else if i == p {
        assert ins[i] == x && r[i] == f(x);
      } else {
        assert ins[i] == s[i - 1] && r[i] == ms[i - 1];
      }
    }
  }

  lemma {:induction false} InsertPosCommutes<T, U>(x: T, s: seq<T>, f: T -> U, keyT: T -> int, keyU: U -> int)
    requires forall x :: keyU(f(x)) == keyT(x)
    ensures InsertPos(f(x), Map(s, f), keyU) == InsertPos(x, s, keyT)
  {
    if s != [] && keyT(x) < keyT(s[0]) {
      InsertPosCommutes(x, s[1..], f, keyT, keyU);
      assert Map(s, f)[1..] == Map(s[1..], f);
    }
  }

  function Map<T, U>(s: seq<T>, f: T -> U): (r: seq<U>)
    ensures |r| == |s|
    ensures forall i :: 0 <= i < |s| ==> r[i] == f(s[i])
  {
    if s == [] then [] else [f(s[0])] + Map(s[1..], f)
  }
}
