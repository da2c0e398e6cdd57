/**
 * The sort-and-slice chains of the source. JavaScript's `Array.prototype.sort`
 * is stable, so sorting with the comparator `(a, b) => key(a) - key(b)` is
 * modelled by a stable insertion sort on ascending keys; a descending sort
 * uses the negated key. `TopInSourceOrder` is the recurring chain
 * `.sort(by score descending).slice(0, k).sort(by index ascending)` over
 * sentence indices.
 */
module Sorting {

  function Min(a: int, b: int): int { if a <= b then a else b }

  function Max(a: int, b: int): int { if a >= b then a else b }

  /** Non-decreasing keys. */
  ghost predicate SortedBy<T>(s: seq<T>, key: T -> real) {
    forall p, q :: 0 <= p < q < |s| ==> key(s[p]) <= key(s[q])
  }

  /**
   * Non-decreasing keys, equal keys in increasing element order: the order a
   * stable sort gives to a list of distinct indices that was increasing.
   */
  ghost predicate RankedBy(s: seq<nat>, key: nat -> real) {
    forall p, q :: 0 <= p < q < |s| ==> key(s[p]) < key(s[q]) || (key(s[p]) == key(s[q]) && s[p] < s[q])
  }

  ghost predicate StrictlyIncreasing(s: seq<nat>) {
    forall p, q :: 0 <= p < q < |s| ==> s[p] < s[q]
  }

  ghost predicate Distinct<T>(s: seq<T>) {
    forall p, q :: 0 <= p < q < |s| ==> s[p] != s[q]
  }

  /** Puts `x` after every leading element whose key does not exceed its own. */
  function Insert<T>(x: T, s: seq<T>, key: T -> real): (r: seq<T>)
    ensures multiset(r) == multiset(s) + multiset{x}
    ensures |r| == |s| + 1
    ensures SortedBy(s, key) ==> SortedBy(r, key)
  {
    if s == [] then [x]
    else if key(x) < key(s[0]) then [x] + s
    else
      var rest := Insert(x, s[1..], key);
      InsertStep(x, s, rest, key);
      [s[0]] + rest
  }

  /** Putting the head in front of the insertion into the tail. */
  lemma InsertStep<T>(x: T, s: seq<T>, rest: seq<T>, key: T -> real)
    requires s != [] && key(s[0]) <= key(x)
    requires multiset(rest) == multiset(s[1..]) + multiset{x} && |rest| == |s|
    requires SortedBy(s[1..], key) ==> SortedBy(rest, key)
    ensures multiset([s[0]] + rest) == multiset(s) + multiset{x}
    ensures SortedBy(s, key) ==> SortedBy([s[0]] + rest, key)
  {
    assert s == [s[0]] + s[1..];
    if SortedBy(s, key) {
      SortedTail(s, key);
      HeadBelowInsert(x, s, rest, key);
      ConsSorted(s[0], rest, key);
    }
  }

  lemma SortedTail<T>(s: seq<T>, key: T -> real)
    requires s != [] && SortedBy(s, key)
    ensures SortedBy(s[1..], key)
    ensures forall y :: y in s[1..] ==> key(s[0]) <= key(y)
  {
    forall p, q | 0 <= p < q < |s[1..]| ensures key(s[1..][p]) <= key(s[1..][q]) {
      assert s[1..][p] == s[p + 1] && s[1..][q] == s[q + 1];
    }
    forall y | y in s[1..] ensures key(s[0]) <= key(y) {
      var p :| 0 <= p < |s[1..]| && s[1..][p] == y;
      assert s[p + 1] == y;
    }
  }

  lemma HeadBelowInsert<T>(x: T, s: seq<T>, rest: seq<T>, key: T -> real)
    requires s != [] && key(s[0]) <= key(x)
    requires forall y :: y in s[1..] ==> key(s[0]) <= key(y)
    requires multiset(rest) == multiset(s[1..]) + multiset{x}
    ensures forall q :: 0 <= q < |rest| ==> key(s[0]) <= key(rest[q])
  {
    forall q | 0 <= q < |rest| ensures key(s[0]) <= key(rest[q]) {
      assert rest[q] in multiset(rest);
      assert rest[q] == x || rest[q] in multiset(s[1..]);
    }
  }

  lemma ConsSorted<T>(h: T, rest: seq<T>, key: T -> real)
    requires SortedBy(rest, key)
    requires forall q :: 0 <= q < |rest| ==> key(h) <= key(rest[q])
    ensures SortedBy([h] + rest, key)
  {
    var r := [h] + rest;
    forall p, q | 0 <= p < q < |r| ensures key(r[p]) <= key(r[q]) {
      assert r[q] == rest[q - 1];
      if p > 0 {
        assert r[p] == rest[p - 1];
      }
    }
  }

  /** A stable sort on ascending keys (insertion of each element, from the left). */
  function StableSort<T>(s: seq<T>, key: T -> real): (r: seq<T>)
    ensures multiset(r) == multiset(s)
    ensures |r| == |s|
    ensures SortedBy(r, key)
    decreases |s|
  {
    if s == [] then []
    else
      assert s == s[..|s| - 1] + [s[|s| - 1]];
      Insert(s[|s| - 1], StableSort(s[..|s| - 1], key), key)
  }

  lemma {:induction false} InsertRanked(x: nat, s: seq<nat>, key: nat -> real)
    requires RankedBy(s, key)
    requires forall y :: y in s ==> y < x
    ensures RankedBy(Insert(x, s, key), key)
  {
    if s != [] && key(s[0]) <= key(x) {
      RankedTail(s, key);
      forall y | y in s[1..] ensures y < x {
        assert y in s;
      }
      InsertRanked(x, s[1..], key);
      var rest := Insert(x, s[1..], key);
      assert s[0] in s;
      HeadRankedBeforeInsert(x, s, rest, key);
      ConsRanked(s[0], rest, key);
      assert Insert(x, s, key) == [s[0]] + rest;
    }
  }

  /** `Before(a, b, key)`: `a` ranks ahead of `b`. */
  ghost predicate Before(a: nat, b: nat, key: nat -> real) {
    key(a) < key(b) || (key(a) == key(b) && a < b)
  }

  lemma RankedTail(s: seq<nat>, key: nat -> real)
    requires s != [] && RankedBy(s, key)
    ensures RankedBy(s[1..], key)
    ensures forall y :: y in s[1..] ==> Before(s[0], y, key)
  {
    forall p, q | 0 <= p < q < |s[1..]|
      ensures key(s[1..][p]) < key(s[1..][q]) || (key(s[1..][p]) == key(s[1..][q]) && s[1..][p] < s[1..][q])
    {
      assert s[1..][p] == s[p + 1] && s[1..][q] == s[q + 1];
    }
    forall y | y in s[1..] ensures Before(s[0], y, key) {
      var p :| 0 <= p < |s[1..]| && s[1..][p] == y;
      assert s[p + 1] == y;
    }
  }

  lemma HeadRankedBeforeInsert(x: nat, s: seq<nat>, rest: seq<nat>, key: nat -> real)
    requires s != [] && key(s[0]) <= key(x) && s[0] < x
    requires forall y :: y in s[1..] ==> Before(s[0], y, key)
    requires multiset(rest) == multiset(s[1..]) + multiset{x}
    ensures forall q :: 0 <= q < |rest| ==> Before(s[0], rest[q], key)
  {
    forall q | 0 <= q < |rest| ensures Before(s[0], rest[q], key) {
      assert rest[q] in multiset(rest);
      assert rest[q] == x || rest[q] in multiset(s[1..]);
    }
  }

  lemma ConsRanked(h: nat, rest: seq<nat>, key: nat -> real)
    requires RankedBy(rest, key)
    requires forall q :: 0 <= q < |rest| ==> Before(h, rest[q], key)
    ensures RankedBy([h] + rest, key)
  {
    var r := [h] + rest;
    forall p, q | 0 <= p < q < |r| ensures key(r[p]) < key(r[q]) || (key(r[p]) == key(r[q]) && r[p] < r[q]) {
      assert r[q] == rest[q - 1];
      if p > 0 {
        assert r[p] == rest[p - 1];
      } else {
        assert Before(h, rest[q - 1], key);
      }
    }
  }

  /** A stable sort of an increasing list of indices ranks equal keys by index. */
  lemma {:induction false} StableSortRanked(s: seq<nat>, key: nat -> real)
    requires StrictlyIncreasing(s)
    ensures RankedBy(StableSort(s, key), key)
  {
    if s != [] {
      var init := s[..|s| - 1];
      StableSortRanked(init, key);
      forall y | y in StableSort(init, key) ensures y < s[|s| - 1] {
        assert y in multiset(StableSort(init, key));
      }
      InsertRanked(s[|s| - 1], StableSort(init, key), key);
    }
  }

  lemma {:induction false} InsertDistinct<T>(x: T, s: seq<T>, key: T -> real)
    requires Distinct(s) && x !in s
    ensures Distinct(Insert(x, s, key))
  {
    if s != [] && key(s[0]) <= key(x) {
      assert Distinct(s[1..]) by {
        forall p, q | 0 <= p < q < |s[1..]| ensures s[1..][p] != s[1..][q] {
          assert s[1..][p] == s[p + 1] && s[1..][q] == s[q + 1];
        }
      }
      InsertDistinct(x, s[1..], key);
      var rest := Insert(x, s[1..], key);
      assert s[0] != x;
      assert s[0] !in s[1..] by {
        forall p | 0 <= p < |s[1..]| ensures s[1..][p] != s[0] {
          assert s[1..][p] == s[p + 1];
        }
      }
      assert s[0] !in multiset(rest);
      assert Insert(x, s, key) == [s[0]] + rest;
    }
  }

  lemma {:induction false} StableSortDistinct<T>(s: seq<T>, key: T -> real)
    requires Distinct(s)
    ensures Distinct(StableSort(s, key))
  {
    if s != [] {
      var init := s[..|s| - 1];
      var last := s[|s| - 1];
      StableSortDistinct(init, key);
      assert last !in init by {
        forall p | 0 <= p < |init| ensures init[p] != last {
          assert init[p] == s[p];
        }
      }
      assert last !in multiset(StableSort(init, key));
      InsertDistinct(last, StableSort(init, key), key);
    }
  }

  /** `[0, 1, ..., n - 1]`: the indices of a list of length `n`. */
  function Range(n: nat): (r: seq<nat>)
    ensures |r| == n
    ensures forall i :: 0 <= i < n ==> r[i] == i
    ensures StrictlyIncreasing(r)
    ensures forall i: nat :: i in r <==> i < n
  {
    var r := seq(n, i requires 0 <= i < n => i);
    assert forall i: nat :: i in r <==> i < n by {
      forall i: nat ensures i in r <==> i < n {
        if i < n { assert r[i] == i; }
        if i in r { var k :| 0 <= k < n && r[k] == i; }
      }
    }
    r
  }

  /** Reads a score list as a function of the index (0 past its end). */
  function ScoreAt(scores: seq<real>): nat -> real {
    (i: nat) => if i < |scores| then scores[i] else 0.0
  }

  /** `idx.map(i => s[i])`. */
  function Select<T>(s: seq<T>, idx: seq<nat>): (r: seq<T>)
    requires forall q :: 0 <= q < |idx| ==> idx[q] < |s|
    ensures |r| == |idx|
    ensures forall q :: 0 <= q < |idx| ==> r[q] == s[idx[q]]
  {
    seq(|idx|, q requires 0 <= q < |idx| => s[idx[q]])
  }

  /** The key of a descending sort by `score`. */
  function Descending(score: nat -> real): nat -> real {
    (i: nat) => -score(i)
  }

  /** The key of an ascending sort by index. */
  function IndexKey(i: nat): real { i as real }

  /**
   * `.sort((a, b) => b.score - a.score).slice(0, k).sort((a, b) => a.index - b.index)`
   * over the candidate indices `cands`, listed in increasing order: the `k`
   * best-scored candidates (equal scores favour the earlier index), listed in
   * increasing index order.
   */
  function TopInSourceOrder(cands: seq<nat>, score: nat -> real, k: nat): (r: seq<nat>)
    requires StrictlyIncreasing(cands)
    ensures |r| == Min(k, |cands|)
    ensures StrictlyIncreasing(r)
    ensures forall i :: i in r ==> i in cands
    ensures forall i, j :: i in r && j in cands && j !in r ==>
      score(i) > score(j) || (score(i) == score(j) && i < j)
  {
    var byScore := StableSort(cands, Descending(score));
    var top := byScore[..Min(k, |byScore|)];
    StableSortRanked(cands, Descending(score));
    PrefixOfRankedIsBest(byScore, score, |top|);
    IncreasingOfPrefix(byScore, score, top);
    var r := StableSort(top, IndexKey);
    forall i | i in r ensures i in top && i in cands {
      assert i in multiset(r);
      assert i in multiset(byScore);
    }
    forall i | i in top ensures i in r {
      assert i in multiset(top);
    }
    forall j | j in cands ensures j in byScore {
      assert j in multiset(cands);
    }
    r
  }

  /** Every element of a prefix of a ranked list beats every element after it. */
  lemma PrefixOfRankedIsBest(byScore: seq<nat>, score: nat -> real, m: nat)
    requires RankedBy(byScore, Descending(score)) && m <= |byScore|
    ensures forall i, j :: i in byScore[..m] && j in byScore && j !in byScore[..m] ==>
      score(i) > score(j) || (score(i) == score(j) && i < j)
  {
    forall i, j | i in byScore[..m] && j in byScore && j !in byScore[..m]
      ensures score(i) > score(j) || (score(i) == score(j) && i < j)
    {
      var p :| 0 <= p < m && byScore[..m][p] == i;
      var q :| 0 <= q < |byScore| && byScore[q] == j;
      forall q' | 0 <= q' < m ensures byScore[q'] != j {
        assert byScore[..m][q'] == byScore[q'];
      }
      assert byScore[p] == i;
      assert Descending(score)(i) == -score(i) && Descending(score)(j) == -score(j);
    }
  }

  /** Sorting a prefix of a ranked list by index lists it in strictly increasing order. */
  lemma IncreasingOfPrefix(byScore: seq<nat>, score: nat -> real, top: seq<nat>)
    requires RankedBy(byScore, Descending(score))
    requires exists m :: 0 <= m <= |byScore| && top == byScore[..m]
    ensures StrictlyIncreasing(StableSort(top, IndexKey))
  {
    assert Distinct(top);
    StableSortDistinct(top, IndexKey);
    var r := StableSort(top, IndexKey);
    forall p, q | 0 <= p < q < |r| ensures r[p] < r[q] {
      assert IndexKey(r[p]) <= IndexKey(r[q]);
    }
  }

  /** `r` is `s` with some elements left out, the rest in their order. */
  ghost predicate IsSubsequence<T>(r: seq<T>, s: seq<T>)
    decreases |s|
  {
    if r == [] then true
    else if s == [] then false
    else if r[0] == s[0] then IsSubsequence(r[1..], s[1..])
    else IsSubsequence(r, s[1..])
  }

  /** Dropping the first element of the longer list keeps no more than it kept. */
  lemma {:induction false} SubsequenceOfTail<T>(r: seq<T>, s: seq<T>)
    requires s != [] && IsSubsequence(r, s[1..])
    ensures IsSubsequence(r, s)
    decreases |s|, |r|
  {
    if r != [] && r[0] == s[0] {
      SubsequenceDropFirst(r, s[1..]);
    }
  }

  lemma {:induction false} SubsequenceDropFirst<T>(r: seq<T>, s: seq<T>)
    requires r != [] && IsSubsequence(r, s)
    ensures IsSubsequence(r[1..], s)
    decreases |s|, |r|
  {
    if r[0] == s[0] {
      if r[1..] != [] {
        SubsequenceOfTail(r[1..], s);
      }
    } else {
      SubsequenceDropFirst(r, s[1..]);
      if r[1..] != [] {
        SubsequenceOfTail(r[1..], s);
      }
    }
  }
}
