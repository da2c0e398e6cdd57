/**
 * Counters kept in plain JavaScript objects: `counts[key] = (counts[key] || 0) + 1`.
 * A counter is an association list in key-insertion order, which is the
 * order `Object.entries` lists it in (for keys that are not array indices).
 */
module Tally {

  type Counts<K> = seq<(K, nat)>

  /** The keys of an association list, in insertion order. */
  function Keys<K, V>(d: seq<(K, V)>): (r: seq<K>)
    ensures |r| == |d|
    ensures forall i :: 0 <= i < |d| ==> r[i] == d[i].0
  {
    if d == [] then [] else [d[0].0] + Keys(d[1..])
  }

  ghost predicate UniqueKeys<K>(d: Counts<K>) {
    forall p, q :: 0 <= p < q < |d| ==> d[p].0 != d[q].0
  }

  /** `counts[k] || 0`. */
  function Get<K(==)>(d: Counts<K>, k: K): (v: nat)
    ensures k !in Keys(d) ==> v == 0
  {
    if d == [] then 0
    else if d[0].0 == k then d[0].1
    else Get(d[1..], k)
  }

  /** With unique keys, each entry's value is what `Get` reads for its key. */
  lemma {:induction false} GetEntry<K>(d: Counts<K>, i: nat)
    requires UniqueKeys(d) && i < |d|
    ensures Get(d, d[i].0) == d[i].1
  {
    if i > 0 {
      assert d[0].0 != d[i].0;
      assert UniqueKeys(d[1..]) by {
        forall p, q | 0 <= p < q < |d[1..]| ensures d[1..][p].0 != d[1..][q].0 {
          assert d[1..][p] == d[p + 1] && d[1..][q] == d[q + 1];
        }
      }
      GetEntry(d[1..], i - 1);
    }
  }

  /** `counts[k] = (counts[k] || 0) + 1`. */
  function Bump<K(==)>(d: Counts<K>, k: K): (r: Counts<K>)
  {
    if d == [] then [(k, 1)]
    else if d[0].0 == k then [(k, d[0].1 + 1)] + d[1..]
    else [d[0]] + Bump(d[1..], k)
  }

  /** A new key goes last, an existing one keeps its place; only `k`'s count changes, by one. */
  lemma {:induction false} BumpFacts<K(!new)>(d: Counts<K>, k: K)
    ensures Keys(Bump(d, k)) == if k in Keys(d) then Keys(d) else Keys(d) + [k]
    ensures Get(Bump(d, k), k) == Get(d, k) + 1
    ensures forall k' :: k' != k ==> Get(Bump(d, k), k') == Get(d, k')
  {
    if d != [] {
      var r := Bump(d, k);
      if d[0].0 == k {
        assert r[1..] == d[1..];
      } else {
        BumpFacts(d[1..], k);
        assert r[1..] == Bump(d[1..], k);
      }
    }
  }

  /** The counter after bumping each key of `ks` in turn, starting from `{}`. */
  function Count<K(==, !new)>(ks: seq<K>): (r: Counts<K>)
    decreases |ks|
  {
    if ks == [] then [] else Bump(Count(ks[..|ks| - 1]), ks[|ks| - 1])
  }

  /** Every key's count is its number of occurrences. */
  lemma {:induction false} CountGet<K(!new)>(ks: seq<K>, k: K)
    ensures Get(Count(ks), k) == multiset(ks)[k]
    decreases |ks|
  {
    if ks != [] {
      var init, last := ks[..|ks| - 1], ks[|ks| - 1];
      CountGet(init, k);
      BumpFacts(Count(init), last);
      OccurrencesOfLast(ks, k);
    }
  }

  lemma OccurrencesOfLast<K>(ks: seq<K>, k: K)
    requires ks != []
    ensures multiset(ks)[k] == multiset(ks[..|ks| - 1])[k] + if ks[|ks| - 1] == k then 1 else 0
  {
    assert ks == ks[..|ks| - 1] + [ks[|ks| - 1]];
    assert multiset(ks) == multiset(ks[..|ks| - 1]) + multiset{ks[|ks| - 1]};
  }

  /** The keys are the distinct elements of `ks`, each listed once, in order of first occurrence. */
  lemma {:induction false} CountKeys<K(!new)>(ks: seq<K>)
    ensures UniqueKeys(Count(ks))
    ensures forall k :: k in Keys(Count(ks)) <==> k in ks
    decreases |ks|
  {
    if ks != [] {
      var init := ks[..|ks| - 1];
      var last := ks[|ks| - 1];
      CountKeys(init);
      assert ks == init + [last];
      var d := Count(init);
      var r := Count(ks);
      BumpFacts(d, last);
      assert Keys(r) == if last in Keys(d) then Keys(d) else Keys(d) + [last];
      forall p, q | 0 <= p < q < |r| ensures r[p].0 != r[q].0 {
        assert Keys(r)[p] == r[p].0 && Keys(r)[q] == r[q].0;
        if q < |d| {
          assert Keys(d)[p] == d[p].0 && Keys(d)[q] == d[q].0;
        } else {
          assert Keys(d)[p] == d[p].0;
        }
      }
    }
  }

  /** Every counted key has count at least 1. */
  lemma CountPositive<K(!new)>(ks: seq<K>)
    ensures forall i :: 0 <= i < |Count(ks)| ==> Count(ks)[i].1 >= 1
  {
    var d := Count(ks);
    CountKeys(ks);
    forall i | 0 <= i < |d| ensures d[i].1 >= 1 {
      var k := d[i].0;
      assert k in Keys(d) by { assert Keys(d)[i] == k; }
      assert k in ks;
      assert multiset(ks)[k] >= 1;
      GetEntry(d, i);
      CountGet(ks, k);
    }
  }
}
