/**
 * The damped TextRank iteration shared by the statistical and the embedding
 * summarisers: every score starts at 1, and each of the 10 rounds sets
 * `score[i] = (1 - 0.85) + 0.85 * sum over j != i of m[j][i] * score[j]`,
 * reading only the previous round's scores.
 */
module TextRank {

  const Iterations: nat := 10
  const Damping: real := 0.85

  /** An `n` by `n` weight table; `m[j][i]` is how much sentence `j` lends to sentence `i`. */
  ghost predicate IsSquare(m: seq<seq<real>>, n: nat) {
    |m| == n && forall j :: 0 <= j < n ==> |m[j]| == n
  }

  ghost predicate NonNegative(s: seq<real>) {
    forall i :: 0 <= i < |s| ==> s[i] >= 0.0
  }

  ghost predicate NonNegativeTable(m: seq<seq<real>>) {
    forall j :: 0 <= j < |m| ==> NonNegative(m[j])
  }

  /** `Array(n).fill(v)`. */
  function Fill(n: nat, v: real): (r: seq<real>)
    ensures |r| == n && forall i :: 0 <= i < n ==> r[i] == v
  {
    seq(n, _ => v)
  }

  /** The sum over `j < upto`, `j != i`, of `m[j][i] * scores[j]`, accumulated in increasing `j`. */
  function Inflow(m: seq<seq<real>>, scores: seq<real>, i: nat, upto: nat): real
    requires IsSquare(m, |scores|) && i < |scores| && upto <= |scores|
  {
    if upto == 0 then 0.0
    else
      Inflow(m, scores, i, upto - 1)
      + (if upto - 1 != i then m[upto - 1][i] * scores[upto - 1] else 0.0)
  }

  /** Accumulating one more term, as the inner loop of a round does. */
  lemma InflowNext(m: seq<seq<real>>, scores: seq<real>, i: nat, j: nat)
    requires IsSquare(m, |scores|) && i < |scores| && j < |scores|
    ensures Inflow(m, scores, i, j + 1) == Inflow(m, scores, i, j) + (if j != i then m[j][i] * scores[j] else 0.0)
  {
  }

  /** One round: every entry is recomputed from the previous round's scores. */
  function Step(m: seq<seq<real>>, scores: seq<real>): (r: seq<real>)
    requires IsSquare(m, |scores|)
    ensures |r| == |scores|
  {
    seq(|scores|, i requires 0 <= i < |scores| => (1.0 - Damping) + Damping * Inflow(m, scores, i, |scores|))
  }

  /** The scores after `rounds` rounds, starting from all ones. */
  function Rank(m: seq<seq<real>>, n: nat, rounds: nat): (r: seq<real>)
    requires IsSquare(m, n)
    ensures |r| == n
  {
    if rounds == 0 then Fill(n, 1.0) else Step(m, Rank(m, n, rounds - 1))
  }

  /** The weights of a sentence's own entry, `m[i][i]`, never count. */
  lemma {:induction false} InflowIgnoresSelf(m: seq<seq<real>>, m': seq<seq<real>>, scores: seq<real>, i: nat, upto: nat)
    requires IsSquare(m, |scores|) && IsSquare(m', |scores|) && i < |scores| && upto <= |scores|
    requires forall j :: 0 <= j < |scores| && j != i ==> m[j][i] == m'[j][i]
    ensures Inflow(m, scores, i, upto) == Inflow(m', scores, i, upto)
  {
    if upto > 0 {
      InflowIgnoresSelf(m, m', scores, i, upto - 1);
    }
  }

  /** Two tables that differ only on the diagonal rank every sentence alike. */
  lemma {:induction false} RankIgnoresDiagonal(m: seq<seq<real>>, m': seq<seq<real>>, n: nat, rounds: nat)
    requires IsSquare(m, n) && IsSquare(m', n)
    requires forall j, i :: 0 <= j < n && 0 <= i < n && j != i ==> m[j][i] == m'[j][i]
    ensures Rank(m, n, rounds) == Rank(m', n, rounds)
  {
    if rounds > 0 {
      RankIgnoresDiagonal(m, m', n, rounds - 1);
      var prev := Rank(m, n, rounds - 1);
      forall i | 0 <= i < n ensures Step(m, prev)[i] == Step(m', prev)[i] {
        InflowIgnoresSelf(m, m', prev, i, n);
      }
    }
  }

  lemma {:induction false} InflowNonNegative(m: seq<seq<real>>, scores: seq<real>, i: nat, upto: nat)
    requires IsSquare(m, |scores|) && i < |scores| && upto <= |scores|
    requires NonNegativeTable(m) && NonNegative(scores)
    ensures Inflow(m, scores, i, upto) >= 0.0
  {
    if upto > 0 {
      InflowNonNegative(m, scores, i, upto - 1);
      if upto - 1 != i {
        var w, s := m[upto - 1][i], scores[upto - 1];
        assert w >= 0.0 && s >= 0.0;
        assert w * s >= 0.0;
      }
    }
  }

  /** With non-negative weights, every score after a round is at least `1 - 0.85`. */
  lemma StepFloor(m: seq<seq<real>>, scores: seq<real>)
    requires IsSquare(m, |scores|)
    requires NonNegativeTable(m) && NonNegative(scores)
    ensures forall i :: 0 <= i < |scores| ==> Step(m, scores)[i] >= 0.15
  {
    forall i | 0 <= i < |scores| ensures Step(m, scores)[i] >= 0.15 {
      InflowNonNegative(m, scores, i, |scores|);
    }
  }

  /** Scores never drop below 0.15 once at least one round has run, and are never negative. */
  lemma {:induction false} RankFloor(m: seq<seq<real>>, n: nat, rounds: nat)
    requires IsSquare(m, n) && NonNegativeTable(m)
    ensures NonNegative(Rank(m, n, rounds))
    ensures rounds >= 1 ==> forall i :: 0 <= i < n ==> Rank(m, n, rounds)[i] >= 0.15
  {
    if rounds > 0 {
      RankFloor(m, n, rounds - 1);
      StepFloor(m, Rank(m, n, rounds - 1));
    }
  }
}
