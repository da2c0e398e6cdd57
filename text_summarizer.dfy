/**
 * The statistical extractive summariser (js/utils/text-summarizer.js):
 * sentence splitting, token preprocessing, lexical-overlap similarity, ten
 * rounds of damped TextRank over the similarity table, and the selection of
 * the best-ranked sentences in their original order, handed on to the
 * rewriter's `transformSummary`.
 */
module TextSummarizer {
  import opened Text
  import opened Sorting
  import opened TextRank
  import TextRewriter

  /**
   * The summariser's stopword set, grouped by word length: a word is a
   * stopword when it is in the group of its own length.
   */
  function StopwordsOfLength(n: nat): seq<String> {
    match n
    case 1 => ["a", "i"]
    case 2 => ["am", "an", "as", "at", "be", "by", "do", "he", "if", "in", "is", "it", "me", "my", "no",
      "of", "on", "or", "so", "to", "up", "we"]
    case 3 => ["all", "and", "any", "are", "but", "did", "few", "for", "had", "has", "her", "him", "his",
      "how", "i'd", "i'm", "its", "nor", "not", "off", "our", "out", "own", "she", "the", "too", "was",
      "who", "why", "you"]
    case 4 => ["been", "both", "does", "down", "each", "from", "have", "he'd", "he's", "here", "hers",
      "i'll", "i've", "into", "it's", "more", "most", "once", "only", "ours", "over", "same", "some",
      "such", "than", "that", "them", "then", "they", "this", "very", "we'd", "were", "what", "when",
      "whom", "with", "your"]
    case 5 => ["about", "above", "after", "again", "being", "below", "can't", "could", "doing", "don't",
      "he'll", "how's", "isn't", "let's", "other", "ought", "she'd", "she's", "their", "there", "these",
      "those", "under", "until", "we'll", "we're", "we've", "where", "which", "while", "who's", "why's",
      "won't", "would", "you'd", "yours"]
    case 6 => ["aren't", "before", "cannot", "didn't", "during", "hadn't", "hasn't", "having", "here's",
      "itself", "myself", "shan't", "she'll", "should", "that's", "theirs", "they'd", "wasn't", "what's",
      "when's", "you'll", "you're", "you've"]
    case 7 => ["against", "because", "between", "doesn't", "further", "haven't", "herself", "himself",
      "mustn't", "there's", "they'll", "they're", "they've", "through", "weren't", "where's"]
    case 8 => ["couldn't", "wouldn't", "yourself"]
    case 9 => ["ourselves", "shouldn't"]
    case 10 => ["themselves", "yourselves"]
    case _ => []
  }

  /** `STOPWORDS.has(w)`. */
  predicate IsStopword(w: String) {
    w in StopwordsOfLength(|w|)
  }

  // ---------------------------------------------------------------------
  // splitIntoSentences

  /**
   * `s.replace(/([.!?])\s+(?=[A-Z])/g, "$1|")`: a terminator followed by a
   * non-empty run of white space and then a capital letter keeps the
   * terminator and trades the white space for `|`.
   */
  function MarkBreaks(s: String): (r: String)
    ensures |r| <= |s|
    ensures forall c :: c in r && c != '|' ==> c in s
    decreases |s|
  {
    if s == [] then []
    else if IsTerminator(s[0]) && 0 < SpaceRun(s[1..]) && 1 + SpaceRun(s[1..]) < |s| && IsUpper(s[1 + SpaceRun(s[1..])]) then
      [s[0], '|'] + MarkBreaks(s[1 + SpaceRun(s[1..])..])
    else
      [s[0]] + MarkBreaks(s[1..])
  }

  /** `s.replace(/\n+/g, "|")`: every run of line feeds becomes one `|` (emitted by the run's last one). */
  function NewlinesToBars(s: String): (r: String)
    ensures |r| <= |s|
    ensures '\n' !in r
    ensures forall c :: c in r && c != '|' ==> c in s
    decreases |s|
  {
    if s == [] then []
    else if s[0] == '\n' then
      (if |s| > 1 && s[1] == '\n' then [] else ['|']) + NewlinesToBars(s[1..])
    else
      [s[0]] + NewlinesToBars(s[1..])
  }

  /** `.map(s => s.trim()).filter(s => s.length > 10)`. */
  function KeepSentences(pieces: seq<String>): (r: seq<String>)
    ensures |r| <= |pieces|
    ensures forall i :: 0 <= i < |r| ==> IsTrimmed(r[i]) && |r[i]| > 10
  {
    if pieces == [] then []
    else
      var t := Trim(pieces[0]);
      if |t| > 10 then [t] + KeepSentences(pieces[1..]) else KeepSentences(pieces[1..])
  }

  /** `x` lies inside one of the pieces. */
  ghost predicate InSomePiece(x: String, pieces: seq<String>) {
    exists j :: 0 <= j < |pieces| && IsInfix(x, pieces[j])
  }

  lemma InLaterPiece(x: String, pieces: seq<String>)
    requires pieces != [] && InSomePiece(x, pieces[1..])
    ensures InSomePiece(x, pieces)
  {
    var j :| 0 <= j < |pieces[1..]| && IsInfix(x, pieces[1..][j]);
    assert pieces[1..][j] == pieces[j + 1];
  }

  /** Every kept sentence lies inside one of the pieces. */
  lemma {:induction false} KeptFromPieces(pieces: seq<String>)
    ensures forall i :: 0 <= i < |KeepSentences(pieces)| ==> InSomePiece(KeepSentences(pieces)[i], pieces)
  {
    if pieces != [] {
      KeptFromPieces(pieces[1..]);
      KeptStep(pieces, Trim(pieces[0]), KeepSentences(pieces[1..]), KeepSentences(pieces));
    }
  }

  lemma KeptStep(pieces: seq<String>, t: String, rest: seq<String>, r: seq<String>)
    requires pieces != [] && IsInfix(t, pieces[0])
    requires forall i :: 0 <= i < |rest| ==> InSomePiece(rest[i], pieces[1..])
    requires r == if |t| > 10 then [t] + rest else rest
    ensures forall i :: 0 <= i < |r| ==> InSomePiece(r[i], pieces)
  {
    forall i | 0 <= i < |r| ensures InSomePiece(r[i], pieces) {
      if |t| > 10 && i == 0 {
        assert IsInfix(r[0], pieces[0]);
      } else {
        var k := if |t| > 10 then i - 1 else i;
        assert r[i] == rest[k];
        InLaterPiece(rest[k], pieces);
      }
    }
  }

  /**
   * `splitIntoSentences`: line-feed runs and white space between a terminator
   * and a capital letter are sentence breaks, and so is any `|` already in
   * the text; the pieces are trimmed and only those longer than ten
   * characters are kept.
   */
  function SplitIntoSentences(text: String): (r: seq<String>)
    ensures forall i :: 0 <= i < |r| ==> IsTrimmed(r[i]) && 10 < |r[i]| <= |text|
    ensures forall i :: 0 <= i < |r| ==> '|' !in r[i] && '\n' !in r[i]
    ensures |text| <= 10 ==> r == []
  {
    var marked := NewlinesToBars(MarkBreaks(text));
    var pieces := SplitOn(marked, '|');
    var r := KeepSentences(pieces);
    KeptFromPieces(pieces);
    SentencesFromPieces(marked, pieces, r);
    assert r != [] ==> 10 < |r[0]| <= |text|;
    r
  }

  lemma SentencesFromPieces(marked: String, pieces: seq<String>, r: seq<String>)
    requires Join(pieces, ['|']) == marked && '\n' !in marked
    requires forall j :: 0 <= j < |pieces| ==> '|' !in pieces[j]
    requires forall i :: 0 <= i < |r| ==> InSomePiece(r[i], pieces)
    ensures forall i :: 0 <= i < |r| ==> |r[i]| <= |marked| && '|' !in r[i] && '\n' !in r[i]
  {
    forall i | 0 <= i < |r| ensures |r[i]| <= |marked| && '|' !in r[i] && '\n' !in r[i] {
      var j :| 0 <= j < |pieces| && IsInfix(r[i], pieces[j]);
      InfixFacts(r[i], pieces[j]);
      PieceFacts(pieces, j, marked);
    }
  }

  lemma InfixFacts(r: String, s: String)
    requires IsInfix(r, s)
    ensures |r| <= |s|
    ensures forall c :: c in r ==> c in s
  {
    var a, b :| 0 <= a <= b <= |s| && r == s[a..b];
    forall c | c in r ensures c in s {
      var k :| 0 <= k < |r| && r[k] == c;
      assert s[a + k] == c;
    }
  }

  /** A piece of `split('|')` is no longer than the text and holds only its characters. */
  lemma PieceFacts(pieces: seq<String>, j: nat, marked: String)
    requires j < |pieces| && Join(pieces, ['|']) == marked
    ensures |pieces[j]| <= |marked|
    ensures forall c :: c in pieces[j] ==> c in marked
  {
    if |pieces| > 1 {
      assert marked == pieces[0] + ['|'] + Join(pieces[1..], ['|']);
      if j > 0 {
        PieceFacts(pieces[1..], j - 1, Join(pieces[1..], ['|']));
      }
    }
  }

  /** Every sentence is at most as long as the text, so text of ten characters or fewer has none. */
  lemma {:induction false} NoSentencesInShortText(text: String)
    requires |text| <= 10
    ensures SplitIntoSentences(text) == []
  {
  }

  // ---------------------------------------------------------------------
  // preprocess

  /** A character `[^\w\s]|_` does not match: letters, digits and white space. */
  predicate KeptByStrip(c: char) {
    (IsWordChar(c) && c != '_') || IsSpace(c)
  }

  /** `s.replace(/[^\w\s]|_/g, "")`. */
  function StripPunctuation(s: String): (r: String)
    ensures forall k :: 0 <= k < |r| ==> KeptByStrip(r[k])
    ensures forall c :: c in r ==> c in s
  {
    if s == [] then []
    else (if KeptByStrip(s[0]) then [s[0]] else []) + StripPunctuation(s[1..])
  }

  /** A preprocessed token: lower-case letters and digits only. */
  predicate IsPlainLowerWord(w: String) {
    forall k :: 0 <= k < |w| ==> IsLower(w[k]) || ('0' <= w[k] <= '9')
  }

  /** `.filter(word => word.length > 1 && !STOPWORDS.has(word))`. */
  function KeepContentWords(ws: seq<String>): (r: seq<String>)
    ensures |r| <= |ws|
    ensures forall i :: 0 <= i < |r| ==> |r[i]| > 1 && !IsStopword(r[i]) && r[i] in ws
  {
    if ws == [] then []
    else (if |ws[0]| > 1 && !IsStopword(ws[0]) then [ws[0]] else []) + KeepContentWords(ws[1..])
  }

  /** `preprocess`: lower-case, strip punctuation and `_`, split on white space, drop short words and stopwords. */
  function Preprocess(sentence: String): (r: seq<String>)
    ensures forall i :: 0 <= i < |r| ==> |r[i]| > 1 && !IsStopword(r[i]) && IsPlainLowerWord(r[i])
  {
    var stripped := StripPunctuation(Lower(sentence));
    var words := SplitWs(stripped);
    var r := KeepContentWords(words);
    forall i | 0 <= i < |r| ensures IsPlainLowerWord(r[i]) {
      var q :| 0 <= q < |words| && words[q] == r[i];
      forall k | 0 <= k < |r[i]| ensures IsLower(r[i][k]) || ('0' <= r[i][k] <= '9') {
        var c := r[i][k];
        InfixFacts(words[q], stripped);
        assert c in words[q];
        var p :| 0 <= p < |stripped| && stripped[p] == c;
        assert KeptByStrip(c) && !IsSpace(c);
        assert c in Lower(sentence);
      }
    }
    r
  }

  // ---------------------------------------------------------------------
  // calculateSimilarity

  /** `Math.log` is positive from 2 on, which is all the similarity divides by. */
  ghost predicate LogPositive(ln: nat -> real) {
    forall n: nat :: n >= 2 ==> ln(n) > 0.0
  }

  function WordSet(ws: seq<String>): (r: set<String>)
    ensures ws != [] ==> |r| >= 1
  {
    var r := set w | w in ws;
    if ws != [] then
      assert ws[0] in r;
      r
    else r
  }

  /**
   * `calculateSimilarity`: 0 when either list is empty, otherwise the number
   * of shared distinct words over `ln(|set1| + 1) * ln(|set2| + 1)`.
   */
  function Similarity(words1: seq<String>, words2: seq<String>, ln: nat -> real): (r: real)
    requires LogPositive(ln)
    ensures words1 == [] || words2 == [] ==> r == 0.0
    ensures r >= 0.0
  {
    if |words1| == 0 || |words2| == 0 then 0.0
    else
      var set1 := WordSet(words1);
      var set2 := WordSet(words2);
      var d1, d2 := ln(|set1| + 1), ln(|set2| + 1);
      assert d1 > 0.0 && d2 > 0.0;
      assert d1 * d2 > 0.0;
      |set1 * set2| as real / (d1 * d2)
  }

  /** The similarity does not depend on the order of its two arguments. */
  lemma SimilaritySymmetric(words1: seq<String>, words2: seq<String>, ln: nat -> real)
    requires LogPositive(ln)
    ensures Similarity(words1, words2, ln) == Similarity(words2, words1, ln)
  {
    if |words1| > 0 && |words2| > 0 {
      var set1, set2 := WordSet(words1), WordSet(words2);
      assert set1 * set2 == set2 * set1;
      var d1, d2 := ln(|set1| + 1), ln(|set2| + 1);
      assert d1 * d2 == d2 * d1;
    }
  }

  // ---------------------------------------------------------------------
  // summarize, steps 1 to 6

  function PreprocessAll(sentences: seq<String>): (r: seq<seq<String>>)
    ensures |r| == |sentences|
  {
    seq(|sentences|, i requires 0 <= i < |sentences| => Preprocess(sentences[i]))
  }

  /**
   * The weights the ranking reads: for `j != i`, the similarity stored under
   * the key of the pair with the smaller index first; the diagonal is never read.
   */
  function SimTable(pre: seq<seq<String>>, ln: nat -> real): (m: seq<seq<real>>)
    requires LogPositive(ln)
    ensures IsSquare(m, |pre|)
  {
    seq(|pre|, j requires 0 <= j < |pre| =>
      seq(|pre|, i requires 0 <= i < |pre| =>
        if j == i then 0.0 else Similarity(pre[Min(i, j)], pre[Max(i, j)], ln)))
  }

  /** The table is symmetric and non-negative. */
  lemma SimTableFacts(pre: seq<seq<String>>, ln: nat -> real)
    requires LogPositive(ln)
    ensures forall i, j :: 0 <= i < |pre| && 0 <= j < |pre| ==> SimTable(pre, ln)[i][j] == SimTable(pre, ln)[j][i]
    ensures NonNegativeTable(SimTable(pre, ln))
  {
  }

  /** The final TextRank scores of the sentences. */
  function SentenceScores(sentences: seq<String>, ln: nat -> real): (r: seq<real>)
    requires LogPositive(ln)
    ensures |r| == |sentences|
  {
    Rank(SimTable(PreprocessAll(sentences), ln), |sentences|, Iterations)
  }

  /** Every final score is at least 0.15. */
  lemma ScoresFloor(sentences: seq<String>, ln: nat -> real)
    requires LogPositive(ln)
    ensures forall i :: 0 <= i < |sentences| ==> SentenceScores(sentences, ln)[i] >= 0.15
  {
    var pre := PreprocessAll(sentences);
    SimTableFacts(pre, ln);
    RankFloor(SimTable(pre, ln), |sentences|, Iterations);
  }

  /** The indices of the sentences the summary keeps, in increasing order. */
  function Chosen(sentences: seq<String>, ln: nat -> real, k: nat): (r: seq<nat>)
    requires LogPositive(ln)
    ensures |r| == Min(k, |sentences|)
    ensures StrictlyIncreasing(r)
    ensures forall q :: 0 <= q < |r| ==> r[q] < |sentences|
  {
    var r := TopInSourceOrder(Range(|sentences|), ScoreAt(SentenceScores(sentences, ln)), k);
    forall q | 0 <= q < |r| ensures r[q] < |sentences| {
      assert r[q] in r;
    }
    r
  }

  /** `m[key] || 0`. */
  function Lookup(m: map<(nat, nat), real>, key: (nat, nat)): real {
    if key in m then m[key] else 0.0
  }

  /** The similarity dictionary: exactly the pairs `i < j`, each under its own key. */
  ghost predicate IsSimilarityDict(similarities: map<(nat, nat), real>, pre: seq<seq<String>>, ln: nat -> real)
    requires LogPositive(ln)
  {
    (forall p :: p in similarities <==> p.0 < p.1 < |pre|)
    && forall p :: p in similarities ==> similarities[p] == Similarity(pre[p.0], pre[p.1], ln)
  }

  /** Step 3 of `summarize`: the nested loops that fill the similarity dictionary. */
  method ComputeSimilarities(pre: seq<seq<String>>, ln: nat -> real) returns (similarities: map<(nat, nat), real>)
    requires LogPositive(ln)
    ensures IsSimilarityDict(similarities, pre, ln)
  {
    var n := |pre|;
    similarities := map[];
    var i := 0;
    while i < n
      invariant 0 <= i <= n
      invariant forall p :: p in similarities <==> p.0 < p.1 < n && p.0 < i
      invariant forall p :: p in similarities ==> similarities[p] == Similarity(pre[p.0], pre[p.1], ln)
    {
      var j := i + 1;
      while j < n
        invariant i + 1 <= j <= n
        invariant forall p :: p in similarities <==> p.0 < p.1 < n && (p.0 < i || (p.0 == i && p.1 < j))
        invariant forall p :: p in similarities ==> similarities[p] == Similarity(pre[p.0], pre[p.1], ln)
      {
        similarities := similarities[(i, j) := Similarity(pre[i], pre[j], ln)];
        j := j + 1;
      }
      i := i + 1;
    }
  }

  /**
   * How the ranking reads the dictionary: for `i < j`, the entry stored
   * under `i-j` serves as the weight both of `j` on `i` and of `i` on `j`.
   */
  ghost predicate ReadsAs(similarities: map<(nat, nat), real>, table: seq<seq<real>>, n: nat) {
    IsSquare(table, n)
    && forall i, j :: 0 <= i < j < n ==>
      Lookup(similarities, (i, j)) == table[j][i] && Lookup(similarities, (i, j)) == table[i][j]
  }

  /** The dictionary of step 3 reads as the similarity table. */
  lemma DictReadsAsTable(similarities: map<(nat, nat), real>, pre: seq<seq<String>>, ln: nat -> real)
    requires LogPositive(ln)
    requires IsSimilarityDict(similarities, pre, ln)
    ensures ReadsAs(similarities, SimTable(pre, ln), |pre|)
  {
    forall i, j | 0 <= i < j < |pre|
      ensures Lookup(similarities, (i, j)) == SimTable(pre, ln)[j][i] == SimTable(pre, ln)[i][j]
    {
      assert (i, j) in similarities;
    }
  }

  /**
   * One round of step 4: `newScores` is accumulated from the dictionary (the
   * pair's key has the smaller index first; a sentence never lends to itself)
   * and then copied over `scores`.
   */
  method Round(similarities: map<(nat, nat), real>, ghost table: seq<seq<real>>, scores: array<real>)
    requires ReadsAs(similarities, table, scores.Length)
    modifies scores
    ensures scores[..] == Step(table, old(scores[..]))
  {
    var n := scores.Length;
    ghost var prev := scores[..];
    var newScores := new real[n](_ => 0.0);
    var i := 0;
    while i < n
      invariant 0 <= i <= n
      invariant scores[..] == prev
      invariant forall q :: 0 <= q < i ==> newScores[q] == Step(table, prev)[q]
      invariant forall q :: i <= q < n ==> newScores[q] == 0.0
    {
      AddInflow(similarities, table, scores, newScores, i);
      newScores[i] := (1.0 - Damping) + Damping * newScores[i];
      i := i + 1;
    }
    i := 0;
    while i < n
      invariant 0 <= i <= n
      invariant forall q :: 0 <= q < i ==> scores[q] == newScores[q]
      invariant forall q :: 0 <= q < n ==> newScores[q] == Step(table, prev)[q]
    {
      scores[i] := newScores[i];
      i := i + 1;
    }
  }

  /** The inner loop of a round: the weighted scores of the other sentences are added into `newScores[i]`. */
  method AddInflow(similarities: map<(nat, nat), real>, ghost table: seq<seq<real>>, scores: array<real>,
                   newScores: array<real>, i: nat)
    requires newScores != scores && newScores.Length == scores.Length && i < scores.Length
    requires ReadsAs(similarities, table, scores.Length)
    requires newScores[i] == 0.0
    modifies newScores
    ensures newScores[i] == Inflow(table, scores[..], i, scores.Length)
    ensures forall q :: 0 <= q < newScores.Length && q != i ==> newScores[q] == old(newScores[q])
  {
    var n := scores.Length;
    var j := 0;
    while j < n
      invariant 0 <= j <= n
      invariant newScores[i] == Inflow(table, scores[..], i, j)
      invariant forall q :: 0 <= q < n && q != i ==> newScores[q] == old(newScores[q])
    {
      ghost var acc := newScores[i];
      InflowNext(table, scores[..], i, j);
      if i != j {
        var sim;
        if i < j {
          sim := Lookup(similarities, (i, j));
        } else {
          sim := Lookup(similarities, (j, i));
        }
        assert sim == table[j][i];
        newScores[i] := newScores[i] + sim * scores[j];
      }
      j := j + 1;
    }
  }

  /** Step 4: scores start at 1 and ten rounds overwrite them in place. */
  method TextRankScores(similarities: map<(nat, nat), real>, ghost table: seq<seq<real>>, n: nat) returns (scores: array<real>)
    requires ReadsAs(similarities, table, n)
    ensures fresh(scores)
    ensures scores[..] == Rank(table, n, Iterations)
  {
    scores := new real[n](_ => 1.0);
    var iter := 0;
    while iter < Iterations
      invariant 0 <= iter <= Iterations
      invariant fresh(scores) && scores.Length == n
      invariant scores[..] == Rank(table, n, iter)
    {
      Round(similarities, table, scores);
      iter := iter + 1;
    }
  }

  /**
   * What `summarize` returns. A text that is short enough comes back as it
   * is. Otherwise step 7 returns the value of the async `transformSummary`
   * without awaiting it: a Promise, shown here by the string it resolves to.
   * `value` is what a caller that awaits the result receives.
   */
  datatype Returned = Plain(value: String) | Promised(value: String)

  /** The extractive summary of steps 5 and 6: the chosen sentences in their original order, blank-joined. */
  ghost function Extractive(text: String, numSentences: nat, ln: nat -> real): String
    requires LogPositive(ln)
  {
    var sentences := SplitIntoSentences(text);
    Join(Select(sentences, Chosen(sentences, ln, numSentences)), " ")
  }

  /**
   * What `summarize` returns: the text itself when it splits into no more
   * than `numSentences` sentences, otherwise the promise of the rewritten
   * extractive summary.
   */
  ghost predicate IsSummary(text: String, numSentences: nat, ln: nat -> real, summary: Returned)
    requires LogPositive(ln)
  {
    var sentences := SplitIntoSentences(text);
    (|sentences| <= numSentences ==> summary == Plain(text))
    && (|sentences| > numSentences ==> summary == Promised(TextRewriter.TransformSummary(Extractive(text, numSentences, ln))))
  }

  /**
   * `summarize(text, numSentences)`: the text itself when it has no more
   * sentences than requested; otherwise the `numSentences` best-ranked
   * sentences (equal scores favour the earlier one), in their original
   * order, joined by single spaces, and handed to `transformSummary`, whose
   * Promise is returned.
   */
  method Summarize(text: String, numSentences: nat, ln: nat -> real) returns (summary: Returned)
    requires LogPositive(ln)
    ensures IsSummary(text, numSentences, ln, summary)
  {
    // Step 1
    var sentences := SplitIntoSentences(text);
    if |sentences| <= numSentences {
      return Plain(text);
    }
    var n := |sentences|;
    // Step 2
    var pre := PreprocessAll(sentences);
    // Step 3
    var similarities := ComputeSimilarities(pre, ln);
    DictReadsAsTable(similarities, pre, ln);
    // Step 4
    var scores := TextRankScores(similarities, SimTable(pre, ln), n);
    // Steps 5 and 6
    assert scores[..] == SentenceScores(sentences, ln);
    var chosen := TopInSourceOrder(Range(n), ScoreAt(scores[..]), numSentences);
    assert chosen == Chosen(sentences, ln, numSentences);
    var top := Select(sentences, chosen);
    var extractive := Join(top, " ");
    // Step 7
    summary := Promised(TextRewriter.TransformSummary(extractive));
  }
}
