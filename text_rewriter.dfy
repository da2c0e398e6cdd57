/**
 * The rewriter (js/utils/text-rewriter.js) as it runs when no LLM handler is
 * loaded: `basicTextCleanup` strips a fixed list of filler phrases and
 * tidies white space and the first letter, `transformSummary` cleans an
 * extractive summary sentence by sentence, and `generateAbstractiveSummary`
 * picks the sentences that mention the most key terms.
 */
module TextRewriter {
  import opened Text
  import opened Sorting
  import opened Spacing
  import opened KeyElements

  /** The filler phrases, in the order they are removed. */
  function RemovablePhrases(): seq<String>
  {
    seq(7, RemovablePhraseAt)
  }

  /** The entry at position `k` (the last one for any later position). */
  function RemovablePhraseAt(k: int): String
  {
    match k
    case 0 => "it is important to note that"
    case 1 => "it should be noted that"
    case 2 => "it is worth noting that"
    case 3 => "as a matter of fact"
    case 4 => "as you can see"
    case 5 => "in other words"
    case _ => "in this case"
  }

  /** `phrase` occurs nowhere in `s`, ignoring case. */
  predicate FreeOf(s: String, phrase: String) {
    forall i :: 0 <= i <= |s| ==> !PhraseAt(s[i..], phrase)
  }

  /**
   * `s.replace(new RegExp(phrase, 'gi'), '')`: scanning left to right, every
   * occurrence is cut out and the scan goes on after it.
   */
  function RemovePhrase(s: String, phrase: String): (r: String)
    requires phrase != []
    ensures |r| <= |s|
    decreases |s|
  {
    if s == [] then []
    else if PhraseAt(s, phrase) then RemovePhrase(s[|phrase|..], phrase)
    else [s[0]] + RemovePhrase(s[1..], phrase)
  }

  /**
   * A text without the phrase is returned as it is; a text with it loses at
   * least one occurrence's worth of characters.
   */
  lemma {:induction false} RemovePhraseEffect(s: String, phrase: String)
    requires phrase != []
    ensures FreeOf(s, phrase) ==> RemovePhrase(s, phrase) == s
    ensures !FreeOf(s, phrase) ==> |RemovePhrase(s, phrase)| + |phrase| <= |s|
    decreases |s|
  {
    if s != [] && !PhraseAt(s, phrase) {
      assert s == [s[0]] + s[1..];
      if FreeOf(s, phrase) {
        forall i | 0 <= i <= |s[1..]| ensures !PhraseAt(s[1..][i..], phrase) {
          assert s[1..][i..] == s[i + 1..];
        }
      } else {
        var i :| 0 <= i <= |s| && PhraseAt(s[i..], phrase);
        assert i > 0;
        assert s[1..][i - 1..] == s[i..];
      }
      RemovePhraseEffect(s[1..], phrase);
    } else if s == [] {
      assert s[0..] == s;
    } else {
      assert s[0..] == s;
    }
  }

  /** Removes each phrase in turn. */
  function RemovePhrases(s: String, phrases: seq<String>): (r: String)
    requires forall k :: 0 <= k < |phrases| ==> phrases[k] != []
    ensures |r| <= |s|
    decreases |phrases|
  {
    if phrases == [] then s else RemovePhrases(RemovePhrase(s, phrases[0]), phrases[1..])
  }

  /** A text free of every phrase is left alone. */
  lemma {:induction false} RemovePhrasesOfFree(s: String, phrases: seq<String>)
    requires forall k :: 0 <= k < |phrases| ==> phrases[k] != [] && FreeOf(s, phrases[k])
    ensures RemovePhrases(s, phrases) == s
    decreases |phrases|
  {
    if phrases != [] {
      RemovePhraseEffect(s, phrases[0]);
      RemovePhrasesOfFree(s, phrases[1..]);
    }
  }

  /** The filler phrases removed from `s`, one phrase after the other. */
  function RemoveFillers(s: String): (r: String)
    ensures |r| <= |s|
  {
    RemovePhrases(s, RemovablePhrases())
  }

  /** What a cleaned text looks like. */
  predicate IsClean(s: String) {
    IsTrimmed(s) && NoSpaceBeforePunct(s) && NoDoubleSpace(s) && (s == [] || !IsLower(s[0]))
  }

  /** Spaces before punctuation dropped, longer runs made one blank, trimmed. */
  function Tidy(s: String): (r: String)
    ensures IsTrimmed(r) && NoSpaceBeforePunct(r) && NoDoubleSpace(r)
  {
    var dropped := DropSpaceBeforePunct(s);
    ReplaceSpaceRunsKeepsPunct(dropped, 2);
    TrimKeepsShape(ReplaceSpaceRuns(dropped, 2));
    Trim(ReplaceSpaceRuns(dropped, 2))
  }

  /**
   * `basicTextCleanup(text)`: "" for an empty text; otherwise the filler
   * phrases are removed, the white space tidied and the first letter
   * upper-cased, so that the result is clean.
   */
  function BasicTextCleanup(text: String): (r: String)
    ensures text == [] ==> r == []
    ensures |r| <= |text|
    ensures IsClean(r)
  {
    if text == [] then []
    else
      var tidied := Tidy(RemoveFillers(text));
      UpperFirstKeepsShape(tidied);
      UpperFirst(tidied)
  }

  /** Tidying removes white space only. */
  lemma TidyKeepsText(s: String)
    ensures NonSpaces(Tidy(s)) == NonSpaces(s)
  {
    var dropped := DropSpaceBeforePunct(s);
    DropSpaceBeforePunctKeepsText(s);
    ReplaceSpaceRunsKeepsText(dropped, 2);
    TrimKeepsNonSpaces(ReplaceSpaceRuns(dropped, 2));
  }

  /**
   * Cleaning loses no character except white space and the filler phrases;
   * only the first of the remaining characters may change, to upper case.
   */
  lemma BasicTextCleanupKeepsText(text: String)
    requires text != []
    ensures NonSpaces(BasicTextCleanup(text)) == UpperFirst(NonSpaces(RemoveFillers(text)))
  {
    var removed := RemoveFillers(text);
    var tidied := Tidy(removed);
    assert BasicTextCleanup(text) == UpperFirst(tidied);
    assert NonSpaces(tidied) == NonSpaces(removed) by {
      TidyKeepsText(removed);
    }
    assert NonSpaces(UpperFirst(tidied)) == UpperFirst(NonSpaces(tidied)) by {
      assert tidied == [] || !IsSpace(tidied[0]);
      UpperFirstNonSpaces(tidied);
    }
  }

  /** A clean text without filler phrases is its own cleanup. */
  lemma CleanTextIsKept(text: String)
    requires IsClean(text)
    requires forall k :: 0 <= k < |RemovablePhrases()| ==> FreeOf(text, RemovablePhrases()[k])
    ensures BasicTextCleanup(text) == text
  {
    if text != [] {
      RemovePhrasesOfFree(text, RemovablePhrases());
      DropSpaceBeforePunctFixed(text);
      ReplaceSpaceRunsFixed(text, 2);
      TrimIdentity(text);
      UpperFirstOfNonLower(text);
    }
  }

  /**
   * `addBasicTransitions(sentences)`: a list of at most one sentence comes
   * back as it is, a longer one is mapped to itself.
   */
  function AddBasicTransitions(sentences: seq<String>): (r: seq<String>)
    ensures r == sentences
  {
    if |sentences| <= 1 then sentences
    else seq(|sentences|, i requires 0 <= i < |sentences| => sentences[i])
  }

  function CleanAll(parts: seq<String>): (r: seq<String>)
    ensures |r| == |parts|
    ensures forall q :: 0 <= q < |parts| ==> r[q] == BasicTextCleanup(parts[q]) && IsClean(r[q])
  {
    seq(|parts|, q requires 0 <= q < |parts| => BasicTextCleanup(parts[q]))
  }

  /**
   * `transformSummary(extractiveSummary)` without an LLM handler: "" for an
   * empty summary; otherwise its `/[^.!?]+[.!?]+/g` sentences, each cleaned,
   * joined by single blanks. A summary with no sentence terminator at all
   * therefore comes back empty.
   */
  function TransformSummary(summary: String): (r: String)
    ensures summary == [] ==> r == []
    ensures PlainRun(summary) == |summary| ==> r == []
  {
    if summary == [] then []
    else Join(AddBasicTransitions(CleanAll(SentenceMatches(summary))), " ")
  }

  /** The transformed summary is one clean piece per sentence match, blank-joined. */
  lemma TransformSummaryPieces(summary: String)
    requires summary != []
    ensures var matches := SentenceMatches(summary);
      exists pieces: seq<String> ::
        |pieces| == |matches|
        && TransformSummary(summary) == Join(pieces, " ")
        && forall q :: 0 <= q < |pieces| ==> IsClean(pieces[q]) && pieces[q] == BasicTextCleanup(matches[q])
  {
    var pieces := CleanAll(SentenceMatches(summary));
    assert TransformSummary(summary) == Join(pieces, " ");
  }

  // ---------------------------------------------------------------------
  // generateAbstractiveSummary, fallback branch

  /** The theme texts followed by the entity texts. */
  function KeyTermsOf(keyElements: KeyElementsResult): (r: seq<String>)
    ensures |r| == |keyElements.themes| + |keyElements.entities|
  {
    Texts(keyElements.themes) + Texts(keyElements.entities)
  }

  /** Each sentence's score: the number of key terms it contains, ignoring case. */
  function KeyTermScores(sentences: seq<String>, keyTerms: seq<String>): (r: seq<real>)
    ensures |r| == |sentences|
    ensures forall i :: 0 <= i < |sentences| ==> r[i] == CountContained(sentences[i], keyTerms) as real
  {
    seq(|sentences|, i requires 0 <= i < |sentences| => CountContained(sentences[i], keyTerms) as real)
  }

  /** The ranking of all sentence indices: by non-increasing score, equal scores in order. */
  function ByKeyTerms(sentences: seq<String>, keyTerms: seq<String>): (r: seq<nat>)
  {
    StableSort<nat>(Range(|sentences|), Descending(ScoreAt(KeyTermScores(sentences, keyTerms))))
  }

  /**
   * `.sort((a, b) => b.score - a.score).slice(0, k)` over the sentences: the
   * first `k` indices of the ranking. There is no re-sort by position.
   */
  function AbstractiveOrder(sentences: seq<String>, keyTerms: seq<String>, k: nat): (r: seq<nat>)
    ensures |r| == Min(k, |sentences|)
    ensures forall q :: 0 <= q < |r| ==> r[q] < |sentences|
  {
    var byScore := ByKeyTerms(sentences, keyTerms);
    forall q | 0 <= q < |byScore| ensures byScore[q] < |sentences| {
      assert byScore[q] in multiset(Range(|sentences|));
    }
    byScore[..Min(k, |sentences|)]
  }

  /**
   * The chosen indices are distinct and listed by non-increasing number of
   * key terms, equal counts in their original order.
   */
  lemma AbstractiveOrderRanked(sentences: seq<String>, keyTerms: seq<String>, k: nat)
    ensures var r := AbstractiveOrder(sentences, keyTerms, k);
      Distinct(r)
      && forall p, q :: 0 <= p < q < |r| ==>
        CountContained(sentences[r[p]], keyTerms) > CountContained(sentences[r[q]], keyTerms)
        || (CountContained(sentences[r[p]], keyTerms) == CountContained(sentences[r[q]], keyTerms) && r[p] < r[q])
  {
    var scores := KeyTermScores(sentences, keyTerms);
    var key := Descending(ScoreAt(scores));
    var byScore := ByKeyTerms(sentences, keyTerms);
    var r := AbstractiveOrder(sentences, keyTerms, k);
    StableSortRanked(Range(|sentences|), key);
    StableSortDistinct<nat>(Range(|sentences|), key);
    forall p, q | 0 <= p < q < |r|
      ensures CountContained(sentences[r[p]], keyTerms) > CountContained(sentences[r[q]], keyTerms)
        || (CountContained(sentences[r[p]], keyTerms) == CountContained(sentences[r[q]], keyTerms) && r[p] < r[q])
    {
      assert r[p] == byScore[p] && r[q] == byScore[q];
      assert key(r[p]) == -scores[r[p]] && key(r[q]) == -scores[r[q]];
    }
  }

  /** One chosen sentence against one left out. */
  lemma ChosenBeatsLeftOut(sentences: seq<String>, keyTerms: seq<String>, k: nat, i: nat, j: nat)
    requires i in AbstractiveOrder(sentences, keyTerms, k)
    requires j < |sentences| && j !in AbstractiveOrder(sentences, keyTerms, k)
    ensures CountContained(sentences[i], keyTerms) > CountContained(sentences[j], keyTerms)
      || (CountContained(sentences[i], keyTerms) == CountContained(sentences[j], keyTerms) && i < j)
  {
    var n := |sentences|;
    var scores := KeyTermScores(sentences, keyTerms);
    var score := ScoreAt(scores);
    var byScore := ByKeyTerms(sentences, keyTerms);
    var r := AbstractiveOrder(sentences, keyTerms, k);
    assert r == byScore[..|r|];
    assert j in byScore by {
      assert j in Range(n);
      assert multiset(byScore) == multiset(Range(n));
      assert j in multiset(byScore);
    }
    assert score(i) > score(j) || (score(i) == score(j) && i < j) by {
      StableSortRanked(Range(n), Descending(score));
      PrefixOfRankedIsBest(byScore, score, |r|);
    }
    var p :| 0 <= p < |r| && r[p] == i;
    assert score(i) == scores[i] && score(j) == scores[j];
  }

  /**
   * Every chosen sentence contains more key terms than every sentence left
   * out, or as many and comes earlier.
   */
  lemma AbstractiveOrderIsBest(sentences: seq<String>, keyTerms: seq<String>, k: nat)
    ensures var r := AbstractiveOrder(sentences, keyTerms, k);
      forall i, j :: i in r && 0 <= j < |sentences| && j !in r ==>
        CountContained(sentences[i], keyTerms) > CountContained(sentences[j], keyTerms)
        || (CountContained(sentences[i], keyTerms) == CountContained(sentences[j], keyTerms) && i < j)
  {
    var r := AbstractiveOrder(sentences, keyTerms, k);
    forall i, j | i in r && 0 <= j < |sentences| && j !in r
      ensures CountContained(sentences[i], keyTerms) > CountContained(sentences[j], keyTerms)
        || (CountContained(sentences[i], keyTerms) == CountContained(sentences[j], keyTerms) && i < j)
    {
      ChosenBeatsLeftOut(sentences, keyTerms, k, i, j);
    }
  }

  /**
   * `generateAbstractiveSummary(keyElements, extractedText, numSentences)`
   * without an LLM handler: the `numSentences` sentences that mention the
   * most themes and entities, best first, each cleaned, joined by blanks.
   */
  function AbstractiveFallback(keyElements: KeyElementsResult, extractedText: String, numSentences: nat): (r: String)
  {
    var sentences := SentenceMatches(extractedText);
    var chosen := AbstractiveOrder(sentences, KeyTermsOf(keyElements), numSentences);
    Join(AddBasicTransitions(CleanAll(Select(sentences, chosen))), " ")
  }

  /**
   * The fallback joins `min(numSentences, n)` clean pieces, the `q`-th being
   * the cleanup of the `q`-th index of the score ranking.
   */
  lemma AbstractiveFallbackPieces(keyElements: KeyElementsResult, extractedText: String, numSentences: nat)
    ensures var sentences := SentenceMatches(extractedText);
      var chosen := AbstractiveOrder(sentences, KeyTermsOf(keyElements), numSentences);
      exists pieces: seq<String> ::
        |pieces| == Min(numSentences, |sentences|)
        && AbstractiveFallback(keyElements, extractedText, numSentences) == Join(pieces, " ")
        && forall q :: 0 <= q < |pieces| ==> IsClean(pieces[q]) && pieces[q] == BasicTextCleanup(sentences[chosen[q]])
  {
    var sentences := SentenceMatches(extractedText);
    var chosen := AbstractiveOrder(sentences, KeyTermsOf(keyElements), numSentences);
    var pieces := CleanAll(Select(sentences, chosen));
    assert AbstractiveFallback(keyElements, extractedText, numSentences) == Join(pieces, " ");
    SelectedPieces(sentences, chosen, pieces);
  }

  /** The cleaned selection has one clean piece per chosen index. */
  lemma SelectedPieces(sentences: seq<String>, chosen: seq<nat>, pieces: seq<String>)
    requires forall q :: 0 <= q < |chosen| ==> chosen[q] < |sentences|
    requires pieces == CleanAll(Select(sentences, chosen))
    ensures |pieces| == |chosen|
    ensures forall q :: 0 <= q < |pieces| ==> IsClean(pieces[q]) && pieces[q] == BasicTextCleanup(sentences[chosen[q]])
  {
  }
}
