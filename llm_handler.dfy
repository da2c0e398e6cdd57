/**
 * The deterministic helpers of the simulated LLM handler
 * (js/utils/llm-handler.js): text clean-up, first-letter capitalisation,
 * verb conjugation, the choice of structurally important sentences,
 * sentiment, sectioning, distinct insights, phrase containment, the final
 * quality pass and the index arithmetic of `extractKey`.
 */
module LLMHandler {
  import opened Wrappers
  import opened Text
  import opened Sorting
  import opened Spacing

  // ---------------------------------------------------------------------
  // cleanText and capitalizeFirstLetter

  /** Ends with one of `.`, `!`, `?`. */
  predicate EndsWithTerminator(s: String) {
    s != [] && IsTerminator(s[|s| - 1])
  }

  /**
   * What `cleanText` makes of a non-empty text: single blanks only, no
   * white space at either end or before `, . ; :`, a first character that
   * is not a lower-case letter and a final `.`, `!` or `?`.
   */
  predicate IsCleanSentence(s: String) {
    EndsWithTerminator(s) && IsTrimmed(s) && NoSpaceBeforePunct(s) && NoDoubleSpace(s)
    && SpacesAreBlank(s) && !IsLower(s[0])
  }

  /**
   * The first four steps of `cleanText`: every white-space run made one
   * blank, the ends trimmed, blanks before `, . ; :` dropped, the first
   * character upper-cased.
   */
  function Tidied(text: String): (r: String)
    ensures IsTrimmed(r) && NoSpaceBeforePunct(r) && NoDoubleSpace(r) && SpacesAreBlank(r)
    ensures r == [] || !IsLower(r[0])
  {
    var single := ReplaceSpaceRuns(text, 1);
    TrimKeepsShape(single);
    var trimmed := Trim(single);
    DropSpaceBeforePunctKeepsShape(trimmed);
    var dropped := DropSpaceBeforePunct(trimmed);
    UpperFirstKeepsShape(dropped);
    UpperFirst(dropped)
  }

  /**
   * `cleanText(text)` (the later of its two declarations, which is the one
   * in effect): "" for an empty text; otherwise the tidied text with a `.`
   * appended unless it already ends with a terminator.
   */
  function CleanText(text: String): (r: String)
    ensures text == [] <==> r == []
  {
    if text == [] then [] else Terminated(Tidied(text))
  }

  /** The text with a `.` appended unless it already ends with a terminator. */
  function Terminated(t: String): (r: String)
    ensures EndsWithTerminator(r)
  {
    if EndsWithTerminator(t) then t else t + "."
  }

  /** A non-empty text is cleaned into a clean sentence. */
  lemma CleanTextIsClean(text: String)
    requires text != []
    ensures IsCleanSentence(CleanText(text))
  {
    TerminatedIsClean(Tidied(text));
  }

  /** Terminating a tidy text gives a clean sentence. */
  lemma TerminatedIsClean(t: String)
    requires IsTrimmed(t) && NoSpaceBeforePunct(t) && NoDoubleSpace(t) && SpacesAreBlank(t)
    requires t == [] || !IsLower(t[0])
    ensures IsCleanSentence(Terminated(t))
  {
    if !EndsWithTerminator(t) {
      ConcatKeepsShape(t, ".");
      assert t == [] || (t + ".")[0] == t[0];
    }
  }

  /** Dropping white space keeps a last character that is not white space. */
  lemma NonSpacesLast(s: String)
    requires s != [] && !IsSpace(s[|s| - 1])
    ensures NonSpaces(s) == NonSpaces(s[..|s| - 1]) + [s[|s| - 1]]
  {
    var p, c := s[..|s| - 1], s[|s| - 1];
    assert s == p + [c];
    NonSpacesSnoc(p, c);
  }

  lemma NonSpacesSnoc(p: String, c: char)
    requires !IsSpace(c)
    ensures NonSpaces(p + [c]) == NonSpaces(p) + [c]
  {
    NonSpacesAppend(p, [c]);
    assert NonSpaces([c]) == [c] + NonSpaces([]);
  }

  /** Upper-casing the first character of a trimmed text keeps whether it ends with a terminator. */
  lemma UpperFirstEnds(d: String)
    requires IsTrimmed(d)
    ensures EndsWithTerminator(UpperFirst(d)) <==> EndsWithTerminator(NonSpaces(d))
  {
    if d != [] {
      NonSpacesLast(d);
      var u := UpperFirst(d);
      if |d| > 1 {
        assert u[|u| - 1] == u[1..][|u| - 2] == d[|d| - 1];
      }
    }
  }

  /** Tidying loses white space only and upper-cases the first of the other characters. */
  lemma TidiedKeepsText(text: String)
    ensures NonSpaces(Tidied(text)) == UpperFirst(NonSpaces(text))
    ensures EndsWithTerminator(Tidied(text)) <==> EndsWithTerminator(NonSpaces(text))
  {
    var single := ReplaceSpaceRuns(text, 1);
    var trimmed := Trim(single);
    var dropped := DropSpaceBeforePunct(trimmed);
    assert Tidied(text) == UpperFirst(dropped);
    assert NonSpaces(dropped) == NonSpaces(text) by {
      ReplaceSpaceRunsKeepsText(text, 1);
      TrimKeepsNonSpaces(single);
      DropSpaceBeforePunctKeepsText(trimmed);
    }
    UpperFirstNonSpaces(dropped);
    UpperFirstEnds(dropped);
  }

  /**
   * Cleaning loses white space only: the other characters stay, in order,
   * the first upper-cased, and a `.` is added exactly when they do not
   * already end with a terminator.
   */
  lemma CleanTextKeepsText(text: String)
    requires text != []
    ensures NonSpaces(CleanText(text))
      == UpperFirst(NonSpaces(text)) + (if EndsWithTerminator(NonSpaces(text)) then "" else ".")
  {
    TidiedKeepsText(text);
    TerminatedKeepsText(Tidied(text));
  }

  /** Appending the `.` adds it after the other characters. */
  lemma TerminatedKeepsText(t: String)
    ensures NonSpaces(Terminated(t)) == NonSpaces(t) + (if EndsWithTerminator(t) then "" else ".")
  {
    if !EndsWithTerminator(t) {
      NonSpacesAppend(t, ".");
      assert NonSpaces(".") == ".";
    }
  }

  /** The texts `cleanText` leaves alone are exactly "" and the clean sentences. */
  lemma CleanTextFixedPoints(s: String)
    ensures CleanText(s) == s <==> s == [] || IsCleanSentence(s)
  {
    if s != [] {
      CleanTextIsClean(s);
    }
    if s != [] && IsCleanSentence(s) {
      ReplaceSpaceRunsFixed(s, 1);
      TrimIdentity(s);
      DropSpaceBeforePunctFixed(s);
      UpperFirstOfNonLower(s);
    }
  }

  /** Cleaning twice is cleaning once. */
  lemma CleanTextIdempotent(text: String)
    ensures CleanText(CleanText(text)) == CleanText(text)
  {
    if text != [] {
      CleanTextIsClean(text);
    }
    CleanTextFixedPoints(CleanText(text));
  }

  /**
   * `capitalizeFirstLetter(string)` is `UpperFirst` ("" stays ""): doing
   * it twice is doing it once, and it changes nothing but letter case.
   */
  lemma CapitalizeFirstLetterStable(s: String)
    ensures UpperFirst(UpperFirst(s)) == UpperFirst(s)
    ensures Lower(UpperFirst(s)) == Lower(s)
  {
    if s != [] {
      var u := UpperFirst(s);
      assert u == [ToUpperChar(s[0])] + s[1..];
      assert UpperFirst(u) == [ToUpperChar(u[0])] + u[1..];
      forall i | 0 <= i < |s| ensures Lower(u)[i] == Lower(s)[i] {
        if i > 0 {
          assert u[i] == u[1..][i - 1] == s[i];
        }
      }
    }
  }

  // ---------------------------------------------------------------------
  // conjugateVerb

  /** The verbs with a listed present-tense form, in table order. */
  function PresentTense(): seq<(String, String)>
  {
    seq(13, PresentTenseAt)
  }

  /**
   * The entry at position `k` (the last one for any later position): a verb
   * and its listed third-person form, written as the verb and its ending.
   */
  function PresentTenseAt(k: int): (String, String)
  {
    match k
    case 0 => ("discuss", "discuss" + "es")
    case 1 => ("show", "show" + "s")
    case 2 => ("reveal", "reveal" + "s")
    case 3 => ("present", "present" + "s")
    case 4 => ("describe", "describe" + "s")
    case 5 => ("examine", "examine" + "s")
    case 6 => ("provide", "provide" + "s")
    case 7 => ("address", "address" + "es")
    case 8 => ("highlight", "highlight" + "s")
    case 9 => ("demonstrate", "demonstrate" + "s")
    case 10 => ("explain", "explain" + "s")
    case 11 => ("explore", "explore" + "s")
    case _ => ("analyze", "analyze" + "s")
  }

  /** The form listed for `verb`, if any. */
  function LookUp(table: seq<(String, String)>, verb: String): (r: Option<String>)
    ensures r.None? <==> forall k :: 0 <= k < |table| ==> table[k].0 != verb
    ensures r.Some? ==> exists k :: 0 <= k < |table| && table[k] == (verb, r.value)
  {
    if table == [] then None
    else if table[0].0 == verb then Some(table[0].1)
    else LookUp(table[1..], verb)
  }

  /**
   * `conjugateVerb(verb)`: the listed form for the thirteen table verbs,
   * `verb + "s"` for every other one; either way the verb followed by
   * "s" or "es".
   */
  lemma PresentTenseForms()
    ensures forall k :: 0 <= k < |PresentTense()| ==>
      PresentTense()[k].1 == PresentTense()[k].0 + "s" || PresentTense()[k].1 == PresentTense()[k].0 + "es"
  {
    forall k | 0 <= k < |PresentTense()|
      ensures PresentTense()[k].1 == PresentTense()[k].0 + "s" || PresentTense()[k].1 == PresentTense()[k].0 + "es"
    {
      assert PresentTense()[k] == PresentTenseAt(k);
    }
  }

  function ConjugateVerb(verb: String): (r: String)
    ensures r == verb + "s" || r == verb + "es"
    ensures (forall k :: 0 <= k < |PresentTense()| ==> PresentTense()[k].0 != verb) ==> r == verb + "s"
    ensures (exists k :: 0 <= k < |PresentTense()| && PresentTense()[k].0 == verb) ==>
      exists k :: 0 <= k < |PresentTense()| && PresentTense()[k] == (verb, r)
  {
    match LookUp(PresentTense(), verb)
    case Some(form) =>
      PresentTenseForms();
      form
    case None => verb + "s"
  }

  // ---------------------------------------------------------------------
  // extractKey

  /** The sentence `extractKey` returns for an empty list. */
  const FallbackSentence: String := "Information is presented with context and detail."

  /** Which sentence `extractKey` starts from. */
  datatype KeyChoice = Fallback | At(index: nat)

  /**
   * The index arithmetic of `extractKey(sentences, position)`: the fallback
   * for no sentences; otherwise a negative position counts from the end and
   * both ends are clamped to the list.
   */
  function ExtractKeyIndex(count: nat, position: int): (r: KeyChoice)
    ensures r == Fallback <==> count == 0
    ensures r.At? ==> r.index < count
    ensures r.At? && 0 <= position < count ==> r.index == position
    ensures r.At? && position < 0 && position + count >= 0 ==> r.index == position + count
    ensures r.At? && position >= count ==> r.index == count - 1
    ensures r.At? && position + count < 0 ==> r.index == 0
  {
    if count == 0 then Fallback
    else if position < 0 then At(Max(0, count + position) as nat)
    else At(Min(position, count - 1) as nat)
  }

  /** The sentence `extractKey` goes on to rewrite. */
  function ExtractKeySentence(sentences: seq<String>, position: int): (r: String)
    ensures sentences == [] ==> r == FallbackSentence
    ensures sentences != [] ==> r in sentences
  {
    match ExtractKeyIndex(|sentences|, position)
    case Fallback => FallbackSentence
    case At(i) => sentences[i]
  }

  // ---------------------------------------------------------------------
  // identifyStructurallyImportantSentences

  /** The listing words of the first pattern. */
  const ListingWords: seq<String> := [
    "first", "second", "third", "finally", "moreover", "furthermore", "in addition",
    "another", "importantly"]

  /** The contrast words of the second pattern. */
  const ContrastWords: seq<String> := [
    "however", "nevertheless", "conversely", "in contrast", "on the other hand"]

  /** `\bword\b` matches `t` at `p`. */
  predicate WholeWordAt(t: String, word: String, p: nat) {
    BoundaryAt(t, p) && OccursAt(t, word, p) && BoundaryAt(t, p + |word|)
  }

  /** `t.match(/\b(w1|w2|...)\b/i)` succeeds on a lower-case `t`. */
  predicate HasWholeWord(t: String, words: seq<String>) {
    exists k, p :: 0 <= k < |words| && 0 <= p <= |t| && WholeWordAt(t, words[k], p)
  }

  /** The sentence contains one of the listing or contrast words as a whole word. */
  predicate IsMarked(sentence: String) {
    HasWholeWord(Lower(sentence), ListingWords) || HasWholeWord(Lower(sentence), ContrastWords)
  }

  /** The indices `i` with `0 < i < k` whose sentence is marked, in increasing order. */
  function MarkedInterior(sentences: seq<String>, k: nat): (r: seq<nat>)
    requires k <= |sentences|
    ensures forall q :: 0 <= q < |r| ==> 0 < r[q] < k
    decreases k
  {
    if k <= 1 then []
    else MarkedInterior(sentences, k - 1) + (if IsMarked(sentences[k - 1]) then [k - 1] else [])
  }

  lemma {:induction false} MarkedInteriorIncreasing(sentences: seq<String>, k: nat)
    requires k <= |sentences|
    ensures StrictlyIncreasing(MarkedInterior(sentences, k))
    decreases k
  {
    if k > 1 {
      MarkedInteriorIncreasing(sentences, k - 1);
    }
  }

  /** An index between 0 and `k` is listed exactly when its sentence is marked. */
  lemma {:induction false} MarkedInteriorExact(sentences: seq<String>, k: nat)
    requires k <= |sentences|
    ensures forall i :: 0 < i < k ==> (IsMarked(sentences[i]) <==> i in MarkedInterior(sentences, k))
    decreases k
  {
    if k > 1 {
      MarkedInteriorExact(sentences, k - 1);
      var prev := MarkedInterior(sentences, k - 1);
      assert k - 1 !in prev;
    }
  }

  /**
   * What `identifyStructurallyImportantSentences(sentences)` returns:
   * nothing for no sentences; otherwise the first index, then the last
   * index when there are two or more, then the marked interior indices.
   */
  function StructurallyImportant(sentences: seq<String>): (r: seq<nat>)
    ensures sentences == [] <==> r == []
    ensures |sentences| == 1 ==> r == [0]
    ensures sentences != [] ==> r[0] == 0
    ensures |sentences| > 1 ==> |r| >= 2 && r[1] == |sentences| - 1
    ensures forall q :: 0 <= q < |r| ==> r[q] < |sentences|
  {
    var n := |sentences|;
    if n == 0 then []
    else (if n > 1 then [0, n - 1] else [0]) + MarkedInterior(sentences, n - 1)
  }

  /**
   * After the first and last sentences come every interior sentence
   * carrying a listing or contrast word, and only those, in increasing order.
   */
  lemma StructurallyImportantInterior(sentences: seq<String>)
    requires |sentences| > 1
    ensures var r := StructurallyImportant(sentences);
      StrictlyIncreasing(r[2..])
      && forall i :: 0 < i < |sentences| - 1 ==> (IsMarked(sentences[i]) <==> i in r[2..])
  {
    var n := |sentences|;
    var m := MarkedInterior(sentences, n - 1);
    assert StructurallyImportant(sentences)[2..] == m;
    MarkedInteriorIncreasing(sentences, n - 1);
    MarkedInteriorExact(sentences, n - 1);
  }

  /** No index is listed twice. */
  lemma StructurallyImportantDistinct(sentences: seq<String>)
    ensures Distinct(StructurallyImportant(sentences))
  {
    var n := |sentences|;
    if n > 1 {
      var r := StructurallyImportant(sentences);
      var m := MarkedInterior(sentences, n - 1);
      assert r[2..] == m;
      MarkedInteriorIncreasing(sentences, n - 1);
      forall a, b | 0 <= a < b < |r| ensures r[a] != r[b] {
        if a >= 2 {
          assert r[a] == m[a - 2] && r[b] == m[b - 2];
        }
      }
    }
  }

  /**
   * `identifyStructurallyImportantSentences(sentences)`: the `forEach` that
   * pushes each marked interior index after the first and last.
   */
  method IdentifyStructurallyImportantSentences(sentences: seq<String>) returns (important: seq<nat>)
    ensures important == StructurallyImportant(sentences)
  {
    important := [];
    var n := |sentences|;
    if n == 0 {
      return;
    }
    important := [0];
    if n > 1 {
      important := important + [n - 1];
    }
    ghost var head := important;
    var idx := 0;
    assert MarkedInterior(sentences, Min(idx, n - 1)) == [];
    while idx < n
      invariant 0 <= idx <= n
      invariant important == head + MarkedInterior(sentences, Min(idx, n - 1))
    {
      important := VisitSentence(sentences, head, idx, important);
      idx := idx + 1;
    }
    assert Min(idx, n - 1) == n - 1;
  }

  /**
   * One step of the `forEach`: an interior index is pushed exactly when
   * its sentence is marked; the first and the last are skipped.
   */
  method VisitSentence(sentences: seq<String>, ghost head: seq<nat>, idx: nat, important: seq<nat>)
    returns (important': seq<nat>)
    requires idx < |sentences|
    requires important == head + MarkedInterior(sentences, Min(idx, |sentences| - 1))
    ensures important' == head + MarkedInterior(sentences, Min(idx + 1, |sentences| - 1))
  {
    important' := important;
    if idx > 0 && idx < |sentences| - 1 {
      var marked := IsMarked(sentences[idx]);
      if marked {
        important' := important + [idx];
      }
    }
  }


  // ---------------------------------------------------------------------
  // detectSentiment

  function PositiveWords(): seq<String>
  {
    seq(10, PositiveWordAt)
  }

  /** The entry at position `k` (the last one for any later position). */
  function PositiveWordAt(k: int): String
  {
    match k
    case 0 => "good"
    case 1 => "great"
    case 2 => "excellent"
    case 3 => "positive"
    case 4 => "valuable"
    case 5 => "beneficial"
    case 6 => "advantage"
    case 7 => "improvement"
    case 8 => "enhance"
    case _ => "solution"
  }

  function NegativeWords(): seq<String>
  {
    seq(10, NegativeWordAt)
  }

  /** The entry at position `k` (the last one for any later position). */
  function NegativeWordAt(k: int): String
  {
    match k
    case 0 => "bad"
    case 1 => "problem"
    case 2 => "challenge"
    case 3 => "difficult"
    case 4 => "issue"
    case 5 => "concern"
    case 6 => "negative"
    case 7 => "risk"
    case 8 => "threat"
    case _ => "disadvantage"
  }

  datatype Sentiment = Positive | Negative | Neutral

  /**
   * A match of `\bword\w*\b` starts at `p`: `word` occurs there after a
   * word boundary. (The greedy `\w*` always reaches a closing boundary,
   * and a match swallows the rest of its word, so no two matches overlap.)
   */
  predicate StemAt(t: String, word: String, p: nat) {
    OccursAt(t, word, p) && (p == 0 || !IsWordChar(t[p - 1]))
  }

  /** The number of match starts at or after `from`. */
  function StemCountFrom(t: String, word: String, from: nat): (r: nat)
    ensures r == 0 <==> forall p :: from <= p < |t| ==> !StemAt(t, word, p)
    decreases |t| - from
  {
    if from >= |t| then 0
    else (if StemAt(t, word, from) then 1 else 0) + StemCountFrom(t, word, from + 1)
  }

  /** `(t.match(new RegExp(`\\b${word}\\w*\\b`, "g")) || []).length` for a non-empty `word`. */
  function StemCount(t: String, word: String): (r: nat)
    ensures r <= |t|
  {
    StemCountBound(t, word, 0);
    StemCountFrom(t, word, 0)
  }

  lemma {:induction false} StemCountBound(t: String, word: String, from: nat)
    ensures StemCountFrom(t, word, from) <= |t| - from || from >= |t|
    decreases |t| - from
  {
    if from < |t| {
      StemCountBound(t, word, from + 1);
    }
  }

  /** The total number of matches of all the words. */
  function Score(t: String, words: seq<String>): nat {
    if words == [] then 0 else StemCount(t, words[0]) + Score(t, words[1..])
  }

  /**
   * The verdict on the two scores: positive when the positive score is
   * more than one and a half times the negative one, negative in the
   * mirror case, neutral otherwise (so always when both are 0).
   */
  function Classify(positive: nat, negative: nat): (r: Sentiment)
    ensures r == Positive <==> positive as real > negative as real * 1.5
    ensures r == Negative <==> negative as real > positive as real * 1.5
    ensures r == Neutral <==> positive as real <= negative as real * 1.5 && negative as real <= positive as real * 1.5
  {
    if positive as real > negative as real * 1.5 then Positive
    else if negative as real > positive as real * 1.5 then Negative
    else Neutral
  }

  /** Swapping the scores swaps the verdict. */
  lemma ClassifySymmetric(positive: nat, negative: nat)
    ensures Classify(positive, negative) == Positive <==> Classify(negative, positive) == Negative
    ensures Classify(positive, negative) == Neutral <==> Classify(negative, positive) == Neutral
  {
  }

  /**
   * `detectSentiment(text)`: the numbers of positive and negative word
   * matches in the lower-cased text, classified.
   */
  method DetectSentiment(text: String) returns (r: Sentiment)
    ensures r == Classify(Score(Lower(text), PositiveWords()), Score(Lower(text), NegativeWords()))
  {
    var lowerText := Lower(text);
    var positiveScore := 0;
    var negativeScore := 0;
    var i := 0;
    while i < |PositiveWords()|
      invariant 0 <= i <= |PositiveWords()|
      invariant positiveScore + Score(lowerText, PositiveWords()[i..]) == Score(lowerText, PositiveWords())
    {
      assert PositiveWords()[i..][1..] == PositiveWords()[i + 1..];
      positiveScore := positiveScore + StemCount(lowerText, PositiveWords()[i]);
      i := i + 1;
    }
    i := 0;
    while i < |NegativeWords()|
      invariant 0 <= i <= |NegativeWords()|
      invariant negativeScore + Score(lowerText, NegativeWords()[i..]) == Score(lowerText, NegativeWords())
    {
      assert NegativeWords()[i..][1..] == NegativeWords()[i + 1..];
      negativeScore := negativeScore + StemCount(lowerText, NegativeWords()[i]);
      i := i + 1;
    }
    if positiveScore as real > negativeScore as real * 1.5 {
      return Positive;
    }
    if negativeScore as real > positiveScore as real * 1.5 {
      return Negative;
    }
    return Neutral;
  }

  /** A text in which none of the words starts a word is neutral. */
  lemma NoSentimentWordsIsNeutral(text: String)
    requires forall k, p :: 0 <= k < |PositiveWords()| && 0 <= p < |text| ==> !StemAt(Lower(text), PositiveWords()[k], p)
    requires forall k, p :: 0 <= k < |NegativeWords()| && 0 <= p < |text| ==> !StemAt(Lower(text), NegativeWords()[k], p)
    ensures Classify(Score(Lower(text), PositiveWords()), Score(Lower(text), NegativeWords())) == Neutral
  {
    NoMatchesScoreZero(Lower(text), PositiveWords());
    NoMatchesScoreZero(Lower(text), NegativeWords());
  }

  /** No match of any word means a score of 0. */
  lemma {:induction false} NoMatchesScoreZero(t: String, words: seq<String>)
    requires forall k, p :: 0 <= k < |words| && 0 <= p < |t| ==> !StemAt(t, words[k], p)
    ensures Score(t, words) == 0
  {
    if words != [] {
      assert forall k, p :: 0 <= k < |words[1..]| && 0 <= p < |t| ==> !StemAt(t, words[1..][k], p) by {
        forall k, p | 0 <= k < |words[1..]| && 0 <= p < |t| ensures !StemAt(t, words[1..][k], p) {
          assert words[1..][k] == words[k + 1];
        }
      }
      NoMatchesScoreZero(t, words[1..]);
    }
  }

  // ---------------------------------------------------------------------
  // containsAnyPhrase

  /** A phrase that counts: longer than three characters and contained, ignoring case. */
  predicate Qualifies(text: String, phrase: String) {
    |phrase| > 3 && ContainsIgnoreCase(text, phrase)
  }

  /** How many of the phrases count. */
  function Qualifying(text: String, phrases: seq<String>): (r: nat)
    ensures r <= |phrases|
    ensures r == 0 <==> forall k :: 0 <= k < |phrases| ==> !Qualifies(text, phrases[k])
  {
    if phrases == [] then 0
    else
      assert forall k :: 1 <= k < |phrases| ==> phrases[k] == phrases[1..][k - 1];
      (if Qualifies(text, phrases[0]) then 1 else 0) + Qualifying(text, phrases[1..])
  }

  /**
   * `containsAnyPhrase(text, phrases, threshold)`: whether at least
   * `threshold` of the phrases count; the check is made only after a
   * phrase counts, so a threshold below 1 acts as 1.
   */
  method ContainsAnyPhrase(text: String, phrases: seq<String>, threshold: int) returns (r: bool)
    ensures r <==> Qualifying(text, phrases) >= Max(threshold, 1)
  {
    var matches := 0;
    var i := 0;
    while i < |phrases|
      invariant 0 <= i <= |phrases|
      invariant matches + Qualifying(text, phrases[i..]) == Qualifying(text, phrases)
      invariant matches < Max(threshold, 1)
    {
      QualifyingStep(text, phrases, i);
      var counts := PhraseCounts(text, phrases[i]);
      if counts {
        matches := matches + 1;
        if matches >= threshold {
          return true;
        }
      }
      i := i + 1;
    }
    assert phrases[i..] == [];
    return false;
  }

  /** The test of one phrase: longer than three characters and contained, ignoring case. */
  method PhraseCounts(text: String, phrase: String) returns (counts: bool)
    ensures counts == Qualifies(text, phrase)
  {
    counts := |phrase| > 3 && Contains(Lower(text), Lower(phrase));
  }

  lemma QualifyingStep(text: String, phrases: seq<String>, i: nat)
    requires i < |phrases|
    ensures Qualifying(text, phrases[i..])
      == (if Qualifies(text, phrases[i]) then 1 else 0) + Qualifying(text, phrases[i + 1..])
  {
    assert phrases[i..][1..] == phrases[i + 1..];
  }

  /** More phrases never make fewer of them count. */
  lemma {:induction false} QualifyingAppend(text: String, a: seq<String>, b: seq<String>)
    ensures Qualifying(text, a + b) == Qualifying(text, a) + Qualifying(text, b)
  {
    if a == [] {
      assert a + b == b;
    } else {
      assert (a + b)[1..] == a[1..] + b;
      QualifyingAppend(text, a[1..], b);
    }
  }

  // ---------------------------------------------------------------------
  // segmentIntoSections

  /** The words that close a section, matched anywhere in the lower-cased sentence. */
  const ClosingWords: seq<String> := [
    "therefore", "thus", "in conclusion", "to summarize", "consequently", "as a result"]

  /**
   * A sentence closes the current section, of `length` sentences counting
   * itself, when it ends with `.` and either carries a closing word or
   * makes the section three sentences long.
   */
  predicate ClosesSection(sentence: String, length: nat) {
    sentence != [] && sentence[|sentence| - 1] == '.' && (HasClosingWord(Lower(sentence)) || length >= 3)
  }

  /** `lower.match(/(therefore|thus|...)/)` succeeds. */
  predicate HasClosingWord(lower: String) {
    exists k :: 0 <= k < |ClosingWords| && Contains(lower, ClosingWords[k])
  }

  /** Adding a section adds its sentences at the end. */
  lemma FlattenAppend(sections: seq<seq<String>>, section: seq<String>)
    ensures Flatten(sections + [section]) == Flatten(sections) + section
  {
    assert (sections + [section])[..|sections|] == sections;
  }

  /** The sentences of the sections, in order. */
  function Flatten(sections: seq<seq<String>>): (r: seq<String>)
  {
    if sections == [] then [] else Flatten(sections[..|sections| - 1]) + sections[|sections| - 1]
  }

  /** No sentence but possibly the last closes the section. */
  predicate OpenUntilLast(section: seq<String>) {
    forall j :: 0 <= j < |section| - 1 ==> !ClosesSection(section[j], j + 1)
  }

  /** A finished section: non-empty, closed by its last sentence and by no earlier one. */
  predicate IsClosedSection(section: seq<String>) {
    section != [] && OpenUntilLast(section) && ClosesSection(section[|section| - 1], |section|)
  }

  /**
   * `segmentIntoSections(sentences)`: up to three sentences form a single
   * section (so no sentences give one empty section); otherwise sentences
   * are gathered until one closes the section, and whatever is left at the
   * end is a last, unclosed section. The sections put together give back
   * the sentences.
   */
  method SegmentIntoSections(sentences: seq<String>) returns (sections: seq<seq<String>>)
    ensures |sentences| <= 3 ==> sections == [sentences]
    ensures Flatten(sections) == sentences
    ensures |sentences| > 3 ==> forall q :: 0 <= q < |sections| ==> sections[q] != [] && OpenUntilLast(sections[q])
    ensures |sentences| > 3 ==> forall q :: 0 <= q < |sections| - 1 ==> IsClosedSection(sections[q])
  {
    if |sentences| <= 3 {
      assert Flatten([sentences]) == Flatten([]) + sentences;
      return [sentences];
    }
    sections := [];
    var current: seq<String> := [];
    var index := 0;
    while index < |sentences|
      invariant 0 <= index <= |sentences|
      invariant SegmentedSoFar(sentences, index, sections, current)
    {
      sections, current := GatherSentence(sentences, index, sections, current);
      index := index + 1;
    }
    if |current| > 0 {
      LastSection(sentences, sections, current);
      sections := sections + [current];
    } else {
      NoLastSection(sentences, sections, current);
    }
  }

  /** After the last sentence, a non-empty open section becomes the last section. */
  lemma LastSection(sentences: seq<String>, sections: seq<seq<String>>, current: seq<String>)
    requires SegmentedSoFar(sentences, |sentences|, sections, current) && current != []
    ensures Flatten(sections + [current]) == sentences
    ensures forall q :: 0 <= q < |sections + [current]| ==>
      (sections + [current])[q] != [] && OpenUntilLast((sections + [current])[q])
    ensures forall q :: 0 <= q < |sections + [current]| - 1 ==> IsClosedSection((sections + [current])[q])
  {
    FlattenAppend(sections, current);
    assert sentences[..|sentences|] == sentences;
    var all := sections + [current];
    forall q | 0 <= q < |all| ensures all[q] != [] && OpenUntilLast(all[q]) {
      if q < |sections| {
        assert all[q] == sections[q];
      }
    }
    forall q | 0 <= q < |all| - 1 ensures IsClosedSection(all[q]) {
      assert all[q] == sections[q];
    }
  }

  /** After the last sentence, with no open section, the closed sections are all there is. */
  lemma NoLastSection(sentences: seq<String>, sections: seq<seq<String>>, current: seq<String>)
    requires SegmentedSoFar(sentences, |sentences|, sections, current) && current == []
    ensures Flatten(sections) == sentences
    ensures forall q :: 0 <= q < |sections| ==> sections[q] != [] && OpenUntilLast(sections[q])
    ensures forall q :: 0 <= q < |sections| - 1 ==> IsClosedSection(sections[q])
  {
    assert sentences[..|sentences|] == sentences;
  }

  /**
   * After the sentences before `index`: the closed sections and the open
   * one hold exactly those sentences, and the open one has no sentence
   * that closes it.
   */
  predicate SegmentedSoFar(sentences: seq<String>, index: nat, sections: seq<seq<String>>, current: seq<String>)
    requires index <= |sentences|
  {
    Flatten(sections) + current == sentences[..index]
    && (forall q :: 0 <= q < |sections| ==> IsClosedSection(sections[q]))
    && forall j :: 0 <= j < |current| ==> !ClosesSection(current[j], j + 1)
  }

  /** One pass of the loop of `segmentIntoSections`: add the sentence, and close the section at a boundary. */
  method GatherSentence(sentences: seq<String>, index: nat, sections0: seq<seq<String>>, current0: seq<String>)
    returns (sections: seq<seq<String>>, current: seq<String>)
    requires index < |sentences| && SegmentedSoFar(sentences, index, sections0, current0)
    ensures SegmentedSoFar(sentences, index + 1, sections, current)
  {
    var sentence := sentences[index];
    sections, current := sections0, current0 + [sentence];
    var lowerSentence := Lower(sentence);
    var isBoundary := |sentence| > 0 && sentence[|sentence| - 1] == '.'
      && (HasClosingWord(lowerSentence) || |current| >= 3);
    assert isBoundary == ClosesSection(sentence, |current|);
    if isBoundary && |current| > 0 {
      SegmentClosed(sentences, index, sections0, current0);
      sections := sections + [current];
      current := [];
    } else {
      SegmentOpen(sentences, index, sections0, current0);
    }
  }

  /** A sentence that closes the open section ends it. */
  lemma SegmentClosed(sentences: seq<String>, index: nat, sections: seq<seq<String>>, current: seq<String>)
    requires index < |sentences| && SegmentedSoFar(sentences, index, sections, current)
    requires ClosesSection(sentences[index], |current| + 1)
    ensures SegmentedSoFar(sentences, index + 1, sections + [current + [sentences[index]]], [])
  {
    var section := current + [sentences[index]];
    FlattenClosed(sentences, index, sections, current);
    ClosedSection(current, sentences[index]);
    AllClosedSnoc(sections, section);
  }

  /** Closing the open section keeps the sentences in order. */
  lemma FlattenClosed(sentences: seq<String>, index: nat, sections: seq<seq<String>>, current: seq<String>)
    requires index < |sentences| && Flatten(sections) + current == sentences[..index]
    ensures Flatten(sections + [current + [sentences[index]]]) + [] == sentences[..index + 1]
  {
    FlattenAppend(sections, current + [sentences[index]]);
    assert sentences[..index + 1] == sentences[..index] + [sentences[index]];
  }

  /** Closed sections followed by a closed section. */
  lemma AllClosedSnoc(sections: seq<seq<String>>, section: seq<String>)
    requires forall q :: 0 <= q < |sections| ==> IsClosedSection(sections[q])
    requires IsClosedSection(section)
    ensures forall q :: 0 <= q < |sections + [section]| ==> IsClosedSection((sections + [section])[q])
  {
    forall q | 0 <= q < |sections + [section]| ensures IsClosedSection((sections + [section])[q]) {
      if q < |sections| {
        assert (sections + [section])[q] == sections[q];
      }
    }
  }

  /** An open section followed by a sentence that closes it is a finished section. */
  lemma ClosedSection(current: seq<String>, sentence: String)
    requires forall j :: 0 <= j < |current| ==> !ClosesSection(current[j], j + 1)
    requires ClosesSection(sentence, |current| + 1)
    ensures IsClosedSection(current + [sentence])
  {
    var section := current + [sentence];
    forall j | 0 <= j < |section| - 1 ensures !ClosesSection(section[j], j + 1) {
      assert section[j] == current[j];
    }
  }

  /** A sentence that does not close the open section joins it. */
  lemma SegmentOpen(sentences: seq<String>, index: nat, sections: seq<seq<String>>, current: seq<String>)
    requires index < |sentences| && SegmentedSoFar(sentences, index, sections, current)
    requires !ClosesSection(sentences[index], |current| + 1)
    ensures SegmentedSoFar(sentences, index + 1, sections, current + [sentences[index]])
  {
    assert sentences[..index + 1] == sentences[..index] + [sentences[index]];
  }

  // ---------------------------------------------------------------------
  // extractDistinctInsights

  /**
   * `topics.filter(topic => sentence.toLowerCase().includes(topic.toLowerCase())
   * && !usedPhrases.has(topic))`.
   */
  function UniqueTopics(sentence: String, topics: seq<String>, used: seq<String>): (r: seq<String>)
    ensures |r| <= |topics|
  {
    if topics == [] then []
    else
      (if ContainsIgnoreCase(sentence, topics[0]) && topics[0] !in used then [topics[0]] else [])
      + UniqueTopics(sentence, topics[1..], used)
  }

  /** The unique topics are exactly the unused topics the sentence contains. */
  lemma {:induction false} UniqueTopicsMembers(sentence: String, topics: seq<String>, used: seq<String>)
    ensures forall t :: t in UniqueTopics(sentence, topics, used) <==> t in topics && ContainsIgnoreCase(sentence, t) && t !in used
  {
    if topics != [] {
      UniqueTopicsMembers(sentence, topics[1..], used);
      assert forall t :: t in topics <==> t == topics[0] || t in topics[1..];
    }
  }

  /**
   * A sentence's uniqueness: 0 when it already contains a used phrase,
   * otherwise the number of its unused topics.
   */
  function Uniqueness(sentence: String, topics: seq<String>, used: seq<String>): (r: nat)
    ensures r <= |topics|
  {
    if Qualifying(sentence, used) >= 1 then 0 else |UniqueTopics(sentence, topics, used)|
  }

  /**
   * A sentence is unique exactly when it contains no used phrase and some
   * unused topic.
   */
  lemma UniquenessPositive(sentence: String, topics: seq<String>, used: seq<String>)
    ensures Uniqueness(sentence, topics, used) > 0 <==>
      Qualifying(sentence, used) == 0 && exists t :: t in topics && ContainsIgnoreCase(sentence, t) && t !in used
  {
    var unique := UniqueTopics(sentence, topics, used);
    UniqueTopicsMembers(sentence, topics, used);
    if unique != [] {
      assert unique[0] in unique;
    }
  }

  /** The position of the first highest score. */
  function FirstBest(scores: seq<nat>): (r: nat)
    requires scores != []
    ensures r < |scores|
    ensures forall q :: 0 <= q < |scores| ==> scores[q] <= scores[r]
    ensures forall q :: 0 <= q < r ==> scores[q] < scores[r]
    decreases |scores|
  {
    if |scores| == 1 then 0
    else
      var b := FirstBest(scores[..|scores| - 1]);
      assert forall q :: 0 <= q < |scores| - 1 ==> scores[..|scores| - 1][q] == scores[q];
      if scores[|scores| - 1] > scores[b] then |scores| - 1 else b
  }

  /** The scores as the keys of a sort. */
  function AsReals(scores: seq<nat>): (r: seq<real>)
    ensures |r| == |scores|
    ensures forall q :: 0 <= q < |scores| ==> r[q] == scores[q] as real
  {
    seq(|scores|, q requires 0 <= q < |scores| => scores[q] as real)
  }

  /**
   * `sectionInsights.sort((a, b) => b.uniqueness - a.uniqueness)[0]`: the
   * stable sort puts the first of the highest scores in front.
   */
  lemma SortFirstIsFirstBest(scores: seq<nat>)
    requires scores != []
    ensures var byScore := StableSort<nat>(Range(|scores|), Descending(ScoreAt(AsReals(scores))));
      byScore[0] == FirstBest(scores)
  {
    var key := Descending(ScoreAt(AsReals(scores)));
    StableSortRanked(Range(|scores|), key);
    RankedFirstBest(scores, key, StableSort<nat>(Range(|scores|), key));
  }

  /** Any ranking of the indices by descending score starts with the first best one. */
  lemma RankedFirstBest(scores: seq<nat>, key: nat -> real, byScore: seq<nat>)
    requires scores != []
    requires forall x: nat :: x < |scores| ==> key(x) == -(scores[x] as real)
    requires RankedBy(byScore, key) && multiset(byScore) == multiset(Range(|scores|))
    ensures byScore[0] == FirstBest(scores)
  {
    var n := |scores|;
    var f := FirstBest(scores);
    assert f in byScore by {
      assert f in Range(n);
      assert f in multiset(byScore);
    }
    forall x | x in byScore ensures key(f) < key(x) || (key(f) == key(x) && f <= x) {
      assert x in multiset(Range(n));
    }
    RankedHead(byScore, key, f);
  }

  /** The element ahead of every other in a ranking comes first. */
  lemma RankedHead(byScore: seq<nat>, key: nat -> real, f: nat)
    requires RankedBy(byScore, key) && f in byScore
    requires forall x :: x in byScore ==> key(f) < key(x) || (key(f) == key(x) && f <= x)
    ensures byScore[0] == f
  {
    assert byScore[0] in byScore;
  }

  /** The uniqueness of every sentence of a section. */
  function SectionScores(section: seq<String>, topics: seq<String>, used: seq<String>): (r: seq<nat>)
    ensures |r| == |section|
    ensures forall q :: 0 <= q < |section| ==> r[q] == Uniqueness(section[q], topics, used)
  {
    seq(|section|, q requires 0 <= q < |section| => Uniqueness(section[q], topics, used))
  }

  /** `usedPhrases.add(t)` for each `t` of `ts` in turn, on an insertion-ordered set. */
  function AddAll(used: seq<String>, ts: seq<String>): (r: seq<String>)
    ensures |r| >= |used| && r[..|used|] == used
    decreases |ts|
  {
    if ts == [] then used
    else
      var next := if ts[0] in used then used else used + [ts[0]];
      assert next[..|used|] == used;
      var r := AddAll(next, ts[1..]);
      assert r[..|used|] == r[..|next|][..|used|];
      r
  }

  /** The set afterwards holds the old phrases and the added ones, each once. */
  lemma {:induction false} AddAllMembers(used: seq<String>, ts: seq<String>)
    ensures forall t :: t in AddAll(used, ts) <==> t in used || t in ts
    ensures Distinct(used) ==> Distinct(AddAll(used, ts))
    decreases |ts|
  {
    if ts != [] {
      var next := if ts[0] in used then used else used + [ts[0]];
      AddAllMembers(next, ts[1..]);
      assert forall t :: t in ts <==> t == ts[0] || t in ts[1..];
    }
  }

  /** The sentences picked so far and the phrases used so far. */
  datatype Insights = Insights(insights: seq<String>, used: seq<String>)

  /**
   * One non-empty section: its first most unique sentence, whose unused
   * topics become used, or its first sentence when no sentence has any
   * uniqueness.
   */
  function SectionInsight(section: seq<String>, topics: seq<String>, used: seq<String>): (r: Insights)
    requires section != []
    ensures |r.insights| == 1 && r.insights[0] in section
    ensures |r.used| >= |used| && r.used[..|used|] == used
  {
    var scores := SectionScores(section, topics, used);
    var best := FirstBest(scores);
    if scores[best] > 0 then Insights([section[best]], AddAll(used, UniqueTopics(section[best], topics, used)))
    else Insights([section[0]], used)
  }

  /** A section adds to the used phrases only topics. */
  lemma SectionInsightUsed(section: seq<String>, topics: seq<String>, used: seq<String>)
    requires section != []
    ensures forall t :: t in SectionInsight(section, topics, used).used ==> t in used || t in topics
  {
    var scores := SectionScores(section, topics, used);
    var best := FirstBest(scores);
    if scores[best] > 0 {
      AddAllMembers(used, UniqueTopics(section[best], topics, used));
      UniqueTopicsMembers(section[best], topics, used);
    }
  }

  /** The non-empty sections, in order. */
  function NonEmpty(sections: seq<seq<String>>): (r: seq<seq<String>>)
    ensures |r| <= |sections|
    ensures forall q :: 0 <= q < |r| ==> r[q] != []
  {
    if sections == [] then []
    else (if sections[0] == [] then [] else [sections[0]]) + NonEmpty(sections[1..])
  }

  /** What `extractDistinctInsights` computes, section by section. */
  function DistinctInsights(sections: seq<seq<String>>, topics: seq<String>, used: seq<String>): (r: Insights)
    decreases |sections|
  {
    if sections == [] then Insights([], used)
    else if sections[0] == [] then DistinctInsights(sections[1..], topics, used)
    else
      var first := SectionInsight(sections[0], topics, used);
      var rest := DistinctInsights(sections[1..], topics, first.used);
      Insights(first.insights + rest.insights, rest.used)
  }

  /** One sentence for every non-empty section, taken from that section. */
  lemma {:induction false} DistinctInsightsPicks(sections: seq<seq<String>>, topics: seq<String>, used: seq<String>)
    ensures |DistinctInsights(sections, topics, used).insights| == |NonEmpty(sections)|
    ensures forall q :: 0 <= q < |NonEmpty(sections)| ==>
      DistinctInsights(sections, topics, used).insights[q] in NonEmpty(sections)[q]
    decreases |sections|
  {
    if sections != [] {
      if sections[0] == [] {
        DistinctInsightsPicks(sections[1..], topics, used);
        assert NonEmpty(sections) == NonEmpty(sections[1..]);
        assert DistinctInsights(sections, topics, used) == DistinctInsights(sections[1..], topics, used);
      } else {
        var first := SectionInsight(sections[0], topics, used);
        DistinctInsightsPicks(sections[1..], topics, first.used);
        var rest := DistinctInsights(sections[1..], topics, first.used);
        DistinctInsightsStep(sections, topics, used);
        assert NonEmpty(sections) == [sections[0]] + NonEmpty(sections[1..]);
        PicksCons(DistinctInsights(sections, topics, used).insights, NonEmpty(sections),
                  sections[0], first.insights, rest.insights, NonEmpty(sections[1..]));
      }
    }
  }

  /** One sentence from a section, then one from each later section. */
  lemma PicksCons(picks: seq<String>, sections: seq<seq<String>>,
                  section: seq<String>, first: seq<String>, rest: seq<String>, later: seq<seq<String>>)
    requires picks == first + rest && sections == [section] + later
    requires |first| == 1 && first[0] in section
    requires |rest| == |later| && forall q :: 0 <= q < |later| ==> rest[q] in later[q]
    ensures |picks| == |sections|
    ensures forall q :: 0 <= q < |sections| ==> picks[q] in sections[q]
  {
    forall q | 0 <= q < |sections| ensures picks[q] in sections[q] {
      if q > 0 {
        assert picks[q] == rest[q - 1] && sections[q] == later[q - 1];
      }
    }
  }

  /** The used phrases only grow, and only by topics. */
  lemma {:induction false} DistinctInsightsUsed(sections: seq<seq<String>>, topics: seq<String>, used: seq<String>)
    ensures |DistinctInsights(sections, topics, used).used| >= |used|
    ensures DistinctInsights(sections, topics, used).used[..|used|] == used
    ensures forall t :: t in DistinctInsights(sections, topics, used).used ==> t in used || t in topics
    decreases |sections|
  {
    if sections != [] {
      if sections[0] == [] {
        DistinctInsightsUsed(sections[1..], topics, used);
      } else {
        var first := SectionInsight(sections[0], topics, used);
        SectionInsightUsed(sections[0], topics, used);
        DistinctInsightsUsed(sections[1..], topics, first.used);
        var rest := DistinctInsights(sections[1..], topics, first.used);
        assert rest.used[..|used|] == rest.used[..|first.used|][..|used|];
      }
    }
  }

  /** `section.map(...)`: the uniqueness of each sentence, in order. */
  method ScoreSection(section: seq<String>, topics: seq<String>, used: seq<String>) returns (scores: seq<nat>)
    ensures scores == SectionScores(section, topics, used)
  {
    scores := [];
    var j := 0;
    while j < |section|
      invariant 0 <= j <= |section|
      invariant |scores| == j
      invariant forall q :: 0 <= q < j ==> scores[q] == Uniqueness(section[q], topics, used)
    {
      var uniqueness := ScoreSentence(section[j], topics, used);
      scores := scores + [uniqueness];
      j := j + 1;
    }
  }

  /** The callback of `section.map(...)` for one sentence. */
  method ScoreSentence(sentence: String, topics: seq<String>, used: seq<String>) returns (uniqueness: nat)
    ensures uniqueness == Uniqueness(sentence, topics, used)
  {
    var covered := ContainsAnyPhrase(sentence, used, 1);
    uniqueness := if covered then 0 else |UniqueTopics(sentence, topics, used)|;
  }

  /** `topics.forEach(topic => usedPhrases.add(topic))`. */
  method AddTopics(used: seq<String>, topics: seq<String>) returns (r: seq<String>)
    ensures r == AddAll(used, topics)
  {
    r := used;
    var k := 0;
    while k < |topics|
      invariant 0 <= k <= |topics|
      invariant AddAll(r, topics[k..]) == AddAll(used, topics)
    {
      assert topics[k..][1..] == topics[k + 1..];
      if topics[k] !in r {
        r := r + [topics[k]];
      }
      k := k + 1;
    }
    assert topics[k..] == [];
  }

  /** One step of the fold over the sections. */
  lemma DistinctInsightsStep(sections: seq<seq<String>>, topics: seq<String>, used: seq<String>)
    requires sections != [] && sections[0] != []
    ensures var first := SectionInsight(sections[0], topics, used);
      var rest := DistinctInsights(sections[1..], topics, first.used);
      DistinctInsights(sections, topics, used) == Insights(first.insights + rest.insights, rest.used)
  {
  }

  /** The body of the `sections.forEach` for a non-empty section. */
  method PickInsight(section: seq<String>, topics: seq<String>, used: seq<String>)
    returns (insight: String, newUsed: seq<String>)
    requires section != []
    ensures Insights([insight], newUsed) == SectionInsight(section, topics, used)
  {
    var scores := ScoreSection(section, topics, used);
    var best := FirstBest(scores);
    if scores[best] > 0 {
      insight := section[best];
      newUsed := AddTopics(used, UniqueTopics(section[best], topics, used));
    } else {
      insight := section[0];
      newUsed := used;
    }
  }

  /**
   * `extractDistinctInsights(sections, topics, usedPhrases)`, with the
   * phrase set updated in place given back as `used`.
   */
  method ExtractDistinctInsights(sections: seq<seq<String>>, topics: seq<String>, usedPhrases: seq<String>)
    returns (insights: seq<String>, used: seq<String>)
    ensures Insights(insights, used) == DistinctInsights(sections, topics, usedPhrases)
  {
    insights := [];
    used := usedPhrases;
    var i := 0;
    while i < |sections|
      invariant 0 <= i <= |sections|
      invariant InsightsSoFar(sections, topics, usedPhrases, i, insights, used)
    {
      insights, used := InsightOfSection(sections, topics, usedPhrases, i, insights, used);
      i := i + 1;
    }
    assert sections[i..] == [];
  }

  /**
   * After the sections before `i`: the insights picked so far followed by
   * those of the remaining sections are all the insights, and the phrase
   * set reached from `used` is the final one.
   */
  ghost predicate InsightsSoFar(sections: seq<seq<String>>, topics: seq<String>, usedPhrases: seq<String>,
                                i: nat, insights: seq<String>, used: seq<String>)
    requires i <= |sections|
  {
    var all := DistinctInsights(sections, topics, usedPhrases);
    var rest := DistinctInsights(sections[i..], topics, used);
    insights + rest.insights == all.insights && rest.used == all.used
  }

  /** One pass of the `sections.forEach`: an empty section is skipped, any other gives one insight. */
  method InsightOfSection(sections: seq<seq<String>>, topics: seq<String>, ghost usedPhrases: seq<String>,
                          i: nat, insights0: seq<String>, used0: seq<String>)
    returns (insights: seq<String>, used: seq<String>)
    requires i < |sections| && InsightsSoFar(sections, topics, usedPhrases, i, insights0, used0)
    ensures InsightsSoFar(sections, topics, usedPhrases, i + 1, insights, used)
  {
    var section := sections[i];
    assert sections[i..][0] == section && sections[i..][1..] == sections[i + 1..];
    if |section| > 0 {
      DistinctInsightsStep(sections[i..], topics, used0);
      var insight, newUsed := PickInsight(section, topics, used0);
      ghost var rest := DistinctInsights(sections[i + 1..], topics, newUsed);
      assert (insights0 + [insight]) + rest.insights == insights0 + ([insight] + rest.insights);
      insights := insights0 + [insight];
      used := newUsed;
    } else {
      assert DistinctInsights(sections[i..], topics, used0) == DistinctInsights(sections[i + 1..], topics, used0);
      insights, used := insights0, used0;
    }
  }

  // ---------------------------------------------------------------------
  // improveTextQuality

  /** The transition words of `improveTextQuality`, in pattern order. */
  const Transitions: seq<String> := [
    "furthermore", "moreover", "additionally", "however", "thus", "therefore", "in addition",
    "consequently"]

  /** `/^(furthermore|moreover|...)/i` matches: the sentence starts with a transition word. */
  predicate StartsWithTransition(s: String) {
    exists k :: 0 <= k < |Transitions| && PhraseAt(s, Transitions[k])
  }

  /** The length of the transition word `s` starts with, the first in pattern order. */
  function TransitionLength(s: String, words: seq<String>): (r: Option<nat>)
    ensures r.None? <==> forall k :: 0 <= k < |words| ==> !PhraseAt(s, words[k])
    ensures r.Some? ==> r.value <= |s| && exists k :: 0 <= k < |words| && PhraseAt(s, words[k]) && r.value == |words[k]|
  {
    if words == [] then None
    else if PhraseAt(s, words[0]) then Some(|words[0]|)
    else
      assert forall k :: 1 <= k < |words| ==> words[k] == words[1..][k - 1];
      TransitionLength(s, words[1..])
  }

  /** Some transition word is found exactly when the sentence starts with one. */
  lemma TransitionFound(s: String)
    ensures TransitionLength(s, Transitions).Some? <==> StartsWithTransition(s)
    ensures TransitionLength(s, Transitions).Some? ==> TransitionLength(s, Transitions).value <= |s|
  {
  }

  /**
   * `s.replace(/^(furthermore|...)[,]?\s+/i, '')`: a leading transition
   * word, an optional comma right after it and the white space that must
   * follow are cut off; without that white space nothing changes.
   */
  function StripTransition(s: String): (r: String)
    ensures |r| <= |s| && r == s[|s| - |r|..]
    ensures !StartsWithTransition(s) ==> r == s
    ensures r != s ==> StartsWithTransition(s) && (r == [] || !IsSpace(r[0]))
  {
    TransitionFound(s);
    assert s[|s| - |s|..] == s;
    match TransitionLength(s, Transitions)
    case None => s
    case Some(w) => CutTransition(s, w)
  }

  /**
   * The cut after a transition word of length `w`: the comma right after
   * it, if white space follows, and the white space; nothing without it.
   */
  function CutTransition(s: String, w: nat): (r: String)
    requires w <= |s|
    ensures |r| <= |s| && r == s[|s| - |r|..]
    ensures r != s ==> r == [] || !IsSpace(r[0])
  {
    var c := if w + 1 < |s| && s[w] == ',' && IsSpace(s[w + 1]) then w + 1 else w;
    var run := SpaceRun(s[c..]);
    if run == 0 then
      assert s[|s| - |s|..] == s;
      s
    else
      CutAfterRun(s, c, run);
      s[c + run..]
  }

  /** What follows the white space after position `c` starts with no white space. */
  lemma CutAfterRun(s: String, c: nat, run: nat)
    requires c <= |s| && run == SpaceRun(s[c..])
    ensures c + run <= |s| && s[c + run..] == s[|s| - |s[c + run..]|..]
    ensures s[c + run..] == [] || !IsSpace(s[c + run..][0])
  {
    assert s[c + run..] == s[c..][run..];
  }

  /** `c` after `.replace(/[^a-z0-9]/g, " ")`. */
  function KeyChar(c: char): char {
    if ('a' <= c <= 'z') || ('0' <= c <= '9') then c else ' '
  }

  /** `words.filter(w => w.length > 3)`. */
  function LongWords(words: seq<String>): (r: seq<String>)
    ensures |r| <= |words|
    ensures forall q :: 0 <= q < |r| ==> |r[q]| > 3 && r[q] in words
    ensures r == [] ==> forall w :: w in words ==> |w| <= 3
  {
    if words == [] then []
    else (if |words[0]| > 3 then [words[0]] else []) + LongWords(words[1..])
  }

  /**
   * The signature of a sentence: lower-cased, everything but letters and
   * digits made a blank, split at white space, the first five words longer
   * than three characters, joined by blanks.
   */
  function SentenceKey(s: String): (r: String)
    ensures r == [] <==> forall w :: w in SplitWs(seq(|s|, i requires 0 <= i < |s| => KeyChar(ToLowerChar(s[i])))) ==> |w| <= 3
  {
    var mapped := seq(|s|, i requires 0 <= i < |s| => KeyChar(ToLowerChar(s[i])));
    var words := LongWords(SplitWs(mapped));
    Join(words[..Min(5, |words|)], " ")
  }

  /** The verbs the first simplification stops at. */
  function CopulaVerbs(): seq<String>
  {
    seq(7, CopulaVerbAt)
  }

  /** The entry at position `k` (the last one for any later position). */
  function CopulaVerbAt(k: int): String
  {
    match k
    case 0 => "is"
    case 1 => "are"
    case 2 => "has"
    case 3 => "have"
    case 4 => "can"
    case 5 => "will"
    case _ => "may"
  }

  /** The verbs the second simplification stops at. */
  function ReportingVerbs(): seq<String>
  {
    seq(6, ReportingVerbAt)
  }

  /** The entry at position `k` (the last one for any later position). */
  function ReportingVerbAt(k: int): String
  {
    match k
    case 0 => "analyze"
    case 1 => "discusses"
    case 2 => "describes"
    case 3 => "shows"
    case 4 => "presents"
    case _ => "highlights"
  }

  /** One of the verbs starts at `q`, ignoring case. */
  predicate VerbAt(s: String, verbs: seq<String>, q: nat) {
    q <= |s| && exists k :: 0 <= k < |verbs| && PhraseAt(s[q..], verbs[k])
  }

  /** The first position in `[lo, hi]` where a verb starts. */
  function FirstVerbFrom(s: String, verbs: seq<String>, lo: nat, hi: nat): (r: Option<nat>)
    ensures r.Some? ==> lo <= r.value <= hi && VerbAt(s, verbs, r.value)
    ensures r.Some? ==> forall q :: lo <= q < r.value ==> !VerbAt(s, verbs, q)
    ensures r.None? ==> forall q :: lo <= q <= hi ==> !VerbAt(s, verbs, q)
    decreases hi + 1 - lo
  {
    if lo > hi then None
    else if VerbAt(s, verbs, lo) then Some(lo)
    else FirstVerbFrom(s, verbs, lo + 1, hi)
  }

  /** The length of a leading "This" or "The", ignoring case, or 0. */
  function DemonstrativeLength(s: String): (r: nat)
    ensures r == 0 || r == 3 || r == 4
    ensures r <= |s|
  {
    if PhraseAt(s, "this") then 4 else if PhraseAt(s, "the") then 3 else 0
  }

  /**
   * Where `/^(This|The)\s+[^.!?]+?(verb|...)/i` puts its verb: after the
   * white space that follows the leading word, the lazy middle part takes as
   * few characters as it can (at least one, no terminator); only when no
   * verb follows does the engine give back one blank of a longer white-space
   * run and retry with the verb right after the white space.
   */
  function LazyVerbStart(s: String, verbs: seq<String>): (r: Option<nat>)
    ensures r.Some? ==> VerbAt(s, verbs, r.value) && DemonstrativeLength(s) > 0
  {
    var d := DemonstrativeLength(s);
    if d == 0 then None
    else
      var m := SpaceRun(s[d..]);
      if m == 0 then None
      else
        var start := d + m;
        var stop := start + PlainRun(s[start..]);
        match FirstVerbFrom(s, verbs, start + 1, stop)
        case Some(q) => Some(q)
        case None => if m >= 2 && VerbAt(s, verbs, start) then Some(start) else None
  }

  /** The replacement `"lead$2"`: the matched prefix becomes `lead`, the verb and the rest stay. */
  function ReplaceLazy(s: String, verbs: seq<String>, lead: String): (r: String)
    ensures r == s || exists q :: 0 < q <= |s| && r == lead + s[q..]
  {
    match LazyVerbStart(s, verbs)
    case None => s
    case Some(q) =>
      assert q > 0;
      lead + s[q..]
  }

  /** The two replacements applied to a repeated sentence that starts with "This" or "The". */
  function SimplifySentence(s: String): (r: String)
  {
    ReplaceLazy(ReplaceLazy(s, CopulaVerbs(), "It "), ReportingVerbs(), "We see that it ")
  }

  /**
   * A simplified sentence is the sentence itself or begins with "It " or
   * with "We see that it ".
   */
  lemma SimplifySentenceShape(s: String)
    ensures var r := SimplifySentence(s);
      r == s || StartsWith(r, "It ") || StartsWith(r, "We see that it ")
  {
    var once := ReplaceLazy(s, CopulaVerbs(), "It ");
    if once != s {
      var q :| 0 < q <= |s| && once == "It " + s[q..];
      assert once[..3] == "It ";
      assert Lower(once[..3])[0] == 'i';
      if |once| >= 4 {
        assert Lower(once[..4])[0] == 'i';
      }
    }
  }

  /** `sentences.filter(s => !/^(furthermore|...)/i.test(s))`. */
  function WithoutTransitions(sentences: seq<String>): (r: seq<String>)
    ensures |r| <= |sentences|
    ensures forall q :: 0 <= q < |r| ==> r[q] in sentences && !StartsWithTransition(r[q])
  {
    if sentences == [] then []
    else (if StartsWithTransition(sentences[0]) then [] else [sentences[0]]) + WithoutTransitions(sentences[1..])
  }

  /** The sentences worked on: those not starting with a transition word, or all if none is left. */
  function Working(sentences: seq<String>): (r: seq<String>)
    ensures |r| <= |sentences|
    ensures WithoutTransitions(sentences) != [] ==> forall q :: 0 <= q < |r| ==> StripTransition(r[q]) == r[q]
  {
    var filtered := WithoutTransitions(sentences);
    if filtered != [] then filtered else sentences
  }

  /** What the loop works out about one working sentence before deciding on it. */
  datatype Sentence = Sentence(processed: String, key: String, simpler: Option<String>)

  /**
   * The sentence without its transition word, its signature, and its
   * simplification when it starts with "This" or "The" (case matters).
   */
  function Analyse(s: String): (r: Sentence)
    ensures r.processed == StripTransition(s) && r.key == SentenceKey(r.processed)
    ensures r.simpler.Some? <==> StartsWith(r.processed, "This") || StartsWith(r.processed, "The")
  {
    var p := StripTransition(s);
    Sentence(p, SentenceKey(p),
      if StartsWith(p, "This") || StartsWith(p, "The") then Some(SimplifySentence(p)) else None)
  }

  /** A piece of the output: its text, the working sentence it comes from, and whether it was simplified. */
  datatype Piece = Piece(text: String, from: nat, simplified: bool)

  /**
   * The `forEach` over the analysed working sentences from index `i` on,
   * with the signatures `seen` so far: a sentence whose signature is longer
   * than ten characters and already seen is dropped, or replaced by its
   * simplification when it has one; otherwise a sentence with a non-empty
   * signature is kept and its signature recorded; one with an empty
   * signature is dropped.
   */
  function DedupFrom(ss: seq<Sentence>, i: nat, seen: seq<String>): (r: seq<Piece>)
    decreases |ss| - i
  {
    if i >= |ss| then []
    else
      var key := ss[i].key;
      if |key| > 10 && key in seen then
        (match ss[i].simpler
         case Some(simpler) => [Piece(simpler, i, true)]
         case None => [])
        + DedupFrom(ss, i + 1, seen)
      else if |key| > 0 then
        [Piece(ss[i].processed, i, false)] + DedupFrom(ss, i + 1, if key in seen then seen else seen + [key])
      else DedupFrom(ss, i + 1, seen)
  }

  /** The texts of the pieces. */
  function Texts(pieces: seq<Piece>): (r: seq<String>)
    ensures |r| == |pieces|
    ensures forall q :: 0 <= q < |pieces| ==> r[q] == pieces[q].text
  {
    seq(|pieces|, q requires 0 <= q < |pieces| => pieces[q].text)
  }

  /** Every working sentence, analysed. */
  function AnalyseAll(ws: seq<String>): (r: seq<Sentence>)
    ensures |r| == |ws|
    ensures forall q :: 0 <= q < |ws| ==> r[q] == Analyse(ws[q])
  {
    seq(|ws|, q requires 0 <= q < |ws| => Analyse(ws[q]))
  }

  /**
   * What `improveTextQuality(text)` returns: the text itself when it has at
   * most one sentence, otherwise the pieces joined by blanks.
   */
  function ImprovedText(text: String): (r: String)
    ensures |SentenceMatches(text)| <= 1 ==> r == text
  {
    var sentences := SentenceMatches(text);
    if |sentences| <= 1 then text
    else Join(Texts(DedupFrom(AnalyseAll(Working(sentences)), 0, [])), " ")
  }

  /** The pieces come from sentences at or after `i`, in order and at most once each. */
  lemma {:induction false} DedupOrder(ss: seq<Sentence>, i: nat, seen: seq<String>)
    ensures i >= |ss| || |DedupFrom(ss, i, seen)| <= |ss| - i
    ensures var r := DedupFrom(ss, i, seen);
      forall a :: 0 <= a < |r| ==> i <= r[a].from < |ss|
    ensures var r := DedupFrom(ss, i, seen);
      forall a, b :: 0 <= a < b < |r| ==> r[a].from < r[b].from
    decreases |ss| - i
  {
    if i < |ss| {
      DedupOrder(ss, i + 1, seen);
      DedupOrder(ss, i + 1, seen + [ss[i].key]);
    }
  }

  /** The signature of the sentence a piece comes from. */
  function PieceKey(ss: seq<Sentence>, piece: Piece): String {
    if piece.from < |ss| then ss[piece.from].key else []
  }

  /** Every kept piece is its sentence without the transition word, and that sentence has a signature. */
  predicate KeptAreProcessed(ss: seq<Sentence>, r: seq<Piece>) {
    forall a :: 0 <= a < |r| && !r[a].simplified ==>
      r[a].from < |ss| && r[a].text == ss[r[a].from].processed && |PieceKey(ss, r[a])| > 0
  }

  /** No kept piece has a long signature among `seen`. */
  predicate KeptAreFresh(ss: seq<Sentence>, r: seq<Piece>, seen: seq<String>) {
    forall a :: 0 <= a < |r| && !r[a].simplified && |PieceKey(ss, r[a])| > 10 ==> PieceKey(ss, r[a]) !in seen
  }

  /** No two kept pieces share a long signature. */
  predicate KeptAreDistinct(ss: seq<Sentence>, r: seq<Piece>) {
    forall a, b :: 0 <= b < a < |r| && !r[a].simplified && !r[b].simplified && |PieceKey(ss, r[a])| > 10 ==>
      PieceKey(ss, r[b]) != PieceKey(ss, r[a])
  }

  /** No sentence from `i` on that comes before a kept piece's own shares its long signature. */
  predicate KeptAreFirst(ss: seq<Sentence>, r: seq<Piece>, i: nat) {
    forall a, p :: 0 <= a < |r| && !r[a].simplified && |PieceKey(ss, r[a])| > 10 && i <= p < r[a].from ==>
      ss[p].key != PieceKey(ss, r[a])
  }

  /**
   * A kept piece is its sentence without the transition word; its
   * signature is non-empty and, when longer than ten characters, neither
   * among those seen before nor the signature of an earlier kept piece.
   */
  lemma {:induction false} DedupKept(ss: seq<Sentence>, i: nat, seen: seq<String>)
    ensures KeptAreProcessed(ss, DedupFrom(ss, i, seen))
    ensures KeptAreFresh(ss, DedupFrom(ss, i, seen), seen)
    ensures KeptAreDistinct(ss, DedupFrom(ss, i, seen))
    decreases |ss| - i
  {
    if i < |ss| {
      var key := ss[i].key;
      if |key| > 10 && key in seen {
        DedupKept(ss, i + 1, seen);
        var head := if ss[i].simpler.Some? then [Piece(ss[i].simpler.value, i, true)] else [];
        KeptAfterRepeat(ss, seen, head, DedupFrom(ss, i + 1, seen));
      } else if |key| > 0 {
        var seen' := if key in seen then seen else seen + [key];
        DedupKept(ss, i + 1, seen');
        KeptAfterKept(ss, i, seen, seen', DedupFrom(ss, i + 1, seen'));
      } else {
        DedupKept(ss, i + 1, seen);
      }
    }
  }

  /**
   * No sentence before a kept piece's own shares its long signature: of
   * the sentences sharing a long signature, only the first can be kept.
   */
  lemma {:induction false} DedupKeptFirst(ss: seq<Sentence>, i: nat, seen: seq<String>)
    ensures KeptAreFirst(ss, DedupFrom(ss, i, seen), i)
    decreases |ss| - i
  {
    if i < |ss| {
      var key := ss[i].key;
      if |key| > 10 && key in seen {
        DedupKeptFirst(ss, i + 1, seen);
        DedupKept(ss, i + 1, seen);
        var head := if ss[i].simpler.Some? then [Piece(ss[i].simpler.value, i, true)] else [];
        KeptFirstStep(ss, i, seen, head, DedupFrom(ss, i + 1, seen));
      } else if |key| > 0 {
        var seen' := if key in seen then seen else seen + [key];
        DedupKeptFirst(ss, i + 1, seen');
        DedupKept(ss, i + 1, seen');
        KeptFirstStep(ss, i, seen', [Piece(ss[i].processed, i, false)], DedupFrom(ss, i + 1, seen'));
      } else {
        DedupKeptFirst(ss, i + 1, seen);
        DedupKept(ss, i + 1, seen);
        KeptFirstStep(ss, i, seen, [], DedupFrom(ss, i + 1, seen));
      }
    }
  }

  /**
   * The pieces of sentence `i` followed by those of the rest: a kept piece
   * of the rest has a signature outside `seen'`, which holds sentence `i`'s.
   */
  lemma KeptFirstStep(ss: seq<Sentence>, i: nat, seen': seq<String>, head: seq<Piece>, rest: seq<Piece>)
    requires i < |ss| && (|ss[i].key| > 0 ==> ss[i].key in seen')
    requires forall a :: 0 <= a < |head| ==> head[a].from == i
    requires KeptAreFresh(ss, rest, seen') && KeptAreFirst(ss, rest, i + 1)
    ensures KeptAreFirst(ss, head + rest, i)
  {
    var r := head + rest;
    forall a, p | 0 <= a < |r| && !r[a].simplified && |PieceKey(ss, r[a])| > 10 && i <= p < r[a].from
      ensures ss[p].key != PieceKey(ss, r[a])
    {
      if a >= |head| {
        assert r[a] == rest[a - |head|];
      }
    }
  }

  /** A repeated sentence contributes at most a simplified piece, which the kept-piece facts ignore. */
  lemma KeptAfterRepeat(ss: seq<Sentence>, seen: seq<String>, head: seq<Piece>, rest: seq<Piece>)
    requires forall a :: 0 <= a < |head| ==> head[a].simplified
    requires KeptAreProcessed(ss, rest) && KeptAreFresh(ss, rest, seen) && KeptAreDistinct(ss, rest)
    ensures KeptAreProcessed(ss, head + rest) && KeptAreFresh(ss, head + rest, seen) && KeptAreDistinct(ss, head + rest)
  {
    var r := head + rest;
    forall a | 0 <= a < |r| && !r[a].simplified ensures a >= |head| && r[a] == rest[a - |head|] {
    }
  }

  /** A kept sentence heads the pieces; its signature is added to `seen` for the rest. */
  lemma KeptAfterKept(ss: seq<Sentence>, i: nat, seen: seq<String>, seen': seq<String>, rest: seq<Piece>)
    requires i < |ss| && |ss[i].key| > 0 && !(|ss[i].key| > 10 && ss[i].key in seen)
    requires seen' == if ss[i].key in seen then seen else seen + [ss[i].key]
    requires KeptAreProcessed(ss, rest) && KeptAreFresh(ss, rest, seen') && KeptAreDistinct(ss, rest)
    ensures var r := [Piece(ss[i].processed, i, false)] + rest;
      KeptAreProcessed(ss, r) && KeptAreFresh(ss, r, seen) && KeptAreDistinct(ss, r)
  {
    var r := [Piece(ss[i].processed, i, false)] + rest;
    assert ss[i].key in seen';
    forall a | 1 <= a < |r| ensures r[a] == rest[a - 1] {
    }
  }

  /** Every simplified piece is its sentence's simplification, and that sentence's signature is long. */
  predicate SimplifiedAreSimpler(ss: seq<Sentence>, r: seq<Piece>) {
    forall a :: 0 <= a < |r| && r[a].simplified ==>
      r[a].from < |ss| && ss[r[a].from].simpler == Some(r[a].text) && |PieceKey(ss, r[a])| > 10
  }

  /** The signature of every simplified piece is among `seen` or is that of an earlier kept piece. */
  predicate SimplifiedAreRepeats(ss: seq<Sentence>, r: seq<Piece>, seen: seq<String>) {
    forall a :: 0 <= a < |r| && r[a].simplified ==>
      PieceKey(ss, r[a]) in seen || exists b :: 0 <= b < a && !r[b].simplified && PieceKey(ss, r[b]) == PieceKey(ss, r[a])
  }

  /**
   * A simplified piece is its sentence's simplification; that sentence's
   * signature is longer than ten characters and is one seen before or the
   * signature of an earlier kept piece.
   */
  lemma {:induction false} DedupSimplified(ss: seq<Sentence>, i: nat, seen: seq<String>)
    ensures SimplifiedAreSimpler(ss, DedupFrom(ss, i, seen))
    ensures SimplifiedAreRepeats(ss, DedupFrom(ss, i, seen), seen)
    decreases |ss| - i
  {
    if i < |ss| {
      var key := ss[i].key;
      if |key| > 10 && key in seen {
        DedupSimplified(ss, i + 1, seen);
        var head := if ss[i].simpler.Some? then [Piece(ss[i].simpler.value, i, true)] else [];
        SimplifiedAfterRepeat(ss, i, seen, head, DedupFrom(ss, i + 1, seen));
      } else if |key| > 0 {
        var seen' := if key in seen then seen else seen + [key];
        DedupSimplified(ss, i + 1, seen');
        SimplifiedAfterKept(ss, i, seen, seen', DedupFrom(ss, i + 1, seen'));
      } else {
        DedupSimplified(ss, i + 1, seen);
      }
    }
  }

  /** The simplified piece of a repeated sentence has a signature among `seen`. */
  lemma SimplifiedAfterRepeat(ss: seq<Sentence>, i: nat, seen: seq<String>, head: seq<Piece>, rest: seq<Piece>)
    requires i < |ss| && |ss[i].key| > 10 && ss[i].key in seen
    requires head == if ss[i].simpler.Some? then [Piece(ss[i].simpler.value, i, true)] else []
    requires SimplifiedAreSimpler(ss, rest) && SimplifiedAreRepeats(ss, rest, seen)
    ensures SimplifiedAreSimpler(ss, head + rest) && SimplifiedAreRepeats(ss, head + rest, seen)
  {
    var r := head + rest;
    forall a | |head| <= a < |r| && r[a].simplified
      ensures PieceKey(ss, r[a]) in seen
        || exists b :: 0 <= b < a && !r[b].simplified && PieceKey(ss, r[b]) == PieceKey(ss, r[a])
    {
      assert r[a] == rest[a - |head|];
      if PieceKey(ss, r[a]) !in seen {
        var b :| 0 <= b < a - |head| && !rest[b].simplified && PieceKey(ss, rest[b]) == PieceKey(ss, r[a]);
        assert r[b + |head|] == rest[b];
      }
    }
  }

  /** A signature repeated after a kept sentence is in `seen` or is the kept sentence's own. */
  lemma SimplifiedAfterKept(ss: seq<Sentence>, i: nat, seen: seq<String>, seen': seq<String>, rest: seq<Piece>)
    requires i < |ss| && |ss[i].key| > 0
    requires seen' == if ss[i].key in seen then seen else seen + [ss[i].key]
    requires SimplifiedAreSimpler(ss, rest) && SimplifiedAreRepeats(ss, rest, seen')
    ensures var r := [Piece(ss[i].processed, i, false)] + rest;
      SimplifiedAreSimpler(ss, r) && SimplifiedAreRepeats(ss, r, seen)
  {
    var key := ss[i].key;
    var r := [Piece(ss[i].processed, i, false)] + rest;
    assert SimplifiedAreSimpler(ss, r) by {
      forall a | 1 <= a < |r| ensures r[a] == rest[a - 1] {
      }
    }
    forall a | 1 <= a < |r| && r[a].simplified
      ensures PieceKey(ss, r[a]) in seen
        || exists b :: 0 <= b < a && !r[b].simplified && PieceKey(ss, r[b]) == PieceKey(ss, r[a])
    {
      RepeatAfterKept(ss, i, seen, seen', rest, a - 1);
    }
  }

  /** The `q`-th piece after a kept sentence, if simplified, repeats a signature seen or kept before it. */
  lemma RepeatAfterKept(ss: seq<Sentence>, i: nat, seen: seq<String>, seen': seq<String>, rest: seq<Piece>, q: nat)
    requires i < |ss| && |ss[i].key| > 0
    requires seen' == if ss[i].key in seen then seen else seen + [ss[i].key]
    requires q < |rest| && rest[q].simplified && SimplifiedAreRepeats(ss, rest, seen')
    ensures var r := [Piece(ss[i].processed, i, false)] + rest;
      PieceKey(ss, rest[q]) in seen
      || exists b :: 0 <= b < q + 1 && !r[b].simplified && PieceKey(ss, r[b]) == PieceKey(ss, rest[q])
  {
    var r := [Piece(ss[i].processed, i, false)] + rest;
    var k := PieceKey(ss, rest[q]);
    if k !in seen {
      if k == ss[i].key {
        assert PieceKey(ss, r[0]) == k;
      } else {
        var b :| 0 <= b < q && !rest[b].simplified && PieceKey(ss, rest[b]) == k;
        assert r[b + 1] == rest[b];
      }
    }
  }

  /** Some piece comes from sentence `q`. */
  predicate HasPieceFrom(r: seq<Piece>, q: nat) {
    exists a :: 0 <= a < |r| && r[a].from == q
  }

  /** Sentence `q`'s signature is neither seen before nor that of a sentence from `i` up to `q`. */
  predicate FirstNew(ss: seq<Sentence>, i: nat, seen: seq<String>, q: nat)
    requires q < |ss|
  {
    ss[q].key !in seen && forall p :: i <= p < q ==> ss[p].key != ss[q].key
  }

  /**
   * Nothing else is dropped: every sentence with a non-empty signature
   * that is short, that has a simplification, or that is the first with a
   * signature not seen before, gives a piece.
   */
  lemma {:induction false} DedupCovers(ss: seq<Sentence>, i: nat, seen: seq<String>)
    ensures forall q {:trigger ss[q]} ::
      (i <= q < |ss| && |ss[q].key| > 0 && (|ss[q].key| <= 10 || ss[q].simpler.Some? || FirstNew(ss, i, seen, q)))
      ==> HasPieceFrom(DedupFrom(ss, i, seen), q)
    decreases |ss| - i
  {
    if i < |ss| {
      var key := ss[i].key;
      var r := DedupFrom(ss, i, seen);
      var seen' := if (|key| > 10 && key in seen) || |key| == 0 || key in seen then seen else seen + [key];
      var rest := DedupFrom(ss, i + 1, seen');
      DedupCovers(ss, i + 1, seen');
      var head: seq<Piece> :=
        if |key| > 10 && key in seen then (if ss[i].simpler.Some? then [Piece(ss[i].simpler.value, i, true)] else [])
        else if |key| > 0 then [Piece(ss[i].processed, i, false)]
        else [];
      assert r == head + rest;
      forall q | i <= q < |ss| && |ss[q].key| > 0 && (|ss[q].key| <= 10 || ss[q].simpler.Some? || FirstNew(ss, i, seen, q))
        ensures HasPieceFrom(r, q)
      {
        if q == i {
          assert r[0].from == i;
        } else {
          assert ss[q].key !in seen && ss[i].key != ss[q].key ==> ss[q].key !in seen';
          var a :| 0 <= a < |rest| && rest[a].from == q;
          assert r[|head| + a] == rest[a];
        }
      }
    }
  }

  lemma AppendAssociates(a: seq<String>, b: seq<String>, c: seq<String>)
    ensures a + (b + c) == (a + b) + c
  {
  }

  lemma TextsCons(p: Piece, rest: seq<Piece>)
    ensures Texts([p] + rest) == [p.text] + Texts(rest)
  {
  }

  /**
   * The body of the `forEach` for the analysed working sentence at index
   * `i`: what it adds to the output and the signatures seen afterwards.
   */
  method DecideSentence(ss: seq<Sentence>, i: nat, seenKeys: seq<String>)
    returns (added: seq<String>, seen': seq<String>)
    requires i < |ss|
    ensures Texts(DedupFrom(ss, i, seenKeys)) == added + Texts(DedupFrom(ss, i + 1, seen'))
  {
    var s := ss[i];
    if |s.key| > 10 && s.key in seenKeys {
      seen' := seenKeys;
      match s.simpler {
        case Some(simple) =>
          added := [simple];
          var rest := DedupFrom(ss, i + 1, seen');
          assert DedupFrom(ss, i, seenKeys) == [Piece(simple, i, true)] + rest;
          TextsCons(Piece(simple, i, true), rest);
        case None =>
          added := [];
      }
    } else if |s.key| > 0 {
      seen' := if s.key in seenKeys then seenKeys else seenKeys + [s.key];
      added := [s.processed];
      var rest := DedupFrom(ss, i + 1, seen');
      assert DedupFrom(ss, i, seenKeys) == [Piece(s.processed, i, false)] + rest;
      TextsCons(Piece(s.processed, i, false), rest);
    } else {
      seen' := seenKeys;
      added := [];
    }
  }

  /**
   * The `forEach` of `improveTextQuality` over the analysed working
   * sentences: keeps the first sentence of each long signature, simplifies
   * or drops the repeats, and returns what it kept.
   */
  method KeepUnique(ss: seq<Sentence>) returns (unique: seq<String>)
    ensures unique == Texts(DedupFrom(ss, 0, []))
  {
    unique := [];
    var seenKeys: seq<String> := [];
    var i := 0;
    while i < |ss|
      invariant 0 <= i <= |ss|
      invariant unique + Texts(DedupFrom(ss, i, seenKeys)) == Texts(DedupFrom(ss, 0, []))
    {
      var added, seen' := DecideSentence(ss, i, seenKeys);
      AppendAssociates(unique, added, Texts(DedupFrom(ss, i + 1, seen')));
      unique := unique + added;
      seenKeys := seen';
      i := i + 1;
    }
    assert DedupFrom(ss, i, seenKeys) == [];
  }

  /** `improveTextQuality(text)`: texts of one sentence or none come back as they are. */
  method ImproveTextQuality(text: String) returns (r: String)
    ensures r == ImprovedText(text)
  {
    var sentences := SentenceMatches(text);
    if |sentences| <= 1 {
      return text;
    }
    var unique := KeepUnique(AnalyseAll(Working(sentences)));
    r := Join(unique, " ");
  }
}
