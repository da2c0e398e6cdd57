/**
 * Term and phrase counting of the key-element extractor
 * (js/utils/key-elements-extractor.js): term and document frequencies
 * (`calculateTFIDF`), the quality-filtered n-gram counts
 * (`extractQualityNgrams`) and the phrase filter (`filterMeaningfulPhrases`).
 */
module KeyTerms {
  import opened Text
  import opened Sorting
  import opened Tally
  import opened KeyTagging

  // ---------------------------------------------------------------------
  // calculateTFIDF

  /** A word that is counted as a term: not a stopword and at least three characters long. */
  predicate IsTermWord(w: TaggedWord) {
    !w.isStopword && |Lower(w.word)| >= 3
  }

  /** The terms of a list of words, lower-cased, in order. */
  function WordTerms(words: seq<TaggedWord>): (r: seq<String>)
    ensures |r| <= |words|
  {
    if words == [] then []
    else
      var last := words[|words| - 1];
      WordTerms(words[..|words| - 1]) + (if IsTermWord(last) then [Lower(last.word)] else [])
  }

  /** Each element once, at its first occurrence. */
  function FirstOccurrences(ts: seq<String>): (r: seq<String>)
    ensures |r| <= |ts|
  {
    if ts == [] then []
    else
      var init := ts[..|ts| - 1];
      var last := ts[|ts| - 1];
      var p := FirstOccurrences(init);
      if last in init then p else p + [last]
  }

  /**
   * The first occurrences hold every element of `ts`, each exactly once, and
   * no more occurrences than `ts` has.
   */
  lemma {:induction false} FirstOccurrencesFacts(ts: seq<String>)
    ensures forall t :: t in FirstOccurrences(ts) <==> t in ts
    ensures forall t :: multiset(FirstOccurrences(ts))[t] <= 1
    ensures multiset(FirstOccurrences(ts)) <= multiset(ts)
  {
    if ts != [] {
      var init := ts[..|ts| - 1];
      var last := ts[|ts| - 1];
      assert ts == init + [last];
      FirstOccurrencesFacts(init);
    }
  }

  /** Every term occurrence, sentence after sentence. */
  function Terms(sentences: seq<TaggedSentence>): seq<String>
  {
    if sentences == [] then []
    else Terms(sentences[..|sentences| - 1]) + WordTerms(sentences[|sentences| - 1].words)
  }

  /** One occurrence per sentence that contains the term. */
  function DocTerms(sentences: seq<TaggedSentence>): seq<String>
  {
    if sentences == [] then []
    else DocTerms(sentences[..|sentences| - 1]) + FirstOccurrences(WordTerms(sentences[|sentences| - 1].words))
  }

  /** Counting one more key after a prefix. */
  lemma CountSnoc(ks: seq<String>, k: String)
    ensures Count(ks + [k]) == Bump(Count(ks), k)
  {
    assert (ks + [k])[..|ks + [k]| - 1] == ks;
  }

  lemma CountAppend(past: seq<String>, ks: seq<String>, k: String)
    ensures Count(past + (ks + [k])) == Bump(Count(past + ks), k)
  {
    assert past + (ks + [k]) == (past + ks) + [k];
    CountSnoc(past + ks, k);
  }

  /** The inner loop of `calculateTFIDF` over one sentence's words, `seenTerms` local to it. */
  method CountSentenceTerms(words: seq<TaggedWord>, ghost pastTerms: seq<String>, ghost pastDocTerms: seq<String>,
                            tf0: Counts<String>, df0: Counts<String>)
    returns (termFrequency: Counts<String>, documentFrequency: Counts<String>)
    requires tf0 == Count(pastTerms) && df0 == Count(pastDocTerms)
    ensures termFrequency == Count(pastTerms + WordTerms(words))
    ensures documentFrequency == Count(pastDocTerms + FirstOccurrences(WordTerms(words)))
  {
    termFrequency, documentFrequency := tf0, df0;
    var seenTerms: set<String> := {};
    ghost var terms: seq<String> := [];
    ghost var firsts: seq<String> := [];
    var w := 0;
    assert pastTerms + terms == pastTerms && pastDocTerms + firsts == pastDocTerms;
    while w < |words|
      invariant 0 <= w <= |words|
      invariant terms == WordTerms(words[..w]) && firsts == FirstOccurrences(terms)
      invariant termFrequency == Count(pastTerms + terms)
      invariant documentFrequency == Count(pastDocTerms + firsts)
      invariant forall t :: t in seenTerms <==> t in terms
    {
      WordTermsStep(words, w);
      termFrequency, documentFrequency, seenTerms, terms, firsts :=
        CountWord(words[w], pastTerms, pastDocTerms, terms, firsts, termFrequency, documentFrequency, seenTerms);
      w := w + 1;
    }
    assert words[..w] == words;
  }

  /** One word of the inner loop: a term is counted, and counted for the sentence the first time it is seen. */
  method CountWord(word: TaggedWord, ghost pastTerms: seq<String>, ghost pastDocTerms: seq<String>,
                   ghost terms: seq<String>, ghost firsts: seq<String>,
                   tf: Counts<String>, df: Counts<String>, seenTerms: set<String>)
    returns (termFrequency: Counts<String>, documentFrequency: Counts<String>, seen: set<String>,
             ghost terms': seq<String>, ghost firsts': seq<String>)
    requires tf == Count(pastTerms + terms) && df == Count(pastDocTerms + firsts)
    requires forall t :: t in seenTerms <==> t in terms
    ensures terms' == terms + (if IsTermWord(word) then [Lower(word.word)] else [])
    ensures firsts' == if IsTermWord(word) && Lower(word.word) !in terms then firsts + [Lower(word.word)] else firsts
    ensures termFrequency == Count(pastTerms + terms') && documentFrequency == Count(pastDocTerms + firsts')
    ensures forall t :: t in seen <==> t in terms'
  {
    termFrequency, documentFrequency, seen, terms', firsts' := tf, df, seenTerms, terms, firsts;
    // stopwords and terms shorter than three characters are skipped
    if IsTermWord(word) {
      var term := Lower(word.word);
      CountAppend(pastTerms, terms, term);
      termFrequency := Bump(termFrequency, term);
      if term !in seenTerms {
        CountAppend(pastDocTerms, firsts, term);
        documentFrequency := Bump(documentFrequency, term);
        seen := seen + {term};
        firsts' := firsts + [term];
      }
      terms' := terms + [term];
    }
  }

  /** One more word: its term, if it has one, is appended, and listed if it is new. */
  lemma WordTermsStep(words: seq<TaggedWord>, w: nat)
    requires w < |words|
    ensures var before := WordTerms(words[..w]);
      var word := words[w];
      WordTerms(words[..w + 1]) == before + (if IsTermWord(word) then [Lower(word.word)] else [])
      && FirstOccurrences(WordTerms(words[..w + 1])) ==
           if IsTermWord(word) && Lower(word.word) !in before then FirstOccurrences(before) + [Lower(word.word)]
           else FirstOccurrences(before)
  {
    assert words[..w + 1][..w] == words[..w];
    var before := WordTerms(words[..w]);
    var word := words[w];
    if IsTermWord(word) {
      var t := Lower(word.word);
      assert WordTerms(words[..w + 1]) == before + [t];
      var ts := before + [t];
      assert ts[..|ts| - 1] == before && ts[|ts| - 1] == t;
      assert FirstOccurrences(ts) == if t in before then FirstOccurrences(before) else FirstOccurrences(before) + [t];
    } else {
      assert WordTerms(words[..w + 1]) == before;
    }
  }

  /**
   * The two counting loops of `calculateTFIDF`: `termFrequency` counts every
   * term occurrence, `documentFrequency` the sentences a term occurs in.
   */
  method TermCounts(tagged: seq<TaggedSentence>) returns (termFrequency: Counts<String>, documentFrequency: Counts<String>)
    ensures termFrequency == Count(Terms(tagged))
    ensures documentFrequency == Count(DocTerms(tagged))
  {
    termFrequency := [];
    documentFrequency := [];
    var s := 0;
    while s < |tagged|
      invariant 0 <= s <= |tagged|
      invariant termFrequency == Count(Terms(tagged[..s]))
      invariant documentFrequency == Count(DocTerms(tagged[..s]))
    {
      assert tagged[..s + 1][..s] == tagged[..s];
      termFrequency, documentFrequency :=
        CountSentenceTerms(tagged[s].words, Terms(tagged[..s]), DocTerms(tagged[..s]), termFrequency, documentFrequency);
      s := s + 1;
    }
    assert tagged[..s] == tagged;
  }

  /**
   * For every counted term, the document frequency is at least 1, at most
   * the term frequency and at most the number of sentences.
   */
  lemma {:induction false} FrequencyBounds(tagged: seq<TaggedSentence>, t: String)
    requires t in Terms(tagged)
    ensures 1 <= Get(Count(DocTerms(tagged)), t) <= Get(Count(Terms(tagged)), t)
    ensures Get(Count(DocTerms(tagged)), t) <= |tagged|
  {
    CountGet(DocTerms(tagged), t);
    CountGet(Terms(tagged), t);
    OccurrenceBounds(tagged, t);
  }

  lemma {:induction false} OccurrenceBounds(tagged: seq<TaggedSentence>, t: String)
    ensures multiset(DocTerms(tagged))[t] <= multiset(Terms(tagged))[t]
    ensures multiset(DocTerms(tagged))[t] <= |tagged|
    ensures t in Terms(tagged) ==> multiset(DocTerms(tagged))[t] >= 1
  {
    if tagged != [] {
      var init := tagged[..|tagged| - 1];
      var ts := WordTerms(tagged[|tagged| - 1].words);
      OccurrenceBounds(init, t);
      FirstOccurrencesFacts(ts);
      assert multiset(FirstOccurrences(ts))[t] <= multiset(ts)[t];
      if t in ts {
        assert t in FirstOccurrences(ts);
      }
    }
  }

  /** `tf * Math.log(totalDocuments / (df + 1))` for every term, in term order; `ln` stands for `Math.log`. */
  function TfIdf(termFrequency: Counts<String>, documentFrequency: Counts<String>, totalDocuments: nat, ln: real -> real): (r: seq<(String, real)>)
    ensures |r| == |termFrequency|
    ensures forall i :: 0 <= i < |r| ==> r[i].0 == termFrequency[i].0
  {
    seq(|termFrequency|, i requires 0 <= i < |termFrequency| =>
      var term := termFrequency[i].0;
      (term, termFrequency[i].1 as real * ln(totalDocuments as real / (Get(documentFrequency, term) as real + 1.0))))
  }

  // ---------------------------------------------------------------------
  // extractQualityNgrams

  function StopwordCount(window: seq<TaggedWord>): (r: nat)
    ensures r <= |window|
  {
    if window == [] then 0 else StopwordCount(window[..|window| - 1]) + (if window[|window| - 1].isStopword then 1 else 0)
  }

  function Originals(window: seq<TaggedWord>): (r: seq<String>)
    ensures |r| == |window|
    ensures forall q :: 0 <= q < |window| ==> r[q] == window[q].word
  {
    seq(|window|, q requires 0 <= q < |window| => window[q].word)
  }

  /** The phrase of a window: its words joined by single spaces. */
  function Phrase(window: seq<TaggedWord>): String {
    Join(Originals(window), " ")
  }

  /** The quality conditions a window of `n` words must meet to be counted. */
  predicate IsQualityWindow(window: seq<TaggedWord>, n: nat)
    requires |window| == n >= 1
  {
    !window[0].isStopword && !window[n - 1].isStopword
    && StopwordCount(window) <= n / 3
    && (exists q :: 0 <= q < n && window[q].tag in {NOUN, PROPN})
    && !(|Phrase(window)| < n * 2 && n > 1)
  }

  /** The number of window starts `0 <= i <= words.length - n`. */
  function Starts(words: seq<TaggedWord>, n: nat): (r: nat)
    ensures r == 0 || r + n == |words| + 1
  {
    if |words| + 1 >= n then |words| + 1 - n else 0
  }

  /** The counted windows among the first `upto` starts of one sentence's words, left to right. */
  function SentenceWindows(words: seq<TaggedWord>, n: nat, upto: nat): (r: seq<seq<TaggedWord>>)
    requires n >= 1 && upto <= Starts(words, n)
    ensures forall q :: 0 <= q < |r| ==> |r[q]| == n && IsQualityWindow(r[q], n)
  {
    if upto == 0 then []
    else
      var window := words[upto - 1..upto - 1 + n];
      SentenceWindows(words, n, upto - 1) + (if IsQualityWindow(window, n) then [window] else [])
  }

  /** Every counted window, sentence after sentence. */
  function Windows(sentences: seq<TaggedSentence>, n: nat): (r: seq<seq<TaggedWord>>)
    requires n >= 1
    ensures forall q :: 0 <= q < |r| ==> |r[q]| == n && IsQualityWindow(r[q], n)
  {
    if sentences == [] then []
    else
      var words := sentences[|sentences| - 1].words;
      Windows(sentences[..|sentences| - 1], n) + SentenceWindows(words, n, Starts(words, n))
  }

  function Phrases(windows: seq<seq<TaggedWord>>): (r: seq<String>)
    ensures |r| == |windows|
    ensures forall q :: 0 <= q < |windows| ==> r[q] == Phrase(windows[q])
  {
    seq(|windows|, q requires 0 <= q < |windows| => Phrase(windows[q]))
  }

  lemma PhrasesAppend(a: seq<seq<TaggedWord>>, b: seq<seq<TaggedWord>>)
    ensures Phrases(a + b) == Phrases(a) + Phrases(b)
  {
  }

  lemma SentenceWindowsStep(words: seq<TaggedWord>, n: nat, i: nat)
    requires n >= 1 && i < Starts(words, n)
    ensures var window := words[i..i + n];
      SentenceWindows(words, n, i + 1) == SentenceWindows(words, n, i) + if IsQualityWindow(window, n) then [window] else []
  {
  }

  /** The window loop over one sentence's words. */
  method CountSentenceNgrams(words: seq<TaggedWord>, n: nat, ghost past: seq<String>, ngrams0: Counts<String>)
    returns (ngrams: Counts<String>)
    requires n >= 1 && ngrams0 == Count(past)
    ensures ngrams == Count(past + Phrases(SentenceWindows(words, n, Starts(words, n))))
  {
    ngrams := ngrams0;
    ghost var phrases: seq<String> := [];
    assert past + phrases == past;
    var i := 0;
    while i + n <= |words|
      invariant 0 <= i <= Starts(words, n)
      invariant phrases == Phrases(SentenceWindows(words, n, i))
      invariant ngrams == Count(past + phrases)
    {
      ngrams, phrases := CountWindow(words, n, i, past, phrases, ngrams);
      i := i + 1;
    }
    assert i == Starts(words, n);
  }

  /** One window of the loop: counted under its phrase when it passes the quality conditions. */
  method CountWindow(words: seq<TaggedWord>, n: nat, i: nat, ghost past: seq<String>, ghost phrases: seq<String>,
                     ngrams0: Counts<String>)
    returns (ngrams: Counts<String>, ghost phrases': seq<String>)
    requires n >= 1 && i < Starts(words, n)
    requires phrases == Phrases(SentenceWindows(words, n, i)) && ngrams0 == Count(past + phrases)
    ensures phrases' == Phrases(SentenceWindows(words, n, i + 1)) && ngrams == Count(past + phrases')
  {
    var sequence := words[i..i + n];
    ghost var kept := if IsQualityWindow(sequence, n) then [sequence] else [];
    SentenceWindowsStep(words, n, i);
    PhrasesAppend(SentenceWindows(words, n, i), kept);
    ngrams, phrases' := ngrams0, phrases;
    if IsQualityWindow(sequence, n) {
      var phrase := Phrase(sequence);
      assert Phrases(kept) == [phrase];
      CountAppend(past, phrases, phrase);
      ngrams := Bump(ngrams, phrase);
      phrases' := phrases + [phrase];
    } else {
      assert Phrases(kept) == [];
    }
  }

  /**
   * `extractQualityNgrams(taggedSentences, n)`: every window of `n`
   * consecutive words that passes the quality conditions is counted under
   * its phrase.
   */
  method ExtractQualityNgrams(tagged: seq<TaggedSentence>, n: nat) returns (ngrams: Counts<String>)
    requires n >= 1
    ensures ngrams == Count(Phrases(Windows(tagged, n)))
  {
    ngrams := [];
    var s := 0;
    while s < |tagged|
      invariant 0 <= s <= |tagged|
      invariant ngrams == Count(Phrases(Windows(tagged[..s], n)))
    {
      var words := tagged[s].words;
      assert tagged[..s + 1][..s] == tagged[..s];
      PhrasesAppend(Windows(tagged[..s], n), SentenceWindows(words, n, Starts(words, n)));
      ngrams := CountSentenceNgrams(words, n, Phrases(Windows(tagged[..s], n)), ngrams);
      s := s + 1;
    }
    assert tagged[..s] == tagged;
  }

  /**
   * Every counted n-gram is the phrase of a window of exactly `n` words that
   * meets the quality conditions, and it was counted at least once.
   */
  lemma NgramsAreQualityPhrases(tagged: seq<TaggedSentence>, n: nat, phrase: String)
    requires n >= 1
    requires phrase in Keys(Count(Phrases(Windows(tagged, n))))
    ensures exists window :: window in Windows(tagged, n) && |window| == n
                             && IsQualityWindow(window, n) && Phrase(window) == phrase
    ensures Get(Count(Phrases(Windows(tagged, n))), phrase) >= 1
  {
    var ps := Phrases(Windows(tagged, n));
    CountKeys(ps);
    var q :| 0 <= q < |ps| && ps[q] == phrase;
    assert Windows(tagged, n)[q] in Windows(tagged, n);
    CountGet(ps, phrase);
  }

  // ---------------------------------------------------------------------
  // filterMeaningfulPhrases

  /** The conditions under which a phrase survives the filter. */
  predicate IsMeaningful(phrase: String, minLength: nat) {
    var words := SplitWs(Lower(phrase));
    |phrase| >= minLength * 3
    && !(forall q :: 0 <= q < |words| ==> IsStopword(words[q]))
    && !(IsStopword(words[|words| - 1]) && |words| <= 3)
  }

  /**
   * `filterMeaningfulPhrases(candidates, minLength)`: the candidates whose
   * phrase is meaningful, in their order.
   */
  function FilterMeaningfulPhrases(candidates: seq<(String, nat)>, minLength: nat): (r: seq<(String, nat)>)
    ensures IsSubsequence(r, candidates)
    ensures forall c :: c in r ==> c in candidates && IsMeaningful(c.0, minLength)
    ensures forall c :: c in candidates && IsMeaningful(c.0, minLength) ==> c in r
  {
    if candidates == [] then []
    else
      var rest := FilterMeaningfulPhrases(candidates[1..], minLength);
      if IsMeaningful(candidates[0].0, minLength) then
        assert ([candidates[0]] + rest)[1..] == rest;
        [candidates[0]] + rest
      else
        SubsequenceOfTail(rest, candidates);
        rest
  }
}
