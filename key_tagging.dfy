/**
 * The rule-based part-of-speech tagger of the key-element extractor
 * (js/utils/key-elements-extractor.js, `tagPartsOfSpeech`). The text is cut
 * into `/[^.!?]+[.!?]+/g` sentence matches, each sentence into
 * `/\b[\w'-]+\b/g` words, and each word gets the first tag whose rule fires.
 * The rule "after a determiner" reads a `prevCategory` that is set by
 * adjectives and determiners only and never reset within a sentence.
 */
module KeyTagging {
  import opened Wrappers
  import opened Text

  /**
   * The extractor's own stopword set, grouped by word length: a word is a
   * stopword when it is in the group of its own length.
   */
  function StopwordsOfLength(n: nat): seq<String> {
    match n
    case 1 => ["a"]
    case 2 => ["an", "or", "on", "at", "to", "by", "is", "be", "in", "it", "of", "as", "my", "we", "he",
      "me", "us", "up"]
    case 3 => ["the", "and", "but", "for", "nor", "are", "was", "has", "had", "not", "who", "why", "how",
      "all", "any", "few", "too", "can", "now", "its", "his", "our", "she", "you", "him", "her", "may"]
    case 4 => ["were", "been", "that", "this", "from", "with", "have", "what", "when", "both", "each",
      "more", "most", "some", "such", "than", "very", "will", "just", "into", "only", "hers", "your",
      "they", "them", "here", "must", "down", "over"]
    case 5 => ["being", "where", "other", "their", "these", "those", "there", "would", "could", "shall",
      "might", "about", "after", "above", "below", "under"]
    case 6 => ["should", "itself", "myself", "within", "during", "before"]
    case 7 => ["himself", "herself", "without", "through"]
    case 8 => ["yourself"]
    case 9 => ["ourselves"]
    case 10 => ["themselves", "throughout"]
    case _ => []
  }

  /** `STOPWORDS.has(w)`. */
  predicate IsStopword(w: String) {
    w in StopwordsOfLength(|w|)
  }

  const NounSuffixes: seq<String> := ["tion", "ment", "ity", "ness", "ship", "dom", "ence", "ance", "ism", "ing"]
  const AdjectiveSuffixes: seq<String> := ["able", "ible", "al", "ful", "ic", "ive", "less", "ous"]
  const Determiners: seq<String> := ["the", "a", "an", "this", "that", "these", "those"]

  datatype Tag = PROPN | NOUN | ADJ | DET | STOP | OTHER

  /** A tagged word; the source's `original` field always equals `word` and is not repeated. */
  datatype TaggedWord = TaggedWord(word: String, tag: Tag, isStopword: bool, isSentenceStart: bool, isCapitalized: bool)

  datatype TaggedSentence = TaggedSentence(sentence: String, words: seq<TaggedWord>)

  /**
   * The first character has distinct upper- and lower-case forms and is the
   * upper-case one. Words start with a `\w` character, so this is an ASCII
   * capital letter.
   */
  predicate IsCapitalized(word: String) {
    |word| > 0 && IsUpper(word[0])
  }

  predicate EndsWith(s: String, suffix: String) {
    |suffix| <= |s| && s[|s| - |suffix|..] == suffix
  }

  /** `s.match(/(?:...|...)$/)` for a list of literal alternatives. */
  predicate EndsWithAny(s: String, suffixes: seq<String>) {
    exists k :: 0 <= k < |suffixes| && EndsWith(s, suffixes[k])
  }

  /**
   * What the rules read of a word: whether it is capitalised, and whether its
   * lower-case form ends with a noun suffix, is a stopword, ends with an
   * adjective suffix or is a determiner.
   */
  datatype Features = Features(capitalized: bool, nounSuffix: bool, stopword: bool, adjectiveSuffix: bool, determiner: bool)

  function FeaturesOf(word: String): Features {
    var lowerWord := Lower(word);
    Features(IsCapitalized(word), EndsWithAny(lowerWord, NounSuffixes), IsStopword(lowerWord),
             EndsWithAny(lowerWord, AdjectiveSuffixes), lowerWord in Determiners)
  }

  /** The features of every word of a sentence. */
  function WordFeatures(words: seq<String>): (r: seq<Features>)
    ensures |r| == |words|
  {
    if words == [] then [] else WordFeatures(words[..|words| - 1]) + [FeaturesOf(words[|words| - 1])]
  }

  /** The features at `i` are those of the word at `i`. */
  lemma {:induction false} WordFeaturesAt(words: seq<String>, i: nat)
    requires i < |words|
    ensures WordFeatures(words)[i] == FeaturesOf(words[i])
  {
    var init := words[..|words| - 1];
    if i < |init| {
      WordFeaturesAt(init, i);
      assert init[i] == words[i];
    }
  }

  /**
   * The rule chain for the word at `index`, given the current `prevCategory`:
   * the tag and the `prevCategory` for the next word.
   */
  function Classify(f: Features, index: nat, prev: Option<Tag>): (r: (Tag, Option<Tag>))
    ensures r.0 == PROPN <==> f.capitalized && index > 0
    ensures r.0 == OTHER ==> index == 0
    ensures r.1 == (if r.0 == ADJ then Some(ADJ) else if r.0 == DET then Some(DET) else prev)
  {
    if f.capitalized && index > 0 then (PROPN, prev)
    else if f.nounSuffix then (NOUN, prev)
    else if prev == Some(DET) && !f.stopword then (NOUN, prev)
    else if f.adjectiveSuffix then (ADJ, Some(ADJ))
    else if f.determiner then (DET, Some(DET))
    else if f.stopword then (STOP, prev)
    else if index > 0 then (NOUN, prev)
    else (OTHER, prev)
  }

  /** `prevCategory` as the word at `i` sees it. */
  function PrevAt(feats: seq<Features>, i: nat): Option<Tag>
    requires i <= |feats|
  {
    if i == 0 then None else Classify(feats[i - 1], i - 1, PrevAt(feats, i - 1)).1
  }

  /** The record the tagger builds for the word at `i`, given every word's features. */
  function TagWord(words: seq<String>, feats: seq<Features>, i: nat): TaggedWord
    requires |feats| == |words| && i < |words|
  {
    TaggedWord(words[i], Classify(feats[i], i, PrevAt(feats, i)).0, feats[i].stopword, i == 0, feats[i].capitalized)
  }

  /** The records of the first `k` words, in order. */
  function Tagging(words: seq<String>, feats: seq<Features>, k: nat): (r: seq<TaggedWord>)
    requires |feats| == |words| && k <= |words|
    ensures |r| == k
  {
    if k == 0 then [] else Tagging(words, feats, k - 1) + [TagWord(words, feats, k - 1)]
  }

  /** The tagged sentences of `text`. */
  function TaggedSentences(text: String): (r: seq<TaggedSentence>)
  {
    var ms := SentenceMatches(text);
    seq(|ms|, i requires 0 <= i < |ms| =>
      var ws := WordTokens(ms[i]);
      TaggedSentence(ms[i], Tagging(ws, WordFeatures(ws), |ws|)))
  }

  /**
   * The words of one sentence, tagged left to right with `prevCategory`
   * threaded through: a proper noun is exactly a capitalised word that is
   * not the first, and only the first word is a sentence start.
   */
  method TagWords(words: seq<String>) returns (tagged: seq<TaggedWord>)
    ensures tagged == Tagging(words, WordFeatures(words), |words|)
  {
    ghost var feats := WordFeatures(words);
    var prevCategory: Option<Tag> := None;
    tagged := [];
    var index := 0;
    while index < |words|
      invariant 0 <= index <= |words|
      invariant prevCategory == PrevAt(feats, index)
      invariant tagged == Tagging(words, feats, index)
    {
      var word;
      WordFeaturesAt(words, index);
      word, prevCategory := TagOne(words, feats, index, prevCategory);
      tagged := tagged + [word];
      index := index + 1;
    }
  }

  /**
   * A proper noun is exactly a capitalised word that is not the first, only
   * the first word is a sentence start, only the first word can be left
   * untagged, and every record keeps its word.
   */
  lemma {:induction false} TaggingFacts(words: seq<String>, feats: seq<Features>, k: nat)
    requires |feats| == |words| && k <= |words|
    ensures forall i :: 0 <= i < k ==>
      (Tagging(words, feats, k)[i].tag == PROPN <==> feats[i].capitalized && i > 0)
      && (Tagging(words, feats, k)[i].isSentenceStart <==> i == 0)
      && (Tagging(words, feats, k)[i].tag == OTHER ==> i == 0)
      && Tagging(words, feats, k)[i].word == words[i]
  {
    if k > 0 {
      TaggingFacts(words, feats, k - 1);
      var prefix := Tagging(words, feats, k - 1);
      var r := Tagging(words, feats, k);
      assert r == prefix + [TagWord(words, feats, k - 1)];
      forall i | 0 <= i < k - 1 ensures r[i] == prefix[i] { }
    }
  }

  /** The capitalisation feature is the source's `isCapitalized`. */
  lemma CapitalizedFeature(word: String)
    ensures FeaturesOf(word).capitalized <==> |word| > 0 && IsUpper(word[0])
  {
  }

  /** The loop body of the tagger: one word's record and the next `prevCategory`. */
  method TagOne(words: seq<String>, ghost feats: seq<Features>, index: nat, prev: Option<Tag>)
    returns (tagged: TaggedWord, prevCategory: Option<Tag>)
    requires |feats| == |words| && index < |words|
    requires feats[index] == FeaturesOf(words[index]) && prev == PrevAt(feats, index)
    ensures tagged == TagWord(words, feats, index)
    ensures prevCategory == PrevAt(feats, index + 1)
  {
    var word := words[index];
    prevCategory := prev;
    var lowerWord := Lower(word);
    var isCapitalized := IsCapitalized(word);
    var isStopword := IsStopword(lowerWord);
    var tag := OTHER;
    if isCapitalized && index > 0 {
      tag := PROPN;
    } else if EndsWithAny(lowerWord, NounSuffixes) {
      tag := NOUN;
    } else if prevCategory == Some(DET) && !isStopword {
      tag := NOUN;
    } else if EndsWithAny(lowerWord, AdjectiveSuffixes) {
      tag := ADJ;
      prevCategory := Some(ADJ);
    } else if lowerWord in Determiners {
      tag := DET;
      prevCategory := Some(DET);
    } else if isStopword {
      tag := STOP;
    } else if index > 0 {
      tag := NOUN;
    }
    tagged := TaggedWord(word, tag, isStopword, index == 0, isCapitalized);
  }

  /** `tagPartsOfSpeech(text)`. */
  method TagPartsOfSpeech(text: String) returns (r: seq<TaggedSentence>)
    ensures r == TaggedSentences(text)
  {
    var sentences := SentenceMatches(text);
    r := [];
    var k := 0;
    while k < |sentences|
      invariant 0 <= k <= |sentences| && |r| == k
      invariant forall q :: 0 <= q < k ==> r[q] == TaggedSentences(text)[q]
    {
      var words := WordTokens(sentences[k]);
      var tagged := TagWords(words);
      r := r + [TaggedSentence(sentences[k], tagged)];
      k := k + 1;
    }
  }

  /** Once set, `prevCategory` is never cleared again within the sentence. */
  lemma {:induction false} PrevCategoryNeverCleared(feats: seq<Features>, i: nat, j: nat)
    requires i <= j <= |feats|
    requires PrevAt(feats, i).Some?
    ensures PrevAt(feats, j).Some?
    decreases j - i
  {
    if i < j {
      PrevCategoryNeverCleared(feats, i + 1, j);
    }
  }

  /**
   * After a determiner, `prevCategory` stays `DET` until a word is tagged as
   * an adjective: every non-stopword in between that is not a proper noun or
   * a suffix noun is read as a noun.
   */
  lemma {:induction false} DeterminerSticks(feats: seq<Features>, i: nat, j: nat)
    requires i <= j <= |feats|
    requires PrevAt(feats, i) == Some(DET)
    ensures PrevAt(feats, j) == Some(DET)
      || exists q :: i <= q < j && Classify(feats[q], q, PrevAt(feats, q)).0 == ADJ
    decreases j - i
  {
    if i < j && Classify(feats[i], i, PrevAt(feats, i)).0 != ADJ {
      DeterminerSticks(feats, i + 1, j);
    }
  }
}
