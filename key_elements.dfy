/**
 * The assembly of the key-element extractor
 * (js/utils/key-elements-extractor.js, `categorizeElements`,
 * `extractSentencesWithKeywords` and `extractKeyElements`): themes scored
 * from single terms and n-grams, proper-noun and technical-term entities,
 * the keyword categories and the key sentences.
 */
module KeyElements {
  import opened Text
  import opened Sorting
  import opened Tally
  import opened KeyTagging
  import opened KeyTerms

  /** A theme, entity or term: `{ text, relevance }`. */
  datatype Element = Element(text: String, relevance: int)

  /** The texts of the elements: `items.map(item => item.text)`. */
  function Texts(items: seq<Element>): (r: seq<String>)
    ensures |r| == |items|
    ensures forall q :: 0 <= q < |items| ==> r[q] == items[q].text
  {
    seq(|items|, q requires 0 <= q < |items| => items[q].text)
  }

  // ---------------------------------------------------------------------
  // categorizeElements

  /** The category table, in declaration order. */
  function Categories(): seq<(String, seq<String>)>
  {
    seq(4, CategoryAt)
  }

  /** The entry at position `k` (the last one for any later position). */
  function CategoryAt(k: int): (String, seq<String>)
  {
    match k
    case 0 => ("technology", ["digital", "online", "technology", "social media", "platform", "machine",
      "algorithm", "internet", "computer", "software", "device", "app", "artificial intelligence", "ai",
      "tech", "web", "electronic", "data", "system", "network", "mobile"])
    case 1 => ("communication", ["communication", "information", "media", "content", "message", "exchange",
      "sharing", "discuss", "chat", "conversation", "expression", "article", "news", "document", "text",
      "write", "read", "language", "sentence", "word"])
    case 2 => ("information processing", ["process", "distill", "summarize", "summarization", "extract",
      "capture", "identify", "analyze", "understand", "summary", "key point", "essence", "important",
      "critical", "essential", "natural language processing"])
    case _ => ("education", ["education", "learning", "teaching", "student", "school", "university",
      "knowledge", "academic", "study", "research", "training"])
  }

  /** The bucket of items that match no category. */
  const Other: String := "other"

  /**
   * One of the four alternatives of `\bkw|kws?\b|kwing\b|kwed\b` matches at
   * position `p` of `t`.
   */
  predicate KeywordAt(t: String, kw: String, p: nat) {
    OccursAt(t, kw, p)
    && (BoundaryAt(t, p)
        || BoundaryAt(t, p + |kw|)
        || (OccursAt(t, kw + "s", p) && BoundaryAt(t, p + |kw| + 1))
        || (OccursAt(t, kw + "ing", p) && BoundaryAt(t, p + |kw| + 3))
        || (OccursAt(t, kw + "ed", p) && BoundaryAt(t, p + |kw| + 2)))
  }

  /** `regex.test(t)` for the keyword's pattern. */
  predicate KeywordMatches(t: String, kw: String) {
    exists p: nat :: p <= |t| && KeywordAt(t, kw, p)
  }

  /** `keywords.some(...)`. */
  predicate AnyKeywordMatches(t: String, keywords: seq<String>) {
    exists k :: 0 <= k < |keywords| && KeywordMatches(t, keywords[k])
  }

  /**
   * The first category from position `c` on whose keywords match the
   * lower-cased text, or "other" when none does.
   */
  function CategoryFrom(lowerText: String, c: nat): String
    decreases |Categories()| - c
  {
    if c >= |Categories()| then Other
    else if AnyKeywordMatches(lowerText, Categories()[c].1) then Categories()[c].0
    else CategoryFrom(lowerText, c + 1)
  }

  /**
   * The category chosen is "other" exactly when no category from `c` on
   * matches; otherwise it is the first matching one.
   */
  lemma {:induction false} CategoryFromFirstMatch(lowerText: String, c: nat)
    ensures var r := CategoryFrom(lowerText, c);
      (r == Other <==> forall d :: c <= d < |Categories()| ==> !AnyKeywordMatches(lowerText, Categories()[d].1))
      && (r != Other ==>
            exists d :: (c <= d < |Categories()| && r == Categories()[d].0
              && AnyKeywordMatches(lowerText, Categories()[d].1)
              && (forall e :: c <= e < d ==> !AnyKeywordMatches(lowerText, Categories()[e].1))))
    decreases |Categories()| - c
  {
    if c < |Categories()| {
      var kws := Categories()[c].1;
      if AnyKeywordMatches(lowerText, kws) {
        CategoryNotOther(c);
        assert CategoryFrom(lowerText, c) == Categories()[c].0;
      } else {
        CategoryFromFirstMatch(lowerText, c + 1);
        assert CategoryFrom(lowerText, c) == CategoryFrom(lowerText, c + 1);
      }
    }
  }

  /** No category is called "other". */
  lemma CategoryNotOther(c: nat)
    requires c < |Categories()|
    ensures Categories()[c].0 != Other
  {
    assert Categories()[c] == CategoryAt(c);
  }

  /** The bucket an item goes to. */
  function CategoryOf(item: Element): String {
    CategoryFrom(Lower(item.text), 0)
  }

  /** The result object: bucket names in order of creation, each with its items. */
  type Buckets = seq<(String, seq<Element>)>

  /** `result[name] || []`. */
  function Bucket(b: Buckets, name: String): seq<Element> {
    if b == [] then [] else if b[0].0 == name then b[0].1 else Bucket(b[1..], name)
  }

  /** The number of items over all buckets. */
  function Total(b: Buckets): nat {
    if b == [] then 0 else |b[0].1| + Total(b[1..])
  }

  /** `if (!result[name]) result[name] = []; result[name].push(item)`. */
  function AddTo(b: Buckets, name: String, item: Element): Buckets {
    if b == [] then [(name, [item])]
    else if b[0].0 == name then [(name, b[0].1 + [item])] + b[1..]
    else [b[0]] + AddTo(b[1..], name, item)
  }

  /**
   * Adding an item extends its own bucket by that item, creating the bucket
   * at the end if it is new, and leaves every other bucket as it was.
   */
  lemma {:induction false} AddToFacts(b: Buckets, name: String, item: Element)
    ensures Keys(AddTo(b, name, item)) == if name in Keys(b) then Keys(b) else Keys(b) + [name]
    ensures Bucket(AddTo(b, name, item), name) == Bucket(b, name) + [item]
    ensures forall other :: other != name ==> Bucket(AddTo(b, name, item), other) == Bucket(b, other)
    ensures Total(AddTo(b, name, item)) == Total(b) + 1
  {
    if b == [] {
    } else if b[0].0 == name {
      assert AddTo(b, name, item)[1..] == b[1..];
    } else {
      AddToFacts(b[1..], name, item);
      assert AddTo(b, name, item)[1..] == AddTo(b[1..], name, item);
    }
  }

  /** The buckets after every item has been added, in order. */
  function Categorized(items: seq<Element>): Buckets {
    if items == [] then []
    else AddTo(Categorized(items[..|items| - 1]), CategoryOf(items[|items| - 1]), items[|items| - 1])
  }

  /** The items of one category, in input order. */
  function Members(items: seq<Element>, name: String): (r: seq<Element>)
    ensures forall x :: x in r <==> x in items && CategoryOf(x) == name
  {
    if items == [] then []
    else
      var last := items[|items| - 1];
      assert items == items[..|items| - 1] + [last];
      Members(items[..|items| - 1], name) + (if CategoryOf(last) == name then [last] else [])
  }

  /**
   * Every bucket holds exactly the items of its category, in input order;
   * a bucket exists exactly for the categories that received an item, each
   * once; and the bucket sizes add up to the number of items.
   */
  lemma {:induction false} CategorizedByCategory(items: seq<Element>)
    ensures forall name :: Bucket(Categorized(items), name) == Members(items, name)
    ensures forall name :: name in Keys(Categorized(items)) <==> Members(items, name) != []
    ensures Distinct(Keys(Categorized(items)))
    ensures Total(Categorized(items)) == |items|
  {
    if items != [] {
      var init := items[..|items| - 1];
      var last := items[|items| - 1];
      var b := Categorized(init);
      CategorizedByCategory(init);
      AddToFacts(b, CategoryOf(last), last);
      forall name ensures name in Keys(Categorized(items)) <==> Members(items, name) != [] {
        if name == CategoryOf(last) {
          assert last in Members(items, name);
        }
      }
    }
  }

  /**
   * The body of the item loop: the item is pushed into the first category
   * whose keywords match, or into "other".
   */
  method CategorizeItem(result0: Buckets, item: Element) returns (result: Buckets)
    ensures result == AddTo(result0, CategoryOf(item), item)
  {
    result := result0;
    var lowerText := Lower(item.text);
    var matched := false;
    var c := 0;
    while c < |Categories()|
      invariant 0 <= c <= |Categories()|
      invariant CategoryFrom(lowerText, c) == CategoryOf(item)
      invariant !matched && result == result0
    {
      if AnyKeywordMatches(lowerText, Categories()[c].1) {
        result := AddTo(result, Categories()[c].0, item);
        matched := true;
        break;
      }
      c := c + 1;
    }
    if !matched {
      result := AddTo(result, Other, item);
    }
  }

  lemma CategorizedSnoc(items: seq<Element>, i: nat)
    requires i < |items|
    ensures Categorized(items[..i + 1]) == AddTo(Categorized(items[..i]), CategoryOf(items[i]), items[i])
  {
    assert items[..i + 1][..i] == items[..i];
  }

  /**
   * `categorizeElements(themes, entities)`: every theme, then every entity,
   * goes to the first category whose keywords match its lower-cased text, or
   * to "other".
   */
  method CategorizeElements(themes: seq<Element>, entities: seq<Element>) returns (result: Buckets)
    ensures result == Categorized(themes + entities)
  {
    var items := themes + entities;
    result := [];
    var i := 0;
    while i < |items|
      invariant 0 <= i <= |items|
      invariant result == Categorized(items[..i])
    {
      CategorizedSnoc(items, i);
      result := CategorizeItem(result, items[i]);
      i := i + 1;
    }
    assert items[..i] == items;
  }

  // ---------------------------------------------------------------------
  // extractSentencesWithKeywords

  /** The score one keyword adds to a lower-cased sentence. */
  function Hit(lowerSentence: String, keyword: String): (r: real)
    ensures r == 0.0 <==> !Contains(lowerSentence, Lower(keyword))
    ensures 0.0 <= r <= 1.5
  {
    var keywordLower := Lower(keyword);
    if Contains(lowerSentence, keywordLower) then
      (if (IndexOf(lowerSentence, keywordLower) as real) < (|lowerSentence| as real) / 2.0 then 1.5 else 1.0)
    else 0.0
  }

  function KeywordScore(lowerSentence: String, keywords: seq<String>): (r: real)
    ensures 0.0 <= r <= 1.5 * |keywords| as real
  {
    if keywords == [] then 0.0
    else KeywordScore(lowerSentence, keywords[..|keywords| - 1]) + Hit(lowerSentence, keywords[|keywords| - 1])
  }

  /** The length adjustment: a bonus for 10 to 25 words, a penalty above 40. */
  function LengthBonus(sentence: String): (r: real)
    ensures -1.0 <= r <= 0.5
  {
    var wordCount := |SplitWs(sentence)|;
    if 10 <= wordCount <= 25 then 0.5 else if wordCount > 40 then -1.0 else 0.0
  }

  /** The score of the sentence at `i`; the first sentence always scores at least 1. */
  function KeyPointScore(sentences: seq<String>, i: nat, keywords: seq<String>): (r: real)
    requires i < |sentences|
    ensures i == 0 ==> r >= 1.0
  {
    (if i == 0 then 2.0 else 0.0) + (if i == |sentences| - 1 then 1.5 else 0.0)
    + KeywordScore(Lower(sentences[i]), keywords) + LengthBonus(sentences[i])
  }

  function KeyPointScores(sentences: seq<String>, keywords: seq<String>): (r: seq<real>)
    ensures |r| == |sentences|
    ensures forall i :: 0 <= i < |r| ==> r[i] == KeyPointScore(sentences, i, keywords)
  {
    seq(|sentences|, i requires 0 <= i < |sentences| => KeyPointScore(sentences, i, keywords))
  }

  /** `.filter(item => item.score > 0)`, as the increasing list of the kept indices. */
  function PositiveIndices(scores: seq<real>): (r: seq<nat>)
    ensures StrictlyIncreasing(r)
    ensures forall i: nat :: i in r <==> i < |scores| && scores[i] > 0.0
  {
    if scores == [] then []
    else
      var init := scores[..|scores| - 1];
      var rest := PositiveIndices(init);
      assert forall i: nat :: i < |init| ==> init[i] == scores[i];
      assert forall q :: 0 <= q < |rest| ==> rest[q] < |init| by {
        forall q | 0 <= q < |rest| ensures rest[q] < |init| {
          assert rest[q] in rest;
        }
      }
      if scores[|scores| - 1] > 0.0 then rest + [|scores| - 1] else rest
  }

  /**
   * The indices of the key sentences: at most `maxSentences` of the
   * positively scored sentences, in increasing order; every one of them
   * beats every positively scored sentence left out (equal scores favour the
   * earlier sentence), and there is at least one when the text has a
   * sentence and one is asked for.
   */
  function KeyPointIndices(sentences: seq<String>, keywords: seq<String>, maxSentences: nat): (r: seq<nat>)
    ensures |r| <= maxSentences
    ensures StrictlyIncreasing(r)
    ensures forall q :: 0 <= q < |r| ==> r[q] < |sentences| && KeyPointScore(sentences, r[q], keywords) > 0.0
    ensures var score := ScoreAt(KeyPointScores(sentences, keywords));
      forall i, j :: i in r && j in PositiveIndices(KeyPointScores(sentences, keywords)) && j !in r ==>
        score(i) > score(j) || (score(i) == score(j) && i < j)
    ensures |sentences| > 0 && maxSentences > 0 ==> |r| > 0
  {
    var scores := KeyPointScores(sentences, keywords);
    var cands := PositiveIndices(scores);
    var r := TopInSourceOrder(cands, ScoreAt(scores), maxSentences);
    forall q | 0 <= q < |r| ensures r[q] < |sentences| && KeyPointScore(sentences, r[q], keywords) > 0.0 {
      assert r[q] in r;
    }
    assert |sentences| > 0 ==> 0 in cands;
    r
  }

  /**
   * `extractSentencesWithKeywords(text, keywords, maxSentences)`: the key
   * sentences of `text`, trimmed, in their original order.
   */
  function KeyPoints(text: String, keywords: seq<String>, maxSentences: nat): (r: seq<String>)
    ensures |r| <= maxSentences
    ensures forall q :: 0 <= q < |r| ==> IsTrimmed(r[q])
    ensures var sentences := SentenceMatches(text);
      var idx := KeyPointIndices(sentences, keywords, maxSentences);
      |r| == |idx| && forall q :: 0 <= q < |r| ==> r[q] == Trim(sentences[idx[q]])
    ensures SentenceMatches(text) != [] && maxSentences > 0 ==> r != []
  {
    var sentences := SentenceMatches(text);
    var idx := KeyPointIndices(sentences, keywords, maxSentences);
    seq(|idx|, q requires 0 <= q < |idx| => Trim(sentences[idx[q]]))
  }

  // ---------------------------------------------------------------------
  // Entity collection

  /** The words that start or continue an entity. */
  predicate ExtendsEntity(word: TaggedWord, inEntity: bool) {
    word.tag == PROPN || (inEntity && word.isCapitalized && !word.isSentenceStart)
  }

  /**
   * The entity texts one sentence's words yield, in order of completion,
   * given the words already gathered in `current`.
   */
  function EntityRuns(words: seq<TaggedWord>, current: seq<String>): seq<String>
    decreases |words|
  {
    if words == [] then (if current == [] then [] else [Join(current, " ")])
    else if ExtendsEntity(words[0], current != []) then EntityRuns(words[1..], current + [words[0].word])
    else if current != [] then [Join(current, " ")] + EntityRuns(words[1..], [])
    else EntityRuns(words[1..], [])
  }

  /** The technical terms looked for in every sentence, in list order. */
  function TechnicalTerms(): seq<String>
  {
    seq(11, TechnicalTermAt)
  }

  /** The entry at position `k` (the last one for any later position). */
  function TechnicalTermAt(k: int): String
  {
    match k
    case 0 => "natural language processing"
    case 1 => "machine learning"
    case 2 => "artificial intelligence"
    case 3 => "text summarization"
    case 4 => "information retrieval"
    case 5 => "information extraction"
    case 6 => "text analytics"
    case 7 => "neural networks"
    case 8 => "deep learning"
    case 9 => "nlp"
    case _ => "ai"
  }

  /** The technical terms the lower-cased sentence contains, in list order. */
  function TechnicalTermsIn(lowerSentence: String, terms: seq<String>): (r: seq<String>)
    ensures forall t :: t in r <==> t in terms && Contains(lowerSentence, t)
  {
    if terms == [] then []
    else
      var last := terms[|terms| - 1];
      assert terms == terms[..|terms| - 1] + [last];
      TechnicalTermsIn(lowerSentence, terms[..|terms| - 1]) + (if Contains(lowerSentence, last) then [last] else [])
  }

  /** What one sentence adds to `entityCounts`, in order. */
  function SentenceEntities(sentence: TaggedSentence): seq<String> {
    EntityRuns(sentence.words, []) + TechnicalTermsIn(Lower(sentence.sentence), TechnicalTerms())
  }

  function EntityOccurrences(sentences: seq<TaggedSentence>): seq<String> {
    if sentences == [] then []
    else EntityOccurrences(sentences[..|sentences| - 1]) + SentenceEntities(sentences[|sentences| - 1])
  }

  /**
   * On the tagger's own output the continuation rule adds nothing: a word
   * extends an entity exactly when it is tagged as a proper noun.
   */
  lemma ExtendsEntityIsPropn(words: seq<String>, feats: seq<Features>, i: nat, inEntity: bool)
    requires |feats| == |words| && i < |words|
    ensures ExtendsEntity(TagWord(words, feats, i), inEntity) <==> TagWord(words, feats, i).tag == PROPN
  {
  }

  /** One more word of the entity scan. */
  lemma EntityRunsStep(words: seq<TaggedWord>, i: nat, current: seq<String>)
    requires i < |words|
    ensures EntityRuns(words[i..], current) ==
      if ExtendsEntity(words[i], current != []) then EntityRuns(words[i + 1..], current + [words[i].word])
      else if current != [] then [Join(current, " ")] + EntityRuns(words[i + 1..], [])
      else EntityRuns(words[i + 1..], [])
  {
    assert words[i..][0] == words[i] && words[i..][1..] == words[i + 1..];
  }

  /** The word loop for one sentence: runs of proper nouns, each counted when it ends. */
  method CountEntityRuns(words: seq<TaggedWord>, ghost past: seq<String>, counts0: Counts<String>)
    returns (entityCounts: Counts<String>)
    requires counts0 == Count(past)
    ensures entityCounts == Count(past + EntityRuns(words, []))
  {
    entityCounts := counts0;
    var currentEntity: seq<String> := [];
    ghost var found: seq<String> := [];
    assert past + found == past;
    var i := 0;
    while i < |words|
      invariant 0 <= i <= |words|
      invariant found + EntityRuns(words[i..], currentEntity) == EntityRuns(words, [])
      invariant entityCounts == Count(past + found)
    {
      var word := words[i];
      EntityRunsStep(words, i, currentEntity);
      if ExtendsEntity(word, |currentEntity| > 0) {
        currentEntity := currentEntity + [word.word];
      } else if |currentEntity| > 0 {
        var entityText := Join(currentEntity, " ");
        CountAppend(past, found, entityText);
        entityCounts := Bump(entityCounts, entityText);
        found := found + [entityText];
        currentEntity := [];
      }
      i := i + 1;
    }
    assert words[i..] == [];
    assert EntityRuns(words[i..], currentEntity) == if currentEntity == [] then [] else [Join(currentEntity, " ")];
    // the run still open at the end of the sentence
    if |currentEntity| > 0 {
      var entityText := Join(currentEntity, " ");
      CountAppend(past, found, entityText);
      entityCounts := Bump(entityCounts, entityText);
      found := found + [entityText];
    }
    assert found == EntityRuns(words, []);
  }

  /** The technical-term loop for one sentence. */
  method CountTechnicalTerms(lowerSentence: String, ghost past: seq<String>, counts0: Counts<String>)
    returns (entityCounts: Counts<String>)
    requires counts0 == Count(past)
    ensures entityCounts == Count(past + TechnicalTermsIn(lowerSentence, TechnicalTerms()))
  {
    entityCounts := counts0;
    ghost var found: seq<String> := [];
    assert past + found == past;
    var t := 0;
    while t < |TechnicalTerms()|
      invariant 0 <= t <= |TechnicalTerms()|
      invariant found == TechnicalTermsIn(lowerSentence, TechnicalTerms()[..t])
      invariant entityCounts == Count(past + found)
    {
      var term := TechnicalTerms()[t];
      assert TechnicalTerms()[..t + 1][..t] == TechnicalTerms()[..t];
      if Contains(lowerSentence, term) {
        CountAppend(past, found, term);
        entityCounts := Bump(entityCounts, term);
        found := found + [term];
      }
      t := t + 1;
    }
    assert TechnicalTerms()[..t] == TechnicalTerms();
  }

  /** One sentence of the entity collection: its entity runs, then its technical terms. */
  method CountSentenceEntities(sentence: TaggedSentence, ghost past: seq<String>, counts0: Counts<String>)
    returns (entityCounts: Counts<String>)
    requires counts0 == Count(past)
    ensures entityCounts == Count(past + SentenceEntities(sentence))
  {
    ghost var runs := EntityRuns(sentence.words, []);
    entityCounts := CountEntityRuns(sentence.words, past, counts0);
    var lowerSentence := Lower(sentence.sentence);
    entityCounts := CountTechnicalTerms(lowerSentence, past + runs, entityCounts);
    assert (past + runs) + TechnicalTermsIn(lowerSentence, TechnicalTerms()) == past + SentenceEntities(sentence);
  }

  /** The sentence loop of the entity collection: `entityCounts`. */
  method CollectEntityCounts(tagged: seq<TaggedSentence>) returns (entityCounts: Counts<String>)
    ensures entityCounts == Count(EntityOccurrences(tagged))
  {
    entityCounts := [];
    var s := 0;
    while s < |tagged|
      invariant 0 <= s <= |tagged|
      invariant entityCounts == Count(EntityOccurrences(tagged[..s]))
    {
      assert tagged[..s + 1][..s] == tagged[..s];
      entityCounts := CountSentenceEntities(tagged[s], EntityOccurrences(tagged[..s]), entityCounts);
      s := s + 1;
    }
    assert tagged[..s] == tagged;
  }

  /** The key of a descending sort by count. */
  function CountKey(e: (String, nat)): real { -(e.1 as real) }

  /** `Math.min(5, Math.max(1, count + 2))`. */
  function EntityRelevance(count: nat): (r: int)
    ensures 1 <= r <= 5
    ensures count >= 1 ==> r >= 3
  {
    Min(5, Max(1, count + 2))
  }

  /** The entity filter: longer than two characters and not a stopword. */
  predicate KeepsEntity(entity: String) {
    |entity| > 2 && !IsStopword(Lower(entity))
  }

  /** `.filter(...).forEach(... entities.push({ text, relevance }))`. */
  function KeepEntities(top: seq<(String, nat)>): (r: seq<Element>)
    ensures |r| <= |top|
    ensures forall e :: e in r ==> exists x :: x in top && KeepsEntity(x.0) && e == Element(x.0, EntityRelevance(x.1))
  {
    if top == [] then []
    else
      var rest := KeepEntities(top[1..]);
      var head := if KeepsEntity(top[0].0) then [Element(top[0].0, EntityRelevance(top[0].1))] else [];
      assert forall x :: x in top[1..] ==> x in top;
      head + rest
  }

  /** The scored entities: the ten most frequent entries, filtered, with their relevance. */
  function ScoredEntities(entityCounts: Counts<String>): (r: seq<Element>)
    ensures |r| <= 10
    ensures forall q :: 0 <= q < |r| ==> KeepsEntity(r[q].text)
  {
    var sorted := StableSort(entityCounts, CountKey);
    var top := sorted[..Min(10, |sorted|)];
    var r := KeepEntities(top);
    forall q | 0 <= q < |r| ensures KeepsEntity(r[q].text) {
      assert r[q] in r;
    }
    r
  }

  /** The key of a descending sort by relevance. */
  function RelevanceKey(e: Element): real { -(e.relevance as real) }

  /** Filtering a list sorted by descending count leaves relevance non-increasing. */
  lemma {:induction false} KeepEntitiesSorted(top: seq<(String, nat)>)
    requires SortedBy(top, CountKey)
    ensures SortedBy(KeepEntities(top), RelevanceKey)
  {
    if top != [] {
      var rest := KeepEntities(top[1..]);
      assert SortedBy(top[1..], CountKey) by {
        forall p, q | 0 <= p < q < |top[1..]| ensures CountKey(top[1..][p]) <= CountKey(top[1..][q]) {
          assert top[1..][p] == top[p + 1] && top[1..][q] == top[q + 1];
        }
      }
      KeepEntitiesSorted(top[1..]);
      if KeepsEntity(top[0].0) {
        var head := Element(top[0].0, EntityRelevance(top[0].1));
        var r := [head] + rest;
        forall x | x in top[1..] ensures x.1 <= top[0].1 {
          var k :| 0 <= k < |top[1..]| && top[1..][k] == x;
          assert CountKey(top[0]) <= CountKey(top[k + 1]);
        }
        forall p, q | 0 <= p < q < |r| ensures RelevanceKey(r[p]) <= RelevanceKey(r[q]) {
          if p == 0 {
            assert r[q] in rest;
          } else {
            assert r[p] == rest[p - 1] && r[q] == rest[q - 1];
          }
        }
      }
    }
  }

  /**
   * Entities number at most ten, are listed by non-increasing relevance, and
   * every relevance lies between 3 and 5, because every count is at least 1.
   */
  lemma ScoredEntitiesShape(occurrences: seq<String>)
    ensures var r := ScoredEntities(Count(occurrences));
      |r| <= 10
      && SortedBy(r, RelevanceKey)
      && forall q :: 0 <= q < |r| ==> 3 <= r[q].relevance <= 5
  {
    var counts := Count(occurrences);
    CountPositive(occurrences);
    var sorted := StableSort(counts, CountKey);
    var top := sorted[..Min(10, |sorted|)];
    SortedPrefix(sorted, Min(10, |sorted|));
    KeepEntitiesSorted(top);
    PrefixFromCounts(counts, sorted, Min(10, |sorted|));
    KeptRelevance(top);
  }

  /** A prefix of a list sorted by count is sorted by count. */
  lemma SortedPrefix(sorted: seq<(String, nat)>, m: nat)
    requires SortedBy(sorted, CountKey) && m <= |sorted|
    ensures SortedBy(sorted[..m], CountKey)
  {
    forall p, q | 0 <= p < q < m ensures CountKey(sorted[..m][p]) <= CountKey(sorted[..m][q]) {
      assert sorted[..m][p] == sorted[p] && sorted[..m][q] == sorted[q];
    }
  }

  /** A prefix of a reordering of positive counts holds only positive counts. */
  lemma PrefixFromCounts(counts: seq<(String, nat)>, sorted: seq<(String, nat)>, m: nat)
    requires forall i :: 0 <= i < |counts| ==> counts[i].1 >= 1
    requires multiset(sorted) == multiset(counts) && m <= |sorted|
    ensures forall x :: x in sorted[..m] ==> x.1 >= 1
  {
    forall x | x in sorted[..m] ensures x.1 >= 1 {
      assert x in sorted;
      assert x in multiset(counts);
      var k :| 0 <= k < |counts| && counts[k] == x;
    }
  }

  /** Kept entities of positive counts have a relevance between 3 and 5. */
  lemma KeptRelevance(top: seq<(String, nat)>)
    requires forall x :: x in top ==> x.1 >= 1
    ensures forall q :: 0 <= q < |KeepEntities(top)| ==> 3 <= KeepEntities(top)[q].relevance <= 5
  {
    var r := KeepEntities(top);
    forall q | 0 <= q < |r| ensures 3 <= r[q].relevance <= 5 {
      assert r[q] in r;
      var x :| x in top && KeepsEntity(x.0) && r[q] == Element(x.0, EntityRelevance(x.1));
    }
  }

  // ---------------------------------------------------------------------
  // Themes and terms

  /** `Math.ceil`. */
  function Ceil(x: real): (r: int)
    ensures x <= r as real < x + 1.0
  {
    -((-x).Floor)
  }

  /** The key of a descending sort by score. */
  function ScoreKey(e: (String, real)): real { -e.1 }

  /** The single-term filter: longer than three characters and not a stopword. */
  predicate IsSingleTerm(term: String) {
    |term| > 3 && !IsStopword(Lower(term))
  }

  function SingleTerms(scores: seq<(String, real)>): (r: seq<(String, real)>)
    ensures forall e :: e in r <==> e in scores && IsSingleTerm(e.0)
  {
    if scores == [] then []
    else
      var last := scores[|scores| - 1];
      assert scores == scores[..|scores| - 1] + [last];
      SingleTerms(scores[..|scores| - 1]) + (if IsSingleTerm(last.0) then [last] else [])
  }

  /** `Object.entries(counts)` with the count read as a score. */
  function AsScores(s: seq<(String, nat)>): (r: seq<(String, real)>)
    ensures |r| == |s|
    ensures forall q :: 0 <= q < |s| ==> r[q] == (s[q].0, s[q].1 as real)
  {
    seq(|s|, q requires 0 <= q < |s| => (s[q].0, s[q].1 as real))
  }

  /** The meaningful phrases of one n-gram table, by descending count. */
  function PhraseScores(ngrams: Counts<String>, minLength: nat): seq<(String, real)> {
    AsScores(StableSort(FilterMeaningfulPhrases(ngrams, minLength), CountKey))
  }

  /** The four ranked lists `extractKeyElements` scores themes from. */
  datatype Ranking = Ranking(
    single: seq<(String, real)>,
    bigrams: seq<(String, real)>,
    trigrams: seq<(String, real)>,
    quadgrams: seq<(String, real)>)

  function RankingOf(tfidf: seq<(String, real)>, bigrams: Counts<String>, trigrams: Counts<String>, quadgrams: Counts<String>): Ranking {
    Ranking(
      StableSort(SingleTerms(tfidf), ScoreKey),
      PhraseScores(bigrams, 2),
      PhraseScores(trigrams, 3),
      PhraseScores(quadgrams, 4))
  }

  /** The first score of a list times `weight`, or 1 for an empty list. */
  function TopScore(s: seq<(String, real)>, weight: real): real {
    if |s| > 0 then s[0].1 * weight else 1.0
  }

  function MaxReal(a: real, b: real): (r: real)
    ensures r >= a && r >= b && (r == a || r == b)
  {
    if a >= b then a else b
  }

  /** `maxScore`, the normaliser of every relevance. */
  function MaxScore(rk: Ranking): real {
    MaxReal(MaxReal(TopScore(rk.single, 1.0), TopScore(rk.bigrams, 1.5)),
            MaxReal(TopScore(rk.trigrams, 2.0), TopScore(rk.quadgrams, 2.5)))
  }

  /** Every list sorted by descending score, every n-gram count at least 1. */
  ghost predicate WellRanked(rk: Ranking) {
    SortedBy(rk.single, ScoreKey) && SortedBy(rk.bigrams, ScoreKey)
    && SortedBy(rk.trigrams, ScoreKey) && SortedBy(rk.quadgrams, ScoreKey)
    && (forall q :: 0 <= q < |rk.bigrams| ==> rk.bigrams[q].1 >= 1.0)
    && (forall q :: 0 <= q < |rk.trigrams| ==> rk.trigrams[q].1 >= 1.0)
    && (forall q :: 0 <= q < |rk.quadgrams| ==> rk.quadgrams[q].1 >= 1.0)
  }

  /** A ranked n-gram list built from counted phrases. */
  lemma {:induction false} PhraseScoresRanked(phrases: seq<String>, minLength: nat)
    ensures var s := PhraseScores(Count(phrases), minLength);
      SortedBy(s, ScoreKey) && forall q :: 0 <= q < |s| ==> s[q].1 >= 1.0
  {
    var counts := Count(phrases);
    CountPositive(phrases);
    var kept := FilterMeaningfulPhrases(counts, minLength);
    var sorted := StableSort(kept, CountKey);
    var s := AsScores(sorted);
    forall p, q | 0 <= p < q < |s| ensures ScoreKey(s[p]) <= ScoreKey(s[q]) {
      assert CountKey(sorted[p]) <= CountKey(sorted[q]);
    }
    forall q | 0 <= q < |s| ensures s[q].1 >= 1.0 {
      assert sorted[q] in multiset(kept) by {
        assert sorted[q] in multiset(sorted);
      }
      assert sorted[q] in counts;
    }
  }

  /** The ranking `extractKeyElements` builds from counted n-grams is well ranked. */
  lemma RankingOfWellRanked(tfidf: seq<(String, real)>, bigrams: seq<String>, trigrams: seq<String>, quadgrams: seq<String>)
    ensures WellRanked(RankingOf(tfidf, Count(bigrams), Count(trigrams), Count(quadgrams)))
  {
    PhraseScoresRanked(bigrams, 2);
    PhraseScoresRanked(trigrams, 3);
    PhraseScoresRanked(quadgrams, 4);
  }

  /** Every n-gram maximum is 1 or at least its weight, so `maxScore` is at least 1. */
  lemma MaxScoreAtLeastOne(rk: Ranking)
    requires WellRanked(rk)
    ensures MaxScore(rk) >= 1.0
  {
    assert TopScore(rk.quadgrams, 2.5) >= 1.0;
  }

  /**
   * `Math.ceil(((score * weight) / maxScore) * 5)`: at most 5 when the
   * weighted score does not exceed `maxScore`, at least 1 when it is
   * positive.
   */
  function Relevance(score: real, weight: real, maxScore: real): (r: int)
    requires maxScore > 0.0
    ensures score * weight <= maxScore ==> r <= 5
    ensures score * weight > 0.0 ==> r >= 1
  {
    var a := score * weight;
    var x := a / maxScore * 5.0;
    assert a <= maxScore ==> x <= 5.0 by {
      if a <= maxScore {
        DivAtMostOne(a, maxScore);
      }
    }
    assert a > 0.0 ==> x > 0.0 by {
      if a > 0.0 {
        DivPositive(a, maxScore);
      }
    }
    Ceil(x)
  }

  /** `.map(([term, score]) => ({ text: term, relevance: ... }))`. */
  function Scale(items: seq<(String, real)>, weight: real, maxScore: real): (r: seq<Element>)
    requires maxScore > 0.0
    ensures |r| == |items|
    ensures forall q :: 0 <= q < |r| ==> r[q] == Element(items[q].0, Relevance(items[q].1, weight, maxScore))
  {
    seq(|items|, q requires 0 <= q < |items| => Element(items[q].0, Relevance(items[q].1, weight, maxScore)))
  }

  lemma DivAtMostOne(a: real, m: real)
    requires m > 0.0 && a <= m
    ensures a / m <= 1.0
  {
  }

  lemma DivPositive(a: real, m: real)
    requires m > 0.0 && a > 0.0
    ensures a / m > 0.0
  {
  }

  /** `s.slice(from, to)`. */
  function Slice<T>(s: seq<T>, from: nat, to: nat): (r: seq<T>)
    ensures |r| <= to - from || |r| == 0
    ensures |r| == 0 || from + |r| <= |s|
    ensures forall q :: 0 <= q < |r| ==> r[q] == s[from + q]
  {
    var b := Min(from, |s|);
    var e := Max(b, Min(to, |s|));
    s[b..e]
  }

  /** The themes before their final sort: quadgrams, trigrams, bigrams, then single terms. */
  function ThemeCandidates(rk: Ranking): (r: seq<Element>)
    requires MaxScore(rk) > 0.0
    ensures |r| <= 15
  {
    var m := MaxScore(rk);
    Scale(Slice(rk.quadgrams, 0, 3), 2.5, m) + Scale(Slice(rk.trigrams, 0, 4), 2.0, m)
    + Scale(Slice(rk.bigrams, 0, 5), 1.5, m) + Scale(Slice(rk.single, 0, 3), 1.0, m)
  }

  /** The themes: at most 15, a permutation of the candidates by non-increasing relevance. */
  function Themes(rk: Ranking): (r: seq<Element>)
    requires MaxScore(rk) > 0.0
    ensures |r| <= 15
    ensures SortedBy(r, RelevanceKey)
    ensures multiset(r) == multiset(ThemeCandidates(rk))
  {
    StableSort(ThemeCandidates(rk), RelevanceKey)
  }

  /** `singleTermScores.slice(3, 12)` with their relevance. */
  function TermElements(rk: Ranking): (r: seq<Element>)
    requires MaxScore(rk) > 0.0
    ensures |r| <= 9
  {
    Scale(Slice(rk.single, 3, 12), 1.0, MaxScore(rk))
  }

  /**
   * A scaled slice of a list sorted by descending score is at most 5 when
   * the list's weighted first score does not exceed `m`: no entry outscores
   * the first one.
   */
  lemma ScaledSliceAtMostFive(s: seq<(String, real)>, from: nat, to: nat, weight: real, m: real)
    requires SortedBy(s, ScoreKey) && weight > 0.0 && m > 0.0 && TopScore(s, weight) <= m
    ensures forall e :: e in Scale(Slice(s, from, to), weight, m) ==> e.relevance <= 5
  {
    var r := Scale(Slice(s, from, to), weight, m);
    forall e | e in r ensures e.relevance <= 5 {
      var q :| 0 <= q < |r| && r[q] == e;
      ScaledEntryAtMostFive(s, from, to, weight, m, q);
    }
  }

  lemma ScaledEntryAtMostFive(s: seq<(String, real)>, from: nat, to: nat, weight: real, m: real, q: nat)
    requires SortedBy(s, ScoreKey) && weight > 0.0 && m > 0.0 && TopScore(s, weight) <= m
    requires q < |Slice(s, from, to)|
    ensures Scale(Slice(s, from, to), weight, m)[q].relevance <= 5
  {
    var items := Slice(s, from, to);
    SliceBelowFirst(s, from, to);
    WeightedBelow(items[q].1, s[0].1, weight, m);
    var relevance := Relevance(items[q].1, weight, m);
    assert relevance <= 5;
  }

  /** No entry of a slice of a list sorted by descending score outscores the list's first entry. */
  lemma SliceBelowFirst(s: seq<(String, real)>, from: nat, to: nat)
    requires SortedBy(s, ScoreKey)
    ensures |Slice(s, from, to)| > 0 ==> |s| > 0
    ensures forall q :: 0 <= q < |Slice(s, from, to)| ==> Slice(s, from, to)[q].1 <= s[0].1
  {
    var items := Slice(s, from, to);
    forall q | 0 <= q < |items| ensures items[q].1 <= s[0].1 {
      assert items[q] == s[from + q];
      if from + q > 0 {
        assert ScoreKey(s[0]) <= ScoreKey(s[from + q]);
      }
    }
  }

  lemma WeightedBelow(a: real, b: real, w: real, m: real)
    requires a <= b && w > 0.0 && b * w <= m
    ensures a * w <= m
  {
  }

  /**
   * No theme and no term is scored above 5: every list is sorted, so no
   * entry outscores its list's first entry, and `maxScore` bounds every
   * weighted first entry.
   */
  lemma {:induction false} RelevanceAtMostFive(rk: Ranking)
    requires WellRanked(rk)
    ensures MaxScore(rk) > 0.0
    ensures forall e :: e in Themes(rk) ==> e.relevance <= 5
    ensures forall e :: e in TermElements(rk) ==> e.relevance <= 5
  {
    MaxScoreAtLeastOne(rk);
    var m := MaxScore(rk);
    ScaledSliceAtMostFive(rk.quadgrams, 0, 3, 2.5, m);
    ScaledSliceAtMostFive(rk.trigrams, 0, 4, 2.0, m);
    ScaledSliceAtMostFive(rk.bigrams, 0, 5, 1.5, m);
    ScaledSliceAtMostFive(rk.single, 0, 3, 1.0, m);
    ScaledSliceAtMostFive(rk.single, 3, 12, 1.0, m);
    var cands := ThemeCandidates(rk);
    assert forall e :: e in cands ==> e.relevance <= 5;
    forall e | e in Themes(rk) ensures e.relevance <= 5 {
      assert e in multiset(Themes(rk));
      assert e in multiset(cands);
    }
  }

  // ---------------------------------------------------------------------
  // extractKeyElements

  /** The result object of `extractKeyElements`. */
  datatype KeyElementsResult = KeyElementsResult(
    themes: seq<Element>,
    entities: seq<Element>,
    categories: Buckets,
    terms: seq<Element>,
    keyPoints: seq<String>)

  /** The number of key sentences `extractKeyElements` asks for. */
  const MaxKeyPoints: nat := 5

  /** The ranking of a tagged text; `ln` stands for `Math.log`. */
  function TextRanking(tagged: seq<TaggedSentence>, ln: real -> real): (rk: Ranking)
    ensures WellRanked(rk)
  {
    var tfidf := TfIdf(Count(Terms(tagged)), Count(DocTerms(tagged)), |tagged|, ln);
    RankingOfWellRanked(tfidf, Phrases(Windows(tagged, 2)), Phrases(Windows(tagged, 3)), Phrases(Windows(tagged, 4)));
    RankingOf(tfidf, Count(Phrases(Windows(tagged, 2))), Count(Phrases(Windows(tagged, 3))), Count(Phrases(Windows(tagged, 4))))
  }

  /** What `extractKeyElements(text)` returns, step by step. */
  function KeyElementsOf(text: String, ln: real -> real): (r: KeyElementsResult)
    ensures |r.themes| <= 15 && SortedBy(r.themes, RelevanceKey)
    ensures |r.terms| <= 9 && |r.keyPoints| <= MaxKeyPoints
  {
    var tagged := TaggedSentences(text);
    var rk := TextRanking(tagged, ln);
    MaxScoreAtLeastOne(rk);
    var themes := Themes(rk);
    var entities := ScoredEntities(Count(EntityOccurrences(tagged)));
    KeyElementsResult(
      themes,
      entities,
      Categorized(themes + entities),
      TermElements(rk),
      KeyPoints(text, Texts(themes + entities), MaxKeyPoints))
  }

  /**
   * The shape of the result: at most 15 themes by non-increasing relevance,
   * at most 10 entities with relevance between 3 and 5, at most 9 terms,
   * every theme and term at most 5, each theme and entity in the bucket of
   * its category, and between one and five key sentences when the text has
   * a sentence.
   */
  lemma KeyElementsShape(text: String, ln: real -> real)
    ensures var r := KeyElementsOf(text, ln);
      |r.themes| <= 15 && SortedBy(r.themes, RelevanceKey)
      && (forall e :: e in r.themes ==> e.relevance <= 5)
      && |r.entities| <= 10 && SortedBy(r.entities, RelevanceKey)
      && (forall q :: 0 <= q < |r.entities| ==> 3 <= r.entities[q].relevance <= 5)
      && |r.terms| <= 9 && (forall e :: e in r.terms ==> e.relevance <= 5)
      && (forall name :: Bucket(r.categories, name) == Members(r.themes + r.entities, name))
      && Total(r.categories) == |r.themes| + |r.entities|
      && |r.keyPoints| <= MaxKeyPoints
      && (SentenceMatches(text) != [] ==> r.keyPoints != [])
  {
    var tagged := TaggedSentences(text);
    var rk := TextRanking(tagged, ln);
    RelevanceAtMostFive(rk);
    ScoredEntitiesShape(EntityOccurrences(tagged));
    var r := KeyElementsOf(text, ln);
    CategorizedByCategory(r.themes + r.entities);
  }

  /**
   * `extractKeyElements(text)`: tags the text, counts terms and n-grams,
   * scores themes, terms and entities, categorises them and picks the key
   * sentences.
   */
  method ExtractKeyElements(text: String, ln: real -> real) returns (r: KeyElementsResult)
    ensures r == KeyElementsOf(text, ln)
  {
    var tagged := TagPartsOfSpeech(text);
    var termFrequency, documentFrequency := TermCounts(tagged);
    var tfidfScores := TfIdf(termFrequency, documentFrequency, |tagged|, ln);
    var bigrams := ExtractQualityNgrams(tagged, 2);
    var trigrams := ExtractQualityNgrams(tagged, 3);
    var quadgrams := ExtractQualityNgrams(tagged, 4);
    var rk := RankingOf(tfidfScores, bigrams, trigrams, quadgrams);
    assert rk == TextRanking(tagged, ln);
    MaxScoreAtLeastOne(rk);
    var themes := Themes(rk);
    var entityCounts := CollectEntityCounts(tagged);
    var entities := ScoredEntities(entityCounts);
    var categorized := CategorizeElements(themes, entities);
    var keyTerms := Texts(themes + entities);
    var keyPoints := KeyPoints(text, keyTerms, MaxKeyPoints);
    r := KeyElementsResult(themes, entities, categorized, TermElements(rk), keyPoints);
  }
}
