/**
 * The summary generator (js/generators/summary-generator.js): it extracts the
 * key elements, produces the basic summary with the statistical or the ML
 * summariser as the model registry says, and derives an enhanced summary
 * from the two: for the abstractive demo models the basic summary with its
 * first themes appended, for every other model a re-selection of the
 * text's sentences scored by the themes and entities they mention.
 */
module SummaryGenerator {
  import opened Wrappers
  import opened Text
  import opened Sorting
  import opened ModelRegistry
  import TextSummarizer
  import MLSummarizer
  import opened KeyElements
  import opened Tally

  /** The models whose enhanced summary is the basic one with its themes appended. */
  const AbstractiveModels: seq<String> := ["gpt2", "bart", "t5"]

  /**
   * What `generateAllSummaries` resolves to. The statistical summariser's
   * value is stored without `await`, so the basic summary can be a Promise.
   */
  datatype Summaries = Summaries(keyElements: KeyElementsResult, basicSummary: TextSummarizer.Returned, enhancedSummary: String)

  /**
   * The TypeError the extractive branch raises when the basic summary is a
   * Promise: a Promise has no `includes`.
   */
  const IncludesTypeError: String := "basicSummary.includes is not a function"

  /** The promise of `generateAllSummaries`: fulfilled, or rejected with the summariser's message. */
  datatype Generation = Generated(summaries: Summaries) | Rejected(message: String)

  // ---------------------------------------------------------------------
  // The abstractive branch

  /** The themes named after the basic summary: the first five, in order. */
  function ThemesShown(themes: seq<Element>): (r: seq<String>)
    ensures |r| == Min(5, |themes|)
    ensures forall q :: 0 <= q < |r| ==> r[q] == themes[q].text
  {
    Texts(themes[..Min(5, |themes|)])
  }

  /** `${basicSummary} [Key themes: ${themesList}]`. */
  function WithThemes(basicSummary: String, themes: seq<Element>): (r: String)
    ensures |r| >= |basicSummary| + 15 && r[..|basicSummary|] == basicSummary
    ensures r[|basicSummary|..|basicSummary| + 14] == " [Key themes: "
    ensures r[|r| - 1] == ']'
  {
    basicSummary + " [Key themes: " + Join(ThemesShown(themes), ", ") + "]"
  }

  // ---------------------------------------------------------------------
  // The extractive branch

  /**
   * The enhanced score of sentence `i`: 2 for every theme and 1.5 for every
   * entity it mentions (ignoring case), 3 when its trimmed text occurs in the
   * basic summary, and 0.5 each for being among the first two and among the
   * last two sentences.
   */
  function EnhancedScore(sentences: seq<String>, i: nat, themes: seq<String>, entities: seq<String>, basicSummary: String): (r: real)
    requires i < |sentences|
    ensures r >= 0.0
    ensures r <= 2.0 * (|themes| as real) + 1.5 * (|entities| as real) + 4.0
    ensures Contains(basicSummary, Trim(sentences[i])) ==> r >= 3.0
    ensures (i < 2 || i >= |sentences| - 2) ==> r >= 0.5
    ensures r == 0.0 <==>
      (forall t :: t in themes ==> !ContainsIgnoreCase(sentences[i], t))
      && (forall t :: t in entities ==> !ContainsIgnoreCase(sentences[i], t))
      && !Contains(basicSummary, Trim(sentences[i]))
      && 2 <= i < |sentences| - 2
  {
    var sentence := sentences[i];
    2.0 * (CountContained(sentence, themes) as real)
    + 1.5 * (CountContained(sentence, entities) as real)
    + (if Contains(basicSummary, Trim(sentence)) then 3.0 else 0.0)
    + (if i < 2 then 0.5 else 0.0)
    + (if i >= |sentences| - 2 then 0.5 else 0.0)
  }

  function EnhancedScores(sentences: seq<String>, themes: seq<String>, entities: seq<String>, basicSummary: String): (r: seq<real>)
    ensures |r| == |sentences|
    ensures forall i :: 0 <= i < |sentences| ==> r[i] == EnhancedScore(sentences, i, themes, entities, basicSummary)
  {
    seq(|sentences|, i requires 0 <= i < |sentences| => EnhancedScore(sentences, i, themes, entities, basicSummary))
  }

  /**
   * The indices the enhanced summary keeps: every sentence is a candidate
   * (there is no positive-score filter); the `k` best-scored ones, equal
   * scores favouring the earlier sentence, in their original order.
   */
  function EnhancedChoice(sentences: seq<String>, themes: seq<String>, entities: seq<String>, basicSummary: String, k: nat): (r: seq<nat>)
    ensures |r| == Min(k, |sentences|)
    ensures StrictlyIncreasing(r)
    ensures forall q :: 0 <= q < |r| ==> r[q] < |sentences|
    ensures forall i :: i in r ==> i < |sentences|
    ensures forall i, j :: i in r && 0 <= j < |sentences| && j !in r ==>
      var si := EnhancedScore(sentences, i, themes, entities, basicSummary);
      var sj := EnhancedScore(sentences, j, themes, entities, basicSummary);
      si > sj || (si == sj && i < j)
  {
    var n := |sentences|;
    var scores := EnhancedScores(sentences, themes, entities, basicSummary);
    var r := TopInSourceOrder(Range(n), ScoreAt(scores), k);
    forall i | i in r ensures i < n {
      assert i in Range(n);
    }
    forall q | 0 <= q < |r| ensures r[q] < n {
      assert r[q] in r;
    }
    forall i, j | i in r && 0 <= j < n && j !in r
      ensures var si := EnhancedScore(sentences, i, themes, entities, basicSummary);
        var sj := EnhancedScore(sentences, j, themes, entities, basicSummary);
        si > sj || (si == sj && i < j)
    {
      assert i in Range(n) && j in Range(n);
      assert ScoreAt(scores)(i) == scores[i] && ScoreAt(scores)(j) == scores[j];
    }
    r
  }

  function TrimAll(parts: seq<String>): (r: seq<String>)
    ensures |r| == |parts|
    ensures forall q :: 0 <= q < |parts| ==> r[q] == Trim(parts[q])
  {
    seq(|parts|, q requires 0 <= q < |parts| => Trim(parts[q]))
  }

  /** `generateEnhancedSummary(text, basicSummary, keyElements, modelId, k)`. */
  function EnhancedSummary(text: String, basicSummary: String, keyElements: KeyElementsResult, modelId: String, k: nat): (r: String)
    ensures modelId in AbstractiveModels ==> |r| > |basicSummary| && r[..|basicSummary|] == basicSummary && r[|r| - 1] == ']'
  {
    if modelId in AbstractiveModels then WithThemes(basicSummary, keyElements.themes)
    else
      var sentences := SentenceMatches(text);
      var chosen := EnhancedChoice(sentences, Texts(keyElements.themes), Texts(keyElements.entities), basicSummary, k);
      Join(TrimAll(Select(sentences, chosen)), " ")
  }

  /**
   * For the other models the enhanced summary joins, with single spaces,
   * the trimmed texts of `min(k, n)` of the `n` sentence matches: listed in
   * their original order, and each kept one scores higher than every
   * dropped one or equal to it and earlier.
   */
  lemma ExtractiveEnhancedSummary(text: String, basicSummary: String, keyElements: KeyElementsResult, modelId: String, k: nat)
    requires modelId !in AbstractiveModels
    ensures var sentences := SentenceMatches(text);
      var themes := Texts(keyElements.themes);
      var entities := Texts(keyElements.entities);
      var chosen := EnhancedChoice(sentences, themes, entities, basicSummary, k);
      var parts := TrimAll(Select(sentences, chosen));
      EnhancedSummary(text, basicSummary, keyElements, modelId, k) == Join(parts, " ")
      && |parts| == Min(k, |sentences|)
      && StrictlyIncreasing(chosen)
      && (forall q :: 0 <= q < |parts| ==> parts[q] == Trim(sentences[chosen[q]]))
  {
  }

  /** The `q`-th of a strictly increasing list of naturals is at least `q`. */
  lemma {:induction false} AtLeastPosition(r: seq<nat>, q: nat)
    requires StrictlyIncreasing(r) && q < |r|
    ensures r[q] >= q
  {
    if q > 0 {
      AtLeastPosition(r, q - 1);
    }
  }

  /** ... and, when every element is below `n`, at most `n - (|r| - q)`. */
  lemma {:induction false} AtMostPosition(r: seq<nat>, n: nat, q: nat)
    requires StrictlyIncreasing(r) && q < |r|
    requires forall p :: 0 <= p < |r| ==> r[p] < n
    ensures r[q] + (|r| - q) <= n
    decreases |r| - q
  {
    if q + 1 < |r| {
      AtMostPosition(r, n, q + 1);
    }
  }

  /**
   * When at least as many sentences are asked for as there are, the
   * enhanced summary keeps every sentence, trimmed, in its original order.
   */
  lemma ExtractiveEnhancedKeepsAll(text: String, basicSummary: String, keyElements: KeyElementsResult, modelId: String, k: nat)
    requires modelId !in AbstractiveModels
    requires k >= |SentenceMatches(text)|
    ensures EnhancedSummary(text, basicSummary, keyElements, modelId, k) == Join(TrimAll(SentenceMatches(text)), " ")
  {
    var sentences := SentenceMatches(text);
    var n := |sentences|;
    var chosen := EnhancedChoice(sentences, Texts(keyElements.themes), Texts(keyElements.entities), basicSummary, k);
    forall q | 0 <= q < n ensures chosen[q] == q {
      AtLeastPosition(chosen, q);
      AtMostPosition(chosen, n, q);
    }
    assert Select(sentences, chosen) == sentences;
  }

  // ---------------------------------------------------------------------
  // generateAllSummaries

  /** The sentence count the enhanced summary is asked for: `Math.max(2, numSentences - 1)`. */
  function EnhancedCount(numSentences: nat): (r: nat)
    ensures r >= 2
    ensures numSentences >= 3 ==> r == numSentences - 1
    ensures numSentences < 3 ==> r == 2
  {
    Max(2, numSentences - 1)
  }

  /** How a Promise reads when it is interpolated into a template string. */
  const PromiseText: String := "[object Promise]"

  /**
   * `generateEnhancedSummary` on the value `generateAllSummaries` passes as
   * `basicSummary`: a string, or the statistical summariser's unawaited
   * Promise. A Promise is interpolated as "[object Promise]" in the
   * abstractive branch; in the extractive branch its missing `includes`
   * throws while the first sentence is scored. `None` is that TypeError.
   */
  function EnhancedOf(text: String, basicSummary: TextSummarizer.Returned, keyElements: KeyElementsResult, modelId: String, k: nat): (r: Option<String>)
    ensures basicSummary.Plain? ==> r == Some(EnhancedSummary(text, basicSummary.value, keyElements, modelId, k))
    ensures basicSummary.Promised? && modelId in AbstractiveModels ==> r == Some(WithThemes(PromiseText, keyElements.themes))
    ensures basicSummary.Promised? && modelId !in AbstractiveModels ==>
      (r.None? <==> SentenceMatches(text) != []) && (r.Some? ==> r.value == [])
  {
    match basicSummary
    case Plain(summary) => Some(EnhancedSummary(text, summary, keyElements, modelId, k))
    case Promised(_) =>
      if modelId in AbstractiveModels then Some(WithThemes(PromiseText, keyElements.themes))
      else if SentenceMatches(text) != [] then None
      else Some(Join(TrimAll([]), " "))
  }

  /** The abstractive models all use ML, so a model without ML never takes the abstractive branch. */
  lemma AbstractiveModelsUseML(modelId: String)
    ensures modelId in AbstractiveModels ==> GetModel(modelId).usesML
    ensures !GetModel(modelId).usesML ==> modelId !in AbstractiveModels
  {
    if modelId in AbstractiveModels {
      assert modelId == "gpt2" || modelId == "bart" || modelId == "t5";
    }
  }

  /** Step 2 of `generateAllSummaries`: the basic summary, or the ML summariser's rejection. */
  datatype BasicOutcome = Basic(summary: TextSummarizer.Returned) | Failure(message: String)

  /**
   * Step 2 of `generateAllSummaries`: the awaited ML summary when the
   * registry entry uses ML, otherwise the statistical summariser's value as
   * it is returned, a Promise when the text has more sentences than
   * requested.
   */
  method BasicSummary(summarizer: MLSummarizer.Summarizer, text: String, modelId: String, numSentences: nat,
                      simLn: nat -> real, load: MLSummarizer.LoadOutcome, embedding: MLSummarizer.Embedding,
                      pairSim: (nat, nat) -> Option<real>)
    returns (b: BasicOutcome)
    requires TextSummarizer.LogPositive(simLn)
    modifies summarizer
    ensures b.Basic? && b.summary.Promised? ==> !GetModel(modelId).usesML && modelId !in AbstractiveModels
    ensures !GetModel(modelId).usesML ==>
      b.Basic? && TextSummarizer.IsSummary(text, numSentences, simLn, b.summary) && unchanged(summarizer)
    ensures GetModel(modelId).usesML && |TextSummarizer.SplitIntoSentences(text)| <= numSentences ==>
      b == Basic(TextSummarizer.Plain(text)) && unchanged(summarizer)
    ensures GetModel(modelId).usesML && |TextSummarizer.SplitIntoSentences(text)| > numSentences ==>
      var loaded := old(summarizer.Holds(modelId))
        || (!old(summarizer.isLoading) && load.Resolved? && load.model.Some?);
      var name := GetModel(modelId).name;
      var error := MLSummarizer.EmbeddingError(modelId, name, embedding);
      (!loaded ==> b == Failure(MLSummarizer.LoadFailedMessage(name)))
      && (loaded && error.Some? ==> b == Failure(MLSummarizer.EmbedFailedMessage(name, error.value)))
      && (loaded && error.None? ==>
            b == Basic(TextSummarizer.Plain(MLSummarizer.MLSummary(TextSummarizer.SplitIntoSentences(text), pairSim, numSentences))))
    ensures GetModel(modelId).usesML && |TextSummarizer.SplitIntoSentences(text)| > numSentences ==>
      summarizer.isLoading == old(summarizer.isLoading)
      && (old(summarizer.Holds(modelId)) ==> summarizer.currentModel == old(summarizer.currentModel) && summarizer.currentModelId == old(summarizer.currentModelId))
      && (!old(summarizer.Holds(modelId)) && (old(summarizer.isLoading) || load.Rejected?) ==>
            summarizer.currentModel == None && summarizer.currentModelId == old(summarizer.currentModelId))
      && (!old(summarizer.Holds(modelId)) && !old(summarizer.isLoading) && load.Resolved? ==>
            summarizer.currentModel == load.model && summarizer.currentModelId == Some(modelId))
  {
    var modelInfo := GetModel(modelId);
    if modelInfo.usesML {
      UsesMLIsNotPlaceholder(modelId);
      var outcome := summarizer.Summarize(text, modelId, numSentences, simLn, load, embedding, pairSim);
      match outcome {
        case Failed(message) =>
          b := Failure(message);
        case Ok(summary) =>
          b := Basic(TextSummarizer.Plain(summary));
      }
    } else {
      AbstractiveModelsUseML(modelId);
      var summary := TextSummarizer.Summarize(text, numSentences, simLn);
      b := Basic(summary);
    }
  }

  /**
   * Steps 3 and 4 of `generateAllSummaries`: a rejection of step 2 rejects
   * the call; otherwise the enhanced summary is made from the basic one,
   * and its TypeError on a Promise rejects the call too.
   */
  method Assemble(text: String, keyElements: KeyElementsResult, basic: BasicOutcome, modelId: String, k: nat)
    returns (r: Generation)
    ensures basic.Failure? ==> r == Rejected(basic.message)
    ensures r.Generated? ==> basic.Basic? && r.summaries.keyElements == keyElements && r.summaries.basicSummary == basic.summary
    ensures basic.Basic? && basic.summary.Promised? && modelId in AbstractiveModels ==>
      r == Generated(Summaries(keyElements, basic.summary, WithThemes(PromiseText, keyElements.themes)))
    ensures basic.Basic? && basic.summary.Plain? ==>
      r == Generated(Summaries(keyElements, basic.summary, EnhancedSummary(text, basic.summary.value, keyElements, modelId, k)))
    ensures basic.Basic? && basic.summary.Promised? && modelId !in AbstractiveModels ==>
      (SentenceMatches(text) != [] ==> r == Rejected(IncludesTypeError))
      && (SentenceMatches(text) == [] ==> r == Generated(Summaries(keyElements, basic.summary, [])))
  {
    if basic.Failure? {
      return Rejected(basic.message);
    }
    var enhanced := EnhancedOf(text, basic.summary, keyElements, modelId, k);
    if enhanced.None? {
      return Rejected(IncludesTypeError);
    }
    r := Generated(Summaries(keyElements, basic.summary, enhanced.value));
  }

  /**
   * What `generateAllSummaries` settles to, given its key elements and
   * whether the ML model is `loaded` when it is asked for (it was held, or
   * no load was in flight and the loader produced a model):
   * - whenever it is fulfilled, with those key elements, and with the
   *   enhanced summary made from a basic summary that is a string;
   * - for a model without ML, with the text itself when it has no more
   *   sentences than requested; otherwise the statistical summariser's
   *   Promise reaches the enhanced summary, which rejects with a TypeError
   *   when the text has a sentence match and is "" when it has none;
   * - for an ML model, with the text itself when it has no more sentences
   *   than requested; otherwise rejected with the load failure or the
   *   embedding failure, or fulfilled with the ML summary.
   */
  ghost predicate Generates(text: String, keyElements: KeyElementsResult, modelId: String, numSentences: nat,
                            simLn: nat -> real, loaded: bool, embedding: MLSummarizer.Embedding,
                            pairSim: (nat, nat) -> Option<real>, r: Generation)
    requires TextSummarizer.LogPositive(simLn)
  {
    var sentences := TextSummarizer.SplitIntoSentences(text);
    var info := GetModel(modelId);
    var error := MLSummarizer.EmbeddingError(modelId, info.name, embedding);
    (r.Generated? ==> r.summaries.keyElements == keyElements)
    && (r.Generated? && r.summaries.basicSummary.Plain? ==>
          r.summaries.enhancedSummary
          == EnhancedSummary(text, r.summaries.basicSummary.value, keyElements, modelId, EnhancedCount(numSentences)))
    && (!info.usesML && |sentences| <= numSentences ==>
          r.Generated? && r.summaries.basicSummary == TextSummarizer.Plain(text))
    && (!info.usesML && |sentences| > numSentences && SentenceMatches(text) != [] ==>
          r == Rejected(IncludesTypeError))
    && (!info.usesML && |sentences| > numSentences && SentenceMatches(text) == [] ==>
          r.Generated? && TextSummarizer.IsSummary(text, numSentences, simLn, r.summaries.basicSummary)
          && r.summaries.enhancedSummary == [])
    && (info.usesML && |sentences| <= numSentences ==>
          r.Generated? && r.summaries.basicSummary == TextSummarizer.Plain(text))
    && (info.usesML && |sentences| > numSentences && !loaded ==>
          r == Rejected(MLSummarizer.LoadFailedMessage(info.name)))
    && (info.usesML && |sentences| > numSentences && loaded && error.Some? ==>
          r == Rejected(MLSummarizer.EmbedFailedMessage(info.name, error.value)))
    && (info.usesML && |sentences| > numSentences && loaded && error.None? ==>
          r.Generated?
          && r.summaries.basicSummary == TextSummarizer.Plain(MLSummarizer.MLSummary(sentences, pairSim, numSentences)))
  }

  /**
   * Steps 2 to 4 of `generateAllSummaries`, for the key elements of step 1:
   * the basic summary, then the enhanced summary made from the two.
   */
  method GenerateWith(summarizer: MLSummarizer.Summarizer, text: String, keyElements: KeyElementsResult, modelId: String,
                      numSentences: nat, simLn: nat -> real, load: MLSummarizer.LoadOutcome,
                      embedding: MLSummarizer.Embedding, pairSim: (nat, nat) -> Option<real>)
    returns (r: Generation)
    requires TextSummarizer.LogPositive(simLn)
    modifies summarizer
    ensures Generates(text, keyElements, modelId, numSentences, simLn,
                      old(summarizer.Holds(modelId)) || (!old(summarizer.isLoading) && load.Resolved? && load.model.Some?),
                      embedding, pairSim, r)
    ensures !GetModel(modelId).usesML || |TextSummarizer.SplitIntoSentences(text)| <= numSentences ==> unchanged(summarizer)
    ensures GetModel(modelId).usesML && |TextSummarizer.SplitIntoSentences(text)| > numSentences ==>
      summarizer.isLoading == old(summarizer.isLoading)
      && (old(summarizer.Holds(modelId)) ==> summarizer.currentModel == old(summarizer.currentModel) && summarizer.currentModelId == old(summarizer.currentModelId))
      && (!old(summarizer.Holds(modelId)) && (old(summarizer.isLoading) || load.Rejected?) ==>
            summarizer.currentModel == None && summarizer.currentModelId == old(summarizer.currentModelId))
      && (!old(summarizer.Holds(modelId)) && !old(summarizer.isLoading) && load.Resolved? ==>
            summarizer.currentModel == load.model && summarizer.currentModelId == Some(modelId))
  {
    // Step 2
    var basic := BasicSummary(summarizer, text, modelId, numSentences, simLn, load, embedding, pairSim);
    // Steps 3 and 4
    r := Assemble(text, keyElements, basic, modelId, EnhancedCount(numSentences));
  }

  /**
   * `generateAllSummaries(text, modelId, numSentences)`: the key elements
   * of the text, then the basic and the enhanced summary as `Generates`
   * states. `simLn` and `idfLn` stand for `Math.log` in the similarity and
   * in the IDF; `load`, `embedding` and `pairSim` are what the ML
   * summariser's model loader and embedding produce.
   */
  method GenerateAllSummaries(summarizer: MLSummarizer.Summarizer, text: String, modelId: String, numSentences: nat,
                              simLn: nat -> real, idfLn: real -> real,
                              load: MLSummarizer.LoadOutcome, embedding: MLSummarizer.Embedding,
                              pairSim: (nat, nat) -> Option<real>)
    returns (r: Generation)
    requires TextSummarizer.LogPositive(simLn)
    modifies summarizer
    ensures Generates(text, KeyElementsOf(text, idfLn), modelId, numSentences, simLn,
                      old(summarizer.Holds(modelId)) || (!old(summarizer.isLoading) && load.Resolved? && load.model.Some?),
                      embedding, pairSim, r)
    ensures !GetModel(modelId).usesML || |TextSummarizer.SplitIntoSentences(text)| <= numSentences ==> unchanged(summarizer)
    ensures GetModel(modelId).usesML && |TextSummarizer.SplitIntoSentences(text)| > numSentences ==>
      summarizer.isLoading == old(summarizer.isLoading)
      && (old(summarizer.Holds(modelId)) ==> summarizer.currentModel == old(summarizer.currentModel) && summarizer.currentModelId == old(summarizer.currentModelId))
      && (!old(summarizer.Holds(modelId)) && (old(summarizer.isLoading) || load.Rejected?) ==>
            summarizer.currentModel == None && summarizer.currentModelId == old(summarizer.currentModelId))
      && (!old(summarizer.Holds(modelId)) && !old(summarizer.isLoading) && load.Resolved? ==>
            summarizer.currentModel == load.model && summarizer.currentModelId == Some(modelId))
  {
    // Step 1
    var keyElements := ExtractKeyElements(text, idfLn);
    // Steps 2 to 4
    r := GenerateWith(summarizer, text, keyElements, modelId, numSentences, simLn, load, embedding, pairSim);
  }

  /** A model that uses ML is never the placeholder. */
  lemma UsesMLIsNotPlaceholder(modelId: String)
    requires GetModel(modelId).usesML
    ensures !GetModel(modelId).isPlaceholder
  {
    OnlyPlaceholderIsPlaceholder();
    UsesMLExceptLocalAndPlaceholder();
    if modelId !in Keys(Models()) {
      UnknownIdIsStatistical(modelId);
    }
  }
}
