/**
 * The embedding summariser (js/models/ml-summarizer.js). Its module state
 * (the loaded model, the id it was loaded for and the in-flight flag) is the
 * class `Summarizer`. Loading a model, embedding the sentences and the
 * cosine similarity of two embeddings are outside the model: each call is
 * handed what they produced, as an outcome value or as the function
 * `pairSim`, whose `None` stands for a similarity computation that threw.
 */
module MLSummarizer {
  import opened Wrappers
  import opened Text
  import opened Sorting
  import opened TextRank
  import opened ModelRegistry
  import TextSummarizer
  import TextRewriter

  /** A loaded model, known only by identity. */
  type Handle = nat

  /** How `modelInfo.loadFunction()` settled: with a value (possibly `null`), or by throwing. */
  datatype LoadOutcome = Resolved(model: Option<Handle>) | Rejected

  /** How embedding the sentences went: it threw with a message, or gave a list of `count` vectors. */
  datatype Embedding = EmbedError(message: String) | Vectors(count: nat)

  /** A returned summary, or the message of the error thrown. */
  datatype Outcome = Ok(summary: String) | Failed(message: String)

  /** The ids, besides `use`, that take the generic embedding path. */
  const GenericEmbedders: seq<String> := ["mobilebert", "tinybert", "bert", "gpt2", "bart", "t5"]

  /** The similarity entry for a pair of distinct sentences: the cosine, or 0.1 when it threw. */
  function PairWeight(v: Option<real>): real {
    match v
    case Some(x) => x
    case None => 0.1
  }

  function Entry(pairSim: (nat, nat) -> Option<real>, i: nat, j: nat): real {
    if i == j then 1.0 else PairWeight(pairSim(i, j))
  }

  /** The `n` by `n` similarity matrix, row `i` holding sentence `i`'s similarities. */
  function SimilarityMatrix(n: nat, pairSim: (nat, nat) -> Option<real>): (m: seq<seq<real>>)
    ensures IsSquare(m, n)
  {
    seq(n, i requires 0 <= i < n => seq(n, j requires 0 <= j < n => Entry(pairSim, i, j)))
  }

  /** The ranking scores of the `n` sentences. */
  function MLScores(n: nat, pairSim: (nat, nat) -> Option<real>): (r: seq<real>)
    ensures |r| == n
  {
    Rank(SimilarityMatrix(n, pairSim), n, Iterations)
  }

  /** The indices of the `k` best-ranked of `n` sentences, in increasing order. */
  function MLChosen(n: nat, pairSim: (nat, nat) -> Option<real>, k: nat): (r: seq<nat>)
    ensures |r| == Min(k, n)
    ensures StrictlyIncreasing(r)
    ensures forall q :: 0 <= q < |r| ==> r[q] < n
  {
    var r := TopInSourceOrder(Range(n), ScoreAt(MLScores(n, pairSim)), k);
    forall q | 0 <= q < |r| ensures r[q] < n {
      assert r[q] in r;
    }
    r
  }

  /** The summary of more than `k` sentences: the chosen ones, in their original order, space-joined. */
  function MLSummary(sentences: seq<String>, pairSim: (nat, nat) -> Option<real>, k: nat): String
  {
    Join(Select(sentences, MLChosen(|sentences|, pairSim, k)), " ")
  }

  /** Step 4: the matrix is filled row by row, each row left to right. */
  method BuildMatrix(n: nat, pairSim: (nat, nat) -> Option<real>) returns (m: seq<seq<real>>)
    ensures IsSquare(m, n)
    ensures forall i :: 0 <= i < n ==> m[i][i] == 1.0
    ensures forall i, j :: 0 <= i < n && 0 <= j < n && i != j ==> m[i][j] == PairWeight(pairSim(i, j))
    ensures m == SimilarityMatrix(n, pairSim)
  {
    m := [];
    var i := 0;
    while i < n
      invariant 0 <= i <= n && |m| == i
      invariant forall a :: 0 <= a < i ==> m[a] == SimilarityMatrix(n, pairSim)[a]
    {
      var row: seq<real> := [];
      var j := 0;
      while j < n
        invariant 0 <= j <= n && |row| == j
        invariant forall b :: 0 <= b < j ==> row[b] == Entry(pairSim, i, b)
      {
        if i == j {
          row := row + [1.0];
        } else {
          match pairSim(i, j)
          case Some(similarity) =>
            row := row + [similarity];
          case None =>
            row := row + [0.1];
        }
        j := j + 1;
      }
      m := m + [row];
      i := i + 1;
    }
  }

  /** One pass of the inner loops: every new score computed from the previous list `scores`. */
  method MLRound(m: seq<seq<real>>, scores: seq<real>) returns (next: seq<real>)
    requires IsSquare(m, |scores|)
    ensures next == Step(m, scores)
  {
    var n := |scores|;
    var newScores := new real[n](_ => 0.0);
    var i := 0;
    while i < n
      invariant 0 <= i <= n
      invariant forall a :: 0 <= a < i ==> newScores[a] == Step(m, scores)[a]
      invariant forall a :: i <= a < n ==> newScores[a] == 0.0
    {
      var j := 0;
      while j < n
        invariant 0 <= j <= n
        invariant newScores[i] == Inflow(m, scores, i, j)
        invariant forall a :: 0 <= a < i ==> newScores[a] == Step(m, scores)[a]
        invariant forall a :: i < a < n ==> newScores[a] == 0.0
      {
        InflowNext(m, scores, i, j);
        if i != j {
          var weight := m[j][i];
          newScores[i] := newScores[i] + weight * scores[j];
        }
        j := j + 1;
      }
      newScores[i] := (1.0 - Damping) + Damping * newScores[i];
      i := i + 1;
    }
    next := newScores[..];
  }

  /** Step 5: ten rounds from all ones, each replacing the score list by the new one. */
  method MLRank(m: seq<seq<real>>, n: nat) returns (scores: seq<real>)
    requires IsSquare(m, n)
    ensures scores == Rank(m, n, Iterations)
  {
    scores := Fill(n, 1.0);
    var iter := 0;
    while iter < Iterations
      invariant 0 <= iter <= Iterations
      invariant scores == Rank(m, n, iter)
    {
      scores := MLRound(m, scores);
      iter := iter + 1;
    }
  }

  /** The 1.0 self-similarities never reach a score: any diagonal ranks alike. */
  lemma {:induction false} SelfSimilarityIgnored(n: nat, pairSim: (nat, nat) -> Option<real>, m: seq<seq<real>>)
    requires IsSquare(m, n)
    requires forall i, j :: 0 <= i < n && 0 <= j < n && i != j ==> m[i][j] == PairWeight(pairSim(i, j))
    ensures MLScores(n, pairSim) == Rank(m, n, Iterations)
  {
    RankIgnoresDiagonal(SimilarityMatrix(n, pairSim), m, n, Iterations);
  }

  /** When no similarity is negative, every score ends at 0.15 or more. */
  lemma MLScoresFloor(n: nat, pairSim: (nat, nat) -> Option<real>)
    requires forall i, j :: 0 <= i < n && 0 <= j < n && i != j ==> PairWeight(pairSim(i, j)) >= 0.0
    ensures forall i :: 0 <= i < n ==> MLScores(n, pairSim)[i] >= 0.15
  {
    var m := SimilarityMatrix(n, pairSim);
    assert NonNegativeTable(m) by {
      forall j | 0 <= j < n ensures NonNegative(m[j]) {
        forall i | 0 <= i < n ensures m[j][i] >= 0.0 {
          assert m[j][i] == Entry(pairSim, j, i);
        }
      }
    }
    RankFloor(m, n, Iterations);
  }

  /** Steps 4 to 6 of `summarize`: build the matrix, rank, keep the best sentences in their order. */
  method RankAndSelect(sentences: seq<String>, pairSim: (nat, nat) -> Option<real>, numSentences: nat)
    returns (summary: String)
    ensures summary == MLSummary(sentences, pairSim, numSentences)
  {
    var n := |sentences|;
    var matrix := BuildMatrix(n, pairSim);
    var scores := MLRank(matrix, n);
    var chosen := TopInSourceOrder(Range(n), ScoreAt(scores), numSentences);
    assert chosen == MLChosen(n, pairSim, numSentences);
    var top := Select(sentences, chosen);
    summary := Join(top, " ");
  }

  const PlaceholderMessage: String := "Please select a summarization model first"

  function LoadFailedMessage(name: String): (r: String) {
    "Failed to load the " + name + " model. Try another model or switch to local processing."
  }

  function EmbedFailedMessage(name: String, cause: String): (r: String) {
    "Error processing text with " + name + ": " + cause
  }

  /** The message thrown inside the embedding step, if any. */
  function EmbeddingError(modelId: String, name: String, embedding: Embedding): (r: Option<String>)
    ensures r.None? <==> (modelId == "use" || modelId in GenericEmbedders) && embedding.Vectors? && embedding.count > 0
  {
    if modelId != "use" && modelId !in GenericEmbedders then Some("Embedding method not implemented for model: " + name)
    else match embedding
      case EmbedError(message) => Some(message)
      case Vectors(count) => if count == 0 then Some("Failed to generate sentence embeddings") else None
  }

  class Summarizer {
    var currentModel: Option<Handle>
    var currentModelId: Option<String>
    var isLoading: bool

    constructor()
      ensures currentModel == None && currentModelId == None && !isLoading
    {
      currentModel := None;
      currentModelId := None;
      isLoading := false;
    }

    /** The model for `modelId` is the one held. */
    predicate Holds(modelId: String)
      reads this
    {
      currentModel.Some? && currentModelId == Some(modelId)
    }

    /**
     * `loadModel(modelId)`: the held model when it is the one asked for;
     * `null` while another load is in flight; otherwise the result of the
     * load, which on success is held for `modelId`. The in-flight flag is
     * clear again afterwards.
     */
    method LoadModel(modelId: String, outcome: LoadOutcome) returns (r: Option<Handle>)
      modifies this
      ensures old(Holds(modelId)) ==> r == old(currentModel) && r.Some? && unchanged(this)
      ensures !old(Holds(modelId)) && old(isLoading) ==> r == None && unchanged(this)
      ensures !old(Holds(modelId)) && !old(isLoading) ==> !isLoading && match outcome
        case Resolved(model) => r == model && currentModel == model && currentModelId == Some(modelId)
        case Rejected => r == None && currentModel == old(currentModel) && currentModelId == old(currentModelId)
    {
      if currentModel.Some? && currentModelId == Some(modelId) {
        return currentModel;
      }
      if isLoading {
        return None;
      }
      isLoading := true;
      match outcome {
        case Resolved(model) =>
          currentModel := model;
          currentModelId := Some(modelId);
          r := currentModel;
        case Rejected =>
          r := None;
      }
      isLoading := false;
    }

    /**
     * Steps 2 to 6 of `summarize`, for an ML model named `name` and more
     * sentences than requested: load the model unless it is held, embed,
     * rank and select.
     */
    method SummarizeWithModel(sentences: seq<String>, modelId: String, name: String, numSentences: nat,
                              load: LoadOutcome, embedding: Embedding, pairSim: (nat, nat) -> Option<real>)
      returns (r: Outcome)
      modifies this
      ensures
        var loaded := old(Holds(modelId)) || (!old(isLoading) && load.Resolved? && load.model.Some?);
        (!loaded ==> r == Failed(LoadFailedMessage(name)) && currentModel == None)
        && (loaded && EmbeddingError(modelId, name, embedding).Some? ==>
              r == Failed(EmbedFailedMessage(name, EmbeddingError(modelId, name, embedding).value)))
        && (loaded && EmbeddingError(modelId, name, embedding).None? ==>
              r == Ok(MLSummary(sentences, pairSim, numSentences)))
        && (loaded ==> Holds(modelId))
      ensures isLoading == old(isLoading)
        && (old(Holds(modelId)) ==> currentModel == old(currentModel) && currentModelId == old(currentModelId))
        && (!old(Holds(modelId)) && (old(isLoading) || load.Rejected?) ==>
              currentModel == None && currentModelId == old(currentModelId))
        && (!old(Holds(modelId)) && !old(isLoading) && load.Resolved? ==>
              currentModel == load.model && currentModelId == Some(modelId))
    {
      // Step 2
      if !(currentModel.Some? && currentModelId == Some(modelId)) {
        var model := LoadModel(modelId, load);
        currentModel := model;
        if currentModel.None? {
          return Failed(LoadFailedMessage(name));
        }
      }
      // Step 3
      var error := EmbeddingError(modelId, name, embedding);
      if error.Some? {
        return Failed(EmbedFailedMessage(name, error.value));
      }
      var summary := RankAndSelect(sentences, pairSim, numSentences);
      r := Ok(summary);
    }

    /**
     * `summarize(text, modelId, numSentences)`. The placeholder is refused;
     * a model without ML hands over to the statistical summariser and resolves
     * to what it returns, the rewritten summary included; a text
     * with no more sentences than requested comes back whole; otherwise the
     * model is loaded if it is not the one held (a failed load is stored and
     * reported), the sentences are embedded (ids outside the known list and
     * empty or failed embeddings are reported), and the `numSentences`
     * best-ranked sentences are returned in their original order.
     */
    method Summarize(text: String, modelId: String, numSentences: nat, ln: nat -> real,
                     load: LoadOutcome, embedding: Embedding, pairSim: (nat, nat) -> Option<real>)
      returns (r: Outcome)
      requires TextSummarizer.LogPositive(ln)
      modifies this
      ensures GetModel(modelId).isPlaceholder ==> r == Failed(PlaceholderMessage) && unchanged(this)
      ensures !GetModel(modelId).isPlaceholder && !GetModel(modelId).usesML ==>
        r.Ok? && unchanged(this)
        && (|TextSummarizer.SplitIntoSentences(text)| <= numSentences ==> r.summary == text)
        && (|TextSummarizer.SplitIntoSentences(text)| > numSentences ==>
              r.summary == TextRewriter.TransformSummary(TextSummarizer.Extractive(text, numSentences, ln)))
      ensures !GetModel(modelId).isPlaceholder && GetModel(modelId).usesML && |TextSummarizer.SplitIntoSentences(text)| <= numSentences ==>
        r == Ok(text) && unchanged(this)
      ensures !GetModel(modelId).isPlaceholder && GetModel(modelId).usesML && |TextSummarizer.SplitIntoSentences(text)| > numSentences ==>
        var loaded := old(Holds(modelId)) || (!old(isLoading) && load.Resolved? && load.model.Some?);
        var name := GetModel(modelId).name;
        (!loaded ==> r == Failed(LoadFailedMessage(name)) && currentModel == None)
        && (loaded && EmbeddingError(modelId, name, embedding).Some? ==>
              r == Failed(EmbedFailedMessage(name, EmbeddingError(modelId, name, embedding).value)))
        && (loaded && EmbeddingError(modelId, name, embedding).None? ==>
              r == Ok(MLSummary(TextSummarizer.SplitIntoSentences(text), pairSim, numSentences)))
        && (loaded ==> Holds(modelId))
      ensures !GetModel(modelId).isPlaceholder && GetModel(modelId).usesML && |TextSummarizer.SplitIntoSentences(text)| > numSentences ==>
        isLoading == old(isLoading)
        && (old(Holds(modelId)) ==> currentModel == old(currentModel) && currentModelId == old(currentModelId))
        && (!old(Holds(modelId)) && (old(isLoading) || load.Rejected?) ==>
              currentModel == None && currentModelId == old(currentModelId))
        && (!old(Holds(modelId)) && !old(isLoading) && load.Resolved? ==>
              currentModel == load.model && currentModelId == Some(modelId))
    {
      var modelInfo := GetModel(modelId);
      if modelInfo.isPlaceholder {
        return Failed(PlaceholderMessage);
      }
      if !modelInfo.usesML {
        // An async function resolves to the value of a returned Promise.
        var summary := TextSummarizer.Summarize(text, numSentences, ln);
        return Ok(summary.value);
      }
      // Step 1
      var sentences := TextSummarizer.SplitIntoSentences(text);
      if |sentences| <= numSentences {
        return Ok(text);
      }
      r := SummarizeWithModel(sentences, modelId, modelInfo.name, numSentences, load, embedding, pairSim);
    }
  }
}
