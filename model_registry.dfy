/**
 * The model registry (js/models/model-registry.js): a constant table of the
 * summarisation models, a lookup that falls back to the statistical
 * processor, and the listing of every entry with its key.
 */
module ModelRegistry {
  import opened Wrappers
  import opened Text
  import opened Tally

  /** The metadata of one model (the display prose and the loader are not modelled). */
  datatype ModelInfo = ModelInfo(
    name: String,
    size: String,
    sizeClass: String,
    speed: String,
    speedClass: String,
    quality: String,
    memory: String,
    usesML: bool,
    tier: String,
    isPlaceholder: bool)

  /** A `getAllModels` record: the key as `id`, then the entry's fields. */
  datatype ModelRecord = ModelRecord(id: String, info: ModelInfo)

  const LocalModel: ModelInfo :=
    ModelInfo("Statistical Processor", "0MB", "xs", "Very Fast", "fast", "Basic", "<50MB", false, "standard", false)

  const ModelCount: nat := 9

  /** The `models` object, in key order. */
  function Models(): seq<(String, ModelInfo)>
  {
    seq(ModelCount, Entry)
  }

  /** The `k`-th entry of the `models` object (the last one for any later index). */
  function Entry(k: int): (String, ModelInfo)
  {
    match k
    case 0 => ("gpt2", ModelInfo("GPT-2 Small", "548MB", "xxl", "Very Slow", "veryslow", "Excellent", "1.5GB+", true, "professional", false))
    case 1 => ("bart", ModelInfo("BART Large", "432MB", "xl", "Slow", "slow", "Excellent", "1GB+", true, "professional", false))
    case 2 => ("t5", ModelInfo("T5 Base", "242MB", "xl", "Medium-Slow", "slow", "Very High", "800MB+", true, "premium", false))
    case 3 => ("bert", ModelInfo("BERT Base", "109MB", "lg", "Medium", "medium", "High", "500MB+", true, "premium", false))
    case 4 => ("use", ModelInfo("Universal Sentence Encoder", "33MB", "lg", "Medium", "medium", "High", "400MB+", true, "standard", false))
    case 5 => ("mobilebert", ModelInfo("MobileBERT", "21MB", "md", "Medium-Fast", "medium", "Good", "250MB+", true, "standard", false))
    case 6 => ("tinybert", ModelInfo("TinyBERT", "12MB", "sm", "Fast", "fast", "Good", "150MB+", true, "standard", false))
    case 7 => ("local", LocalModel)
    case _ => ("placeholder", ModelInfo("Select a model", "-", "xs", "-", "medium", "-", "-", false, "standard", true))
  }

  /** The first entry under `id`, if any. */
  function Find(table: seq<(String, ModelInfo)>, id: String): (r: Option<ModelInfo>)
    ensures r.None? <==> id !in Keys(table)
    ensures r.Some? ==> exists i :: 0 <= i < |table| && table[i] == (id, r.value)
  {
    if table == [] then None
    else if table[0].0 == id then Some(table[0].1)
    else
      var r := Find(table[1..], id);
      assert r.Some? ==> exists i :: 0 <= i < |table| && table[i] == (id, r.value) by {
        if r.Some? {
          var i :| 0 <= i < |table[1..]| && table[1..][i] == (id, r.value);
          assert table[i + 1] == (id, r.value);
        }
      }
      r
  }

  /**
   * `getModel(id)`: the entry under `id`, or the statistical processor for
   * any id the table does not have.
   */
  function GetModel(id: String): (r: ModelInfo)
    ensures id in Keys(Models()) ==> exists i :: 0 <= i < |Models()| && Models()[i] == (id, r)
    ensures id !in Keys(Models()) ==> r == LocalModel
  {
    match Find(Models(), id)
    case Some(info) => info
    case None => LocalModel
  }

  /** `getAllModels()`: one record per key, in table order, each carrying its key as `id`. */
  function GetAllModels(): (r: seq<ModelRecord>)
    ensures |r| == |Models()|
    ensures forall i :: 0 <= i < |r| ==> r[i].id == Models()[i].0 && r[i].info == Models()[i].1
  {
    seq(|Models()|, i requires 0 <= i < |Models()| => ModelRecord(Models()[i].0, Models()[i].1))
  }

  /** Only the statistical processor and the placeholder run without ML. */
  lemma UsesMLExceptLocalAndPlaceholder()
    ensures forall i :: 0 <= i < |Models()| ==> (!Models()[i].1.usesML <==> Models()[i].0 in {"local", "placeholder"})
  {
    forall i | 0 <= i < |Models()|
      ensures !Models()[i].1.usesML <==> Models()[i].0 in {"local", "placeholder"}
    {
      assert Models()[i] == Entry(i);
    }
  }

  /** Only the placeholder is marked as one. */
  lemma OnlyPlaceholderIsPlaceholder()
    ensures forall i :: 0 <= i < |Models()| ==> (Models()[i].1.isPlaceholder <==> Models()[i].0 == "placeholder")
  {
    forall i | 0 <= i < |Models()|
      ensures Models()[i].1.isPlaceholder <==> Models()[i].0 == "placeholder"
    {
      assert Models()[i] == Entry(i);
    }
  }

  /** Every tier is professional, premium or standard. */
  lemma TiersAreKnown()
    ensures forall i :: 0 <= i < |Models()| ==> Models()[i].1.tier in {"professional", "premium", "standard"}
  {
    forall i | 0 <= i < |Models()|
      ensures Models()[i].1.tier in {"professional", "premium", "standard"}
    {
      assert Models()[i] == Entry(i);
    }
  }

  /** The keys are distinct, so a known id has exactly one entry. */
  lemma IdsDistinct()
    ensures forall p, q :: 0 <= p < q < |Models()| ==> Models()[p].0 != Models()[q].0
  {
    forall p, q | 0 <= p < q < |Models()|
      ensures Models()[p].0 != Models()[q].0
    {
      assert Models()[p] == Entry(p) && Models()[q] == Entry(q);
    }
  }

  /** An id that is not in the table selects the statistical path: no ML, not the placeholder. */
  lemma UnknownIdIsStatistical(id: String)
    requires id !in Keys(Models())
    ensures !GetModel(id).usesML && !GetModel(id).isPlaceholder
  {
  }

  /** Looking up a known key gives that key's entry. */
  lemma {:induction false} GetModelOfKnownId(i: nat)
    requires i < |Models()|
    ensures GetModel(Models()[i].0) == Models()[i].1
  {
    IdsDistinct();
    var id := Models()[i].0;
    assert id in Keys(Models()) by { assert Keys(Models())[i] == id; }
    var k :| 0 <= k < |Models()| && Models()[k] == (id, GetModel(id));
    assert k == i;
  }
}
