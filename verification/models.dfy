/**
 The static model table and lookup by model id.
 */
module Models {
  import opened Errors

  /** One supported model: its id, display label (`label` in `model.ts`), owning provider and the
      longest input it accepts. */
  datatype ModelConfig = ModelConfig(id: string, displayLabel: string, provider: string, maxCodeLength: int)

  /** The shipped table, in the order of `model.ts`. */
  const MODELS: seq<ModelConfig> := [
    ModelConfig("lmstudio-community/Meta-Llama-3-8B-Instruct-GGUF", "Llama 3 8B", "lmstudio", 8000),
    ModelConfig("lmstudio-community/gemma-2-9b-it-GGUF", "Gemma 2 9B", "lmstudio", 8000)
  ]

  /** Some entry of `table` has id `id`. */
  ghost predicate Listed(table: seq<ModelConfig>, id: string) {
    exists i :: 0 <= i < |table| && table[i].id == id
  }

  /** `table[i]` is the first entry whose id is `id`. */
  ghost predicate FirstMatchAt(table: seq<ModelConfig>, id: string, i: int) {
    0 <= i < |table| && table[i].id == id && forall j :: 0 <= j < i ==> table[j].id != id
  }

  /** No two entries share an id. */
  ghost predicate DistinctIds(table: seq<ModelConfig>) {
    forall i, j :: 0 <= i < j < |table| ==> table[i].id != table[j].id
  }

  /** A front-to-back search for the first entry with id `id`, failing with
      an unknown-model error when there is none. */
  function Find(table: seq<ModelConfig>, id: string): (r: Result<ModelConfig>)
    ensures r.Ok? <==> Listed(table, id)
    ensures r.Ok? ==> exists i :: FirstMatchAt(table, id, i) && table[i] == r.value
    ensures r.Err? ==> r.error == UnknownModel(id)
    decreases |table|
  {
    if table == [] then Err(UnknownModel(id))
    else if table[0].id == id then Ok(table[0])
    else
      var r := Find(table[1..], id);
      if r.Ok? then
        ghost var k :| FirstMatchAt(table[1..], id, k) && table[1..][k] == r.value;
        assert FirstMatchAt(table, id, k + 1);
        r
      else
        assert !Listed(table[1..], id);
        r
  }

  /** Looks `id` up in the shipped table. */
  function GetModelConfig(id: string): (r: Result<ModelConfig>)
    ensures r.Ok? <==> Listed(MODELS, id)
    ensures r.Ok? ==> r.value in MODELS && r.value.id == id
    ensures r.Ok? ==> exists i :: FirstMatchAt(MODELS, id, i) && MODELS[i] == r.value
    ensures r.Err? ==> r.error == UnknownModel(id)
  {
    Find(MODELS, id)
  }

  /** With distinct ids the search finds exactly the entry that has the id. */
  lemma FindDistinct(table: seq<ModelConfig>, i: int)
    requires DistinctIds(table)
    requires 0 <= i < |table|
    ensures Find(table, table[i].id) == Ok(table[i])
  {
    var r := Find(table, table[i].id);
    assert Listed(table, table[i].id);
    var k :| FirstMatchAt(table, table[i].id, k) && table[k] == r.value;
    assert k == i;
  }

  /** The shipped ids are pairwise distinct. */
  lemma ModelIdsDistinct()
    ensures DistinctIds(MODELS)
  {
  }

  /** Every shipped entry belongs to LM Studio and has a positive input limit. */
  lemma ShippedModelsWellFormed()
    ensures forall i :: 0 <= i < |MODELS| ==> MODELS[i].provider == "lmstudio" && MODELS[i].maxCodeLength > 0
  {
  }

  /** Every shipped entry is found by its own id, and is the entry found. */
  lemma GetModelConfigFindsEachEntry(i: int)
    requires 0 <= i < |MODELS|
    ensures GetModelConfig(MODELS[i].id) == Ok(MODELS[i])
  {
    ModelIdsDistinct();
    FindDistinct(MODELS, i);
  }
}
