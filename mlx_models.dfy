/** The model side of `whisper_bridge_mlx.py`: the UI-name to MLX-name
    mapping, the cache key, and `load_model` over the module-level
    single-entry `_model_cache`. */
module MlxModels {
  import opened Common

  /** `MODEL_MAPPING`, in insertion order. */
  const MlxMapping: seq<(string, string)> := [
    ("tiny", "tiny"),
    ("base", "base"),
    ("small", "small"),
    ("medium", "medium"),
    ("large", "large-v3"),
    ("large-v3", "large-v3"),
    ("large-v3-turbo", "large-v3"),
    ("turbo", "large-v3")
  ]

  const DefaultMlxModel := "base"

  /** The MLX model names the table can produce. */
  const MlxNames: set<string> := {"tiny", "base", "small", "medium", "large-v3"}

  /** `MODEL_MAPPING.get(model_name, "base")`. */
  function MlxModelFor(modelName: string): (mlx: string)
    ensures forall i :: 0 <= i < |MlxMapping| && MlxMapping[i].0 == modelName ==> mlx == MlxMapping[i].1
    ensures !HasKey(MlxMapping, modelName) ==> mlx == DefaultMlxModel
  {
    assert DistinctKeys(MlxMapping);
    if HasKey(MlxMapping, modelName) then
      var i :| 0 <= i < |MlxMapping| && MlxMapping[i].0 == modelName;
      GetDistinct(MlxMapping, modelName, DefaultMlxModel, i);
      Get(MlxMapping, modelName, DefaultMlxModel)
    else
      Get(MlxMapping, modelName, DefaultMlxModel)
  }

  /** Whatever the name, the result is one of five MLX models; both turbo
      names load large-v3, as the library has no turbo model. */
  lemma MlxModelRange(modelName: string)
    ensures MlxModelFor(modelName) in MlxNames
    ensures MlxModelFor("turbo") == "large-v3" && MlxModelFor("large-v3-turbo") == "large-v3"
  {
    if HasKey(MlxMapping, modelName) {
      var i :| 0 <= i < |MlxMapping| && MlxMapping[i].0 == modelName;
      assert MlxModelFor(modelName) == MlxMapping[i].1;
    }
    assert MlxMapping[6].0 == "large-v3-turbo" && MlxMapping[7].0 == "turbo";
  }

  const QuantSuffix := "_8bit"
  const FullSuffix := "_full"

  /** `f"{mlx_model}_{'8bit' if allow_quantization else 'full'}"`. */
  function CacheKey(mlxModel: string, allowQuantization: bool): (key: string)
    ensures |key| == |mlxModel| + 5 && key[..|mlxModel|] == mlxModel
    ensures key[|mlxModel|..] == if allowQuantization then QuantSuffix else FullSuffix
  {
    mlxModel + (if allowQuantization then QuantSuffix else FullSuffix)
  }

  /** Reads a cache key back: the model name and the quantisation flag. */
  function ParseCacheKey(key: string): Option<(string, bool)>
  {
    if |key| >= 5 && key[|key| - 5..] == QuantSuffix then Some((key[..|key| - 5], true))
    else if |key| >= 5 && key[|key| - 5..] == FullSuffix then Some((key[..|key| - 5], false))
    else None
  }

  /** Parsing inverts key construction, so distinct (model, flag) pairs
      never share a cache entry. */
  lemma {:induction false} CacheKeyRoundTrip(mlxModel: string, allowQuantization: bool)
    ensures ParseCacheKey(CacheKey(mlxModel, allowQuantization)) == Some((mlxModel, allowQuantization))
  {
    var key := CacheKey(mlxModel, allowQuantization);
    assert key[|key| - 5..] == key[|mlxModel|..];
    assert key[..|key| - 5] == mlxModel;
  }

  lemma CacheKeyInjective(m1: string, q1: bool, m2: string, q2: bool)
    ensures CacheKey(m1, q1) == CacheKey(m2, q2) <==> m1 == m2 && q1 == q2
  {
    CacheKeyRoundTrip(m1, q1);
    CacheKeyRoundTrip(m2, q2);
  }

  /** A constructed `LightningWhisperMLX` object: the arguments it was built with. */
  datatype LoadedModel = LoadedModel(model: string, batchSize: nat, quant: Option<string>)

  const BatchSize: nat := 12

  /** `LightningWhisperMLX(model=mlx_model, batch_size=12, quant=quant_param)`. */
  function Construct(mlxModel: string, allowQuantization: bool): LoadedModel {
    LoadedModel(mlxModel, BatchSize, if allowQuantization then Some("8bit") else None)
  }

  /** The key a loaded model is cached under. */
  function KeyOf(m: LoadedModel): string {
    CacheKey(m.model, m.quant.Some?)
  }

  /** `_model_cache`: a dict from cache key to loaded model that `load_model`
      keeps at one entry. */
  class ModelCache {
    var entries: map<string, LoadedModel>

    /** At most one model is cached, under the key it was built for. */
    ghost predicate Valid()
      reads this
    {
      |entries| <= 1 && forall k :: k in entries ==> k == KeyOf(entries[k])
    }

    constructor ()
      ensures Valid() && entries == map[]
    {
      entries := map[];
    }

    /** `load_model(model_name, allow_quantization)`. `constructs` says
        whether the constructor returns or raises. A hit returns the cached
        model; a miss that constructs replaces the whole cache by the new
        entry; a failed construction returns `(None, None)` and leaves the
        cache as it was, since it raises before `clear()`. */
    method LoadModel(modelName: string, allowQuantization: bool, constructs: bool)
      returns (model: Option<LoadedModel>, key: Option<string>)
      requires Valid()
      modifies this
      ensures Valid()
      ensures var k := CacheKey(MlxModelFor(modelName), allowQuantization);
              if k in old(entries) then
                model == Some(old(entries)[k]) && key == Some(k) && entries == old(entries)
              else if constructs then
                && model == Some(Construct(MlxModelFor(modelName), allowQuantization))
                && key == Some(k) && entries == map[k := model.value]
              else
                model == None && key == None && entries == old(entries)
      ensures model.Some? ==> model.value.model == MlxModelFor(modelName)
                              && model.value.quant.Some? == allowQuantization
    {
      var mlxModel := MlxModelFor(modelName);
      var cacheKey := CacheKey(mlxModel, allowQuantization);
      if cacheKey in entries {
        CacheKeyInjective(entries[cacheKey].model, entries[cacheKey].quant.Some?, mlxModel, allowQuantization);
        return Some(entries[cacheKey]), Some(cacheKey);
      }
      if !constructs {
        return None, None;
      }
      var m := Construct(mlxModel, allowQuantization);
      entries := map[];
      entries := entries[cacheKey := m];
      model, key := Some(m), Some(cacheKey);
    }
  }
}
