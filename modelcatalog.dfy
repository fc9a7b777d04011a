/**
 * Model management in js/app.js: choosing the image models out of the service's
 * model list, and deciding whether the locally cached list is still usable.
 */
module ModelCatalog {

  import opened Wrappers
  import opened Seqs

  /** An entry of the service's model list; `outputModalities` is absent for some models. */
  datatype ModelInfo = ModelInfo(name: string, outputModalities: Option<seq<string>>)

  /** `model.output_modalities || []`. */
  function Modalities(m: ModelInfo): seq<string>
  {
    match m.outputModalities
    case Some(ms) => ms
    case None => []
  }

  /** The filter's test: the model outputs images and does not output video. */
  predicate IsImageModel(m: ModelInfo)
    ensures IsImageModel(m) ==> m.outputModalities.Some? && "image" in m.outputModalities.value
    ensures IsImageModel(m) ==> "video" !in m.outputModalities.value
  {
    "image" in Modalities(m) && "video" !in Modalities(m)
  }

  /** The `data.filter(...)` of `fetchModelsFromAPI`: keeps the image models, in order. */
  function ImageModels(models: seq<ModelInfo>): (r: seq<ModelInfo>)
    ensures |r| <= |models|
    ensures forall m :: m in r ==> m in models && IsImageModel(m)
  {
    if models == [] then []
    else
      var rest := ImageModels(models[1..]);
      if IsImageModel(models[0]) then [models[0]] + rest else rest
  }

  /** Every image model of the input survives the filter. */
  lemma {:induction false} ImageModelsKeepsEveryImageModel(models: seq<ModelInfo>, m: ModelInfo)
    requires m in models && IsImageModel(m)
    ensures m in ImageModels(models)
  {
    if models[0] != m {
      assert m in models[1..];
      ImageModelsKeepsEveryImageModel(models[1..], m);
    }
  }

  /** The filter only deletes entries: the survivors keep their relative order. */
  lemma {:induction false} ImageModelsIsSubsequence(models: seq<ModelInfo>)
    ensures IsSubsequence(ImageModels(models), models)
  {
    if models != [] {
      ImageModelsIsSubsequence(models[1..]);
      assert [models[0]] + models[1..] == models;
      if IsImageModel(models[0]) {
        SubsequenceCons(models[0], ImageModels(models[1..]), models[1..]);
      } else {
        SubsequenceSkip(models[0], ImageModels(models[1..]), models[1..]);
      }
    }
  }

  /** Every copy of an image model is kept and every copy of another model is dropped. */
  lemma {:induction false} ImageModelsCounts(models: seq<ModelInfo>, m: ModelInfo)
    ensures multiset(ImageModels(models))[m] == if IsImageModel(m) then multiset(models)[m] else 0
  {
    if models != [] {
      ImageModelsCounts(models[1..], m);
      assert models == [models[0]] + models[1..];
      assert multiset(models) == multiset([models[0]]) + multiset(models[1..]);
    }
  }

  /** A model without output modalities is never an image model. */
  lemma MissingModalitiesExcluded(name: string)
    ensures !IsImageModel(ModelInfo(name, None))
    ensures !IsImageModel(ModelInfo(name, Some([])))
  {
  }

  /** Filtering the filtered list changes nothing. */
  lemma {:induction false} ImageModelsIdempotent(models: seq<ModelInfo>)
    ensures ImageModels(ImageModels(models)) == ImageModels(models)
  {
    if models != [] {
      ImageModelsIdempotent(models[1..]);
      var rest := ImageModels(models[1..]);
      if IsImageModel(models[0]) {
        assert ([models[0]] + rest)[1..] == rest;
      }
    }
  }

  /** `CACHE_DURATION_MS`: 24 hours in milliseconds. */
  const CacheDurationMs: int := 24 * 60 * 60 * 1000

  /**
   * The cached timestamp as `getCachedModels` sees it: no entry (or an empty one,
   * which is falsy), a text `parseInt` cannot read (it yields NaN), or a number of
   * milliseconds.
   */
  datatype Timestamp = Missing | NotANumber | Millis(ms: int)

  /**
   * `getCachedModels` at time `now`: the cached model list text, or None when either
   * entry is missing or empty or the cache is older than `CACHE_DURATION_MS`.
   * An age of NaN compares false with the limit, so an unreadable timestamp never expires.
   */
  function CachedModels(cached: Option<string>, stamp: Timestamp, now: nat): (r: Option<string>)
    ensures r.Some? ==> r == cached
    ensures r.Some? <==> cached.Some? && cached.value != "" && !stamp.Missing?
                          && (stamp.Millis? ==> now - stamp.ms <= CacheDurationMs)
  {
    if cached.None? || cached.value == "" || stamp.Missing? then None
    else if stamp.Millis? && now - stamp.ms > CacheDurationMs then None
    else cached
  }

  /**
   * A cache exactly 24 hours (86 400 000 ms) old is still fresh; one millisecond
   * later it has expired.
   */
  lemma CacheBoundary(text: string, written: int)
    requires text != ""
    requires written + 86_400_000 >= 0
    ensures CachedModels(Some(text), Millis(written), written + 86_400_000) == Some(text)
    ensures CachedModels(Some(text), Millis(written), written + 86_400_001) == None
  {
  }

  /** Freshness only runs out: a cache usable at `later` was usable at every earlier time. */
  lemma CacheExpiryIsMonotone(cached: Option<string>, stamp: Timestamp, earlier: nat, later: nat)
    requires earlier <= later
    requires CachedModels(cached, stamp, later).Some?
    ensures CachedModels(cached, stamp, earlier) == CachedModels(cached, stamp, later)
  {
  }
}
