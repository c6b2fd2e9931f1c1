/**
 * The model cache of the Whisper speech-recognition server (whisper/app.py):
 * `WhisperModelManager`, its name resolution against the alias table, the
 * cache it fills on demand, and the speed figure of the transcription route.
 *
 * Loading a model is an opaque constructor `LoadedPipeline(id)`; the clock and
 * the decoded audio are inputs.
 */
module WhisperServer {
  import opened Wrappers

  /** The alias table `available_models`, in its insertion order. */
  const AvailableModels: seq<(string, string)> := [
    ("tiny", "openai/whisper-tiny"),
    ("base", "openai/whisper-base"),
    ("small", "openai/whisper-small"),
    ("medium", "openai/whisper-medium"),
    ("large", "openai/whisper-large-v3")
  ]

  /** The default of `WHISPER_MODEL_ID`. */
  const DefaultModelId := "openai/whisper-large-v3"

  /** The name `next(...)` falls back to when the default id has no alias. */
  const FallbackName := "large"

  // ---------------------------------------------------------------------------
  // Lookups in an insertion-ordered table
  // ---------------------------------------------------------------------------

  predicate HasKey(t: seq<(string, string)>, key: string) {
    exists k :: 0 <= k < |t| && t[k].0 == key
  }

  predicate HasValue(t: seq<(string, string)>, value: string) {
    exists k :: 0 <= k < |t| && t[k].1 == value
  }

  /** `t.get(key)`: the value of the first entry with that key. */
  function Lookup(t: seq<(string, string)>, key: string): (r: Option<string>)
    ensures r.Some? <==> HasKey(t, key)
    ensures r.Some? ==> exists k :: 0 <= k < |t| && t[k] == (key, r.value) && forall j :: 0 <= j < k ==> t[j].0 != key
  {
    if t == [] then None
    else if t[0].0 == key then Some(t[0].1)
    else
      var r := Lookup(t[1..], key);
      assert forall k :: 0 <= k < |t[1..]| ==> t[1..][k] == t[k + 1];
      if r.Some? then
        var k :| 0 <= k < |t[1..]| && t[1..][k] == (key, r.value) && forall j :: 0 <= j < k ==> t[1..][j].0 != key;
        assert t[k + 1] == (key, r.value) && forall j :: 0 <= j < k + 1 ==> t[j].0 != key;
        r
      else r
  }

  /** `next((k for k, v in t.items() if v == value), default)`: the first key mapped to `value`. */
  function KeyFor(t: seq<(string, string)>, value: string, default: string): (r: string)
    ensures HasValue(t, value) ==> exists k :: 0 <= k < |t| && t[k] == (r, value) && forall j :: 0 <= j < k ==> t[j].1 != value
    ensures !HasValue(t, value) ==> r == default
  {
    if t == [] then default
    else if t[0].1 == value then t[0].0
    else
      var r := KeyFor(t[1..], value, default);
      assert forall k :: 0 <= k < |t[1..]| ==> t[1..][k] == t[k + 1];
      if HasValue(t[1..], value) then
        var k :| 0 <= k < |t[1..]| && t[1..][k] == (r, value) && forall j :: 0 <= j < k ==> t[1..][j].1 != value;
        assert t[k + 1] == (r, value) && forall j :: 0 <= j < k + 1 ==> t[j].1 != value;
        r
      else
        assert !HasValue(t, value) by {
          forall k | 0 <= k < |t| ensures t[k].1 != value {
            if k > 0 { assert t[k] == t[1..][k - 1]; }
          }
        }
        r
  }

  predicate IsModelName(name: string) {
    HasKey(AvailableModels, name)
  }

  /** The alias table's id for a name it holds. */
  function TableId(name: string): string
    requires IsModelName(name)
  {
    Lookup(AvailableModels, name).value
  }

  /**
   * The cache key and the model id a request names. A non-empty name in the
   * table selects its own id; anything else selects the default id, cached under
   * the first alias of that id, or "large" when the id has none.
   */
  function Resolve(modelName: Option<string>, defaultId: string): (r: (string, string))
    ensures IsModelName(r.0)
    ensures modelName.Some? && IsModelName(modelName.value) ==> r == (modelName.value, TableId(modelName.value))
    ensures !(modelName.Some? && IsModelName(modelName.value)) ==>
      && r.1 == defaultId
      && (HasValue(AvailableModels, defaultId) ==> TableId(r.0) == defaultId)
      && (!HasValue(AvailableModels, defaultId) ==> r.0 == FallbackName)
  {
    if modelName.Some? && modelName.value != "" && IsModelName(modelName.value) then
      (modelName.value, TableId(modelName.value))
    else
      FallbackKey(defaultId);
      (KeyFor(AvailableModels, defaultId, FallbackName), defaultId)
  }

  /** The key the default id is cached under is a table name, and names that id when the table has it. */
  lemma FallbackKey(defaultId: string)
    ensures IsModelName(KeyFor(AvailableModels, defaultId, FallbackName))
    ensures HasValue(AvailableModels, defaultId) ==> TableId(KeyFor(AvailableModels, defaultId, FallbackName)) == defaultId
  {
    var name := KeyFor(AvailableModels, defaultId, FallbackName);
    if HasValue(AvailableModels, defaultId) {
      var k :| 0 <= k < |AvailableModels| && AvailableModels[k] == (name, defaultId);
      assert IsModelName(name);
      var v := TableId(name);
      var j :| 0 <= j < |AvailableModels| && AvailableModels[j] == (name, v) && forall i :: 0 <= i < j ==> AvailableModels[i].0 != name;
      AliasesDistinct();
      assert j == k;
    } else {
      assert AvailableModels[4].0 == FallbackName;
    }
  }

  /** The table's names, and its ids, are pairwise distinct. */
  lemma AliasesDistinct()
    ensures forall i, j :: 0 <= i < j < |AvailableModels| ==> AvailableModels[i].0 != AvailableModels[j].0
    ensures forall i, j :: 0 <= i < j < |AvailableModels| ==> AvailableModels[i].1 != AvailableModels[j].1
  {
  }

  /** Each alias in the table resolves to its own entry. */
  lemma ResolveAlias(k: nat, defaultId: string)
    requires k < |AvailableModels|
    ensures Resolve(Some(AvailableModels[k].0), defaultId) == AvailableModels[k]
  {
    var name := AvailableModels[k].0;
    assert IsModelName(name);
    var v := TableId(name);
    var j :| 0 <= j < |AvailableModels| && AvailableModels[j] == (name, v) && forall i :: 0 <= i < j ==> AvailableModels[i].0 != name;
    AliasesDistinct();
    assert j == k;
  }

  /** The alias names resolve to the table's five ids. */
  lemma ResolveAliases(defaultId: string)
    ensures Resolve(Some("tiny"), defaultId) == ("tiny", "openai/whisper-tiny")
    ensures Resolve(Some("base"), defaultId) == ("base", "openai/whisper-base")
    ensures Resolve(Some("small"), defaultId) == ("small", "openai/whisper-small")
    ensures Resolve(Some("medium"), defaultId) == ("medium", "openai/whisper-medium")
    ensures Resolve(Some("large"), defaultId) == ("large", "openai/whisper-large-v3")
  {
    ResolveAlias(0, defaultId);
    ResolveAlias(1, defaultId);
    ResolveAlias(2, defaultId);
    ResolveAlias(3, defaultId);
    ResolveAlias(4, defaultId);
  }

  /** A missing, empty or unknown name falls back to the default id; with the stock default that is "large". */
  lemma ResolveFallback(defaultId: string)
    ensures Resolve(None, defaultId).1 == defaultId
    ensures Resolve(Some(""), defaultId) == Resolve(None, defaultId)
    ensures Resolve(Some("huge"), defaultId) == Resolve(None, defaultId)
    ensures Resolve(None, DefaultModelId) == ("large", DefaultModelId)
  {
    assert forall k :: 0 <= k < |AvailableModels| ==> AvailableModels[k].0 != "" && AvailableModels[k].0 != "huge";
    assert AvailableModels[4] == ("large", DefaultModelId);
  }

  /**
   * The cache is keyed by name: with a default id outside the table, both the
   * default request and an explicit "large" land on the key "large", although
   * they name different ids.
   */
  lemma LargeKeyShared(defaultId: string)
    requires !HasValue(AvailableModels, defaultId)
    ensures Resolve(None, defaultId) == (FallbackName, defaultId)
    ensures Resolve(Some("large"), defaultId) == (FallbackName, "openai/whisper-large-v3")
    ensures defaultId != "openai/whisper-large-v3"
  {
    ResolveAlias(4, defaultId);
  }

  // ---------------------------------------------------------------------------
  // The manager
  // ---------------------------------------------------------------------------

  /** The opaque result of loading a model and its processor for an id. */
  datatype Pipeline = LoadedPipeline(modelId: string)

  /** A cache entry: the pipeline and the id it was loaded from. */
  datatype ModelEntry = ModelEntry(pipeline: Pipeline, modelId: string)

  function ModelNames(): (r: seq<string>)
    ensures |r| == |AvailableModels| && forall k :: 0 <= k < |r| ==> r[k] == AvailableModels[k].0
  {
    seq(|AvailableModels|, k requires 0 <= k < |AvailableModels| => AvailableModels[k].0)
  }

  /** A sequence without repetitions has as many distinct elements as positions. */
  lemma {:induction false} DistinctCardinality(s: seq<string>)
    requires forall i, j :: 0 <= i < j < |s| ==> s[i] != s[j]
    ensures |set x | x in s| == |s|
  {
    if s != [] {
      var init := s[..|s| - 1];
      DistinctCardinality(init);
      assert (set x | x in s) == (set x | x in init) + {s[|s| - 1]};
      assert s[|s| - 1] !in (set x | x in init);
    }
  }

  class ModelManager {
    /** `self.models`: the loaded entries by cache name. */
    var models: map<string, ModelEntry>
    /** The names of `self.models` in insertion order (a Python dict keeps it). */
    var loadOrder: seq<string>
    /** `WHISPER_MODEL_ID`, or its default. */
    const defaultModelId: string

    /**
     * The order lists each cached name once; every cached name is an alias, and
     * its entry was loaded from the table's id for it or from the default id.
     */
    ghost predicate Valid()
      reads this
    {
      && (forall i, j :: 0 <= i < j < |loadOrder| ==> loadOrder[i] != loadOrder[j])
      && (forall n :: n in models <==> n in loadOrder)
      && (forall n :: n in models ==>
            && IsModelName(n)
            && models[n].pipeline == LoadedPipeline(models[n].modelId)
            && (models[n].modelId == TableId(n) || models[n].modelId == defaultModelId))
    }

    /** `__init__`, with the environment variable as a parameter. */
    constructor(envModelId: Option<string>)
      ensures defaultModelId == envModelId.GetOr(DefaultModelId)
      ensures models == map[] && loadOrder == []
      ensures Valid()
    {
      defaultModelId := envModelId.GetOr(DefaultModelId);
      models := map[];
      loadOrder := [];
    }

    /**
     * `get_model_pipeline`: a cached name returns its entry and changes nothing;
     * otherwise the resolved id is loaded and the cache gains exactly that name.
     */
    method GetModelPipeline(modelName: Option<string>) returns (entry: ModelEntry)
      requires Valid()
      modifies this
      ensures Valid()
      ensures var (name, id) := Resolve(modelName, defaultModelId);
        && name in models && entry == models[name]
        && (name in old(models) ==> models == old(models) && loadOrder == old(loadOrder))
        && (name !in old(models) ==>
              && entry == ModelEntry(LoadedPipeline(id), id)
              && models == old(models)[name := entry]
              && loadOrder == old(loadOrder) + [name])
    {
      var resolved := Resolve(modelName, defaultModelId);
      var name, id := resolved.0, resolved.1;
      if name in models {
        return models[name];
      }
      entry := ModelEntry(LoadedPipeline(id), id);
      models := models[name := entry];
      loadOrder := loadOrder + [name];
    }

    /**
     * `startup_event`: pre-loads the default model. When its name is already
     * cached nothing changes; otherwise the default id is loaded under that name
     * and every other entry keeps its value.
     */
    method Startup()
      requires Valid()
      modifies this
      ensures Valid()
      ensures var (name, id) := Resolve(None, defaultModelId);
        && name in models
        && (name in old(models) ==> models == old(models) && loadOrder == old(loadOrder))
        && (name !in old(models) ==>
              && id == defaultModelId
              && models == old(models)[name := ModelEntry(LoadedPipeline(id), id)]
              && loadOrder == old(loadOrder) + [name])
      ensures old(models).Keys <= models.Keys && |models| <= |old(models)| + 1
    {
      var entry := GetModelPipeline(None);
    }

    /** `list_loaded_models`: every cached name once, in insertion order. */
    function ListLoaded(): (r: seq<string>)
      reads this
      requires Valid()
      ensures forall n :: n in r <==> n in models
      ensures forall i, j :: 0 <= i < j < |r| ==> r[i] != r[j]
      ensures |r| == |models|
      ensures r == loadOrder
    {
      DistinctCardinality(loadOrder);
      assert (set x | x in loadOrder) == models.Keys;
      loadOrder
    }

    /** `list_available_models`: the table's names in table order, whatever is loaded. */
    function ListAvailable(): (r: seq<string>)
      ensures r == ["tiny", "base", "small", "medium", "large"]
    {
      ModelNames()
    }
  }

  /** The cache never outgrows the alias table. */
  lemma CacheBounded(m: ModelManager)
    requires m.Valid()
    ensures |m.models| <= |AvailableModels|
  {
    DistinctCardinality(ModelNames());
    assert m.models.Keys <= (set x | x in ModelNames()) by {
      forall n | n in m.models ensures n in ModelNames() {
        var k :| 0 <= k < |AvailableModels| && AvailableModels[k].0 == n;
        assert ModelNames()[k] == n;
      }
    }
    var names := set x | x in ModelNames();
    assert |m.models.Keys| <= |names| by {
      SubsetCardinality(m.models.Keys, names);
    }
  }

  lemma SubsetCardinality(a: set<string>, b: set<string>)
    requires a <= b
    ensures |a| <= |b|
  {
    assert b == a + (b - a);
  }

  /**
   * With a default id outside the table, an explicit "large" request after
   * start-up is answered by the default model, not by whisper-large-v3.
   */
  method ShadowedLarge(envModelId: string) returns (startupEntry: ModelEntry, largeEntry: ModelEntry)
    requires !HasValue(AvailableModels, envModelId)
    ensures startupEntry.modelId == envModelId
    ensures largeEntry == startupEntry
    ensures largeEntry.modelId != "openai/whisper-large-v3"
  {
    var m := new ModelManager(Some(envModelId));
    LargeKeyShared(envModelId);
    startupEntry := m.GetModelPipeline(None);
    largeEntry := m.GetModelPipeline(Some("large"));
  }

  // ---------------------------------------------------------------------------
  // The transcription route (whisper/app.py:148-197)
  // ---------------------------------------------------------------------------

  /** What `sf.read` yields: the number of frames and the sample rate. */
  datatype Audio = Audio(frames: nat, sampleRate: nat)

  datatype TranscribeResponse =
    | Transcribed(text: string, audioLengthSeconds: real, durationSeconds: real, speed: real, modelUsed: string)
    | ServerError(status: nat, detail: string)

  /** `len(data) / samplerate`: a zero rate raises. */
  function AudioLength(audio: Audio): (r: Result<real, string>)
    ensures r.Ok? <==> audio.sampleRate > 0
    ensures r.Ok? ==> r.value * audio.sampleRate as real == audio.frames as real && r.value >= 0.0
  {
    if audio.sampleRate == 0 then Err("division by zero")
    else Ok(audio.frames as real / audio.sampleRate as real)
  }

  /** Times faster than real time; 0 when the measured duration is not positive. */
  function TranscriptionSpeed(audioLength: real, duration: real): (r: real)
    ensures duration > 0.0 ==> r * duration == audioLength
    ensures duration <= 0.0 ==> r == 0.0
    ensures audioLength >= 0.0 ==> r >= 0.0
  {
    if duration > 0.0 then audioLength / duration else 0.0
  }

  /**
   * `transcribe_audio` once the upload is decoded: the pipeline is fetched
   * (loading it if needed); a decoding failure, a zero sample rate, or a
   * pipeline call that raises or returns no "text" becomes a 500 response.
   * `text` stands for `result["text"]` of the pipeline call (or the error it
   * raised) and `duration` for the clock.
   */
  method TranscribeAudio(m: ModelManager, modelName: Option<string>, decoded: Result<Audio, string>,
                         text: Result<string, string>, duration: real) returns (r: TranscribeResponse)
    requires m.Valid()
    modifies m
    ensures m.Valid()
    ensures var (name, id) := Resolve(modelName, m.defaultModelId);
      && name in m.models
      && (name in old(m.models) ==> m.models == old(m.models) && m.loadOrder == old(m.loadOrder))
      && (name !in old(m.models) ==>
            && m.models == old(m.models)[name := ModelEntry(LoadedPipeline(id), id)]
            && m.loadOrder == old(m.loadOrder) + [name]
            && (r.Transcribed? ==> r.modelUsed == id))
    ensures r.Transcribed? <==> decoded.Ok? && decoded.value.sampleRate > 0 && text.Ok?
    ensures r.ServerError? ==> r.status == 500
    ensures r.Transcribed? ==>
      && r.text == text.value && r.durationSeconds == duration
      && r.modelUsed == m.models[Resolve(modelName, m.defaultModelId).0].modelId
      && r.speed == TranscriptionSpeed(r.audioLengthSeconds, duration)
      && AudioLength(decoded.value) == Ok(r.audioLengthSeconds)
  {
    var entry := m.GetModelPipeline(modelName);
    if decoded.Err? {
      return ServerError(500, "Error processing audio: " + decoded.error);
    }
    var length := AudioLength(decoded.value);
    if length.Err? {
      return ServerError(500, "Error processing audio: " + length.error);
    }
    if text.Err? {
      return ServerError(500, "Error processing audio: " + text.error);
    }
    r := Transcribed(text.value, length.value, duration, TranscriptionSpeed(length.value, duration), entry.modelId);
  }
}
