/**
 * The API server's model registry: a map from model id to the loaded model
 * (its description, its engine, timestamps and counters), the count of
 * requests in flight, loading a model from the models directory, unloading,
 * listing, the least-recently-used eviction run before a load, and the
 * handlers of the model-management endpoints.
 *
 * The file system is a map from path to file size, the clock a `now`
 * argument, and the iteration order of the concurrent map an enumeration of
 * its keys supplied by the caller.
 */
module Registry {
  import opened Wrappers
  import Bytes
  import Text
  import Quantization
  import ExtendedTransformer

  datatype ModelInfo = ModelInfo(
    id: string,
    path: string,
    size: nat,
    loaded: bool,
    quantization: string,
    contextWindow: nat)

  datatype LoadedModel = LoadedModel(
    info: ModelInfo,
    engine: ExtendedTransformer.ExtendedTransformer,
    lastUsed: nat,
    loadedAt: nat,
    requestCount: nat,
    totalTokensGenerated: nat,
    lastInferenceAt: Option<nat>)

  datatype RegistryError =
    | ModelFileNotFound(path: string)
    | EngineFailed(message: string)
    | ModelNotFound(id: string)

  /** What loading needs from the host: files with their sizes, the detected target, probes and the checkpoint loader. */
  datatype Host = Host(
    files: map<string, nat>,
    target: Quantization.CpuTarget,
    probe: ExtendedTransformer.Probe,
    load: ExtendedTransformer.Loader)

  /**
   * `PathBuf::join` on '/'-separated paths: an absolute name replaces the
   * base, an empty base or one ending in '/' takes the name directly, any
   * other base gets a separator first.
   */
  function JoinPath(dir: string, name: string): (r: string)
    ensures |name| > 0 && name[0] == '/' ==> r == name
    ensures (|name| == 0 || name[0] != '/') ==> exists sep :: (sep == "" || sep == "/") && r == dir + sep + name
  {
    if |name| > 0 && name[0] == '/' then name
    else if dir == [] || dir[|dir| - 1] == '/' then
      assert dir + "" + name == dir + name;
      dir + name
    else dir + "/" + name
  }

  /** The checkpoint of a model: `<directory>/<id>.bin`. */
  function ModelPath(dir: string, id: string): string
  {
    JoinPath(dir, id + ".bin")
  }

  /** Whatever the directory, the checkpoint path ends in the file name "<id>.bin". */
  lemma ModelPathEndsWithFile(dir: string, id: string)
    ensures Text.EndsWith(ModelPath(dir, id), id + ".bin")
  {
  }

  /** An ordinary id names a file directly inside the models directory. */
  lemma ModelPathInsideDirectory(dir: string, id: string)
    requires dir != [] && dir[|dir| - 1] != '/'
    requires |id| > 0 && id[0] != '/'
    ensures ModelPath(dir, id) == dir + "/" + id + ".bin"
  {
    assert (id + ".bin")[0] == id[0];
  }

  /** An id that starts with '/' escapes the models directory altogether. */
  lemma ModelPathAbsoluteId(dir: string, id: string)
    requires |id| > 0 && id[0] == '/'
    ensures ModelPath(dir, id) == id + ".bin"
  {
    assert (id + ".bin")[0] == id[0];
  }

  /** `order` lists every key of `m` exactly once. */
  predicate Enumerates(order: seq<string>, m: map<string, LoadedModel>)
  {
    (forall i, j :: 0 <= i < j < |order| ==> order[i] != order[j]) &&
    (forall k :: k in order ==> k in m) &&
    (forall k :: k in m ==> k in order)
  }

  /**
   * The scan of `enforce_model_limits` over the keys in `order`: the best
   * candidate so far and its time, starting from `now`, replaced only by a
   * strictly older entry.
   */
  function Scan(order: seq<string>, m: map<string, LoadedModel>, now: nat): (r: (Option<string>, nat))
    requires forall k :: k in order ==> k in m
    ensures r.1 <= now
    ensures r.0.None? <==> forall i :: 0 <= i < |order| ==> m[order[i]].lastUsed >= now
    ensures r.0.None? ==> r.1 == now
    ensures r.0.Some? ==> r.0.value in order && m[r.0.value].lastUsed == r.1 < now
    ensures forall i :: 0 <= i < |order| ==> m[order[i]].lastUsed >= r.1
  {
    if order == [] then (None, now)
    else
      var front := order[..|order| - 1];
      var k := order[|order| - 1];
      assert forall k' :: k' in front ==> k' in order;
      var (best, t) := Scan(front, m, now);
      assert forall i :: 0 <= i < |front| ==> order[i] == front[i];
      if m[k].lastUsed < t then (Some(k), m[k].lastUsed) else (best, t)
  }

  /** Among entries of equal age the scan keeps the one met first. */
  lemma {:induction false} ScanKeepsFirstOldest(order: seq<string>, m: map<string, LoadedModel>, now: nat, j: nat)
    requires forall k :: k in order ==> k in m
    requires Scan(order, m, now).0.Some? && j < |order| && order[j] == Scan(order, m, now).0.value
    requires forall i, i' :: 0 <= i < i' < |order| ==> order[i] != order[i']
    ensures forall i :: 0 <= i < j ==> m[order[i]].lastUsed > Scan(order, m, now).1
  {
    var front := order[..|order| - 1];
    var k := order[|order| - 1];
    assert forall k' :: k' in front ==> k' in order;
    var (best, t) := Scan(front, m, now);
    assert forall i :: 0 <= i < |front| ==> order[i] == front[i];
    if m[k].lastUsed < t {
      assert j == |order| - 1;
    } else {
      assert Scan(order, m, now) == (best, t);
      assert j < |front|;
      ScanKeepsFirstOldest(front, m, now, j);
    }
  }

  /** The registry after `enforce_model_limits`. */
  function Enforced(m: map<string, LoadedModel>, maxLoaded: nat, order: seq<string>, now: nat): map<string, LoadedModel>
    requires forall k :: k in order ==> k in m
  {
    if |m| > maxLoaded && Scan(order, m, now).0.Some? then m - {Scan(order, m, now).0.value} else m
  }

  /**
   * Over the limit, the entry used longest ago is evicted, provided it is
   * older than `now`; within the limit, or when nothing is older than
   * `now`, nothing changes.
   */
  lemma EnforcedEvictsOldest(m: map<string, LoadedModel>, maxLoaded: nat, order: seq<string>, now: nat)
    requires Enumerates(order, m)
    ensures |m| <= maxLoaded ==> Enforced(m, maxLoaded, order, now) == m
    ensures (forall k :: k in m ==> m[k].lastUsed >= now) ==> Enforced(m, maxLoaded, order, now) == m
    ensures |m| > maxLoaded && (exists k :: k in m && m[k].lastUsed < now) ==>
      exists victim :: (victim in m && Enforced(m, maxLoaded, order, now) == m - {victim} &&
        |Enforced(m, maxLoaded, order, now)| == |m| - 1 &&
        forall k :: k in m ==> m[victim].lastUsed <= m[k].lastUsed)
  {
    ScanOverKeys(m, order, now);
    if |m| > maxLoaded && Scan(order, m, now).0.Some? {
      var victim := Scan(order, m, now).0.value;
      assert (m - {victim}).Keys == m.Keys - {victim};
    }
  }

  /** Over an enumeration, the scan finds a candidate exactly when some entry is older than `now`, and it is the oldest. */
  lemma ScanOverKeys(m: map<string, LoadedModel>, order: seq<string>, now: nat)
    requires Enumerates(order, m)
    ensures Scan(order, m, now).0.Some? <==> exists k :: k in m && m[k].lastUsed < now
    ensures Scan(order, m, now).0.Some? ==>
      Scan(order, m, now).0.value in m && forall k :: k in m ==> m[Scan(order, m, now).0.value].lastUsed <= m[k].lastUsed
  {
    var (best, t) := Scan(order, m, now);
    forall k | k in m ensures m[k].lastUsed >= t {
      assert k in order;
      var i :| 0 <= i < |order| && order[i] == k;
    }
    if exists k :: k in m && m[k].lastUsed < now {
      var k :| k in m && m[k].lastUsed < now;
      assert k in order;
      var i :| 0 <= i < |order| && order[i] == k;
    }
  }

  /**
   * The model with the earliest load time is the one evicted: no update
   * ever moves `last_used` after loading, so the policy is first-in
   * first-out rather than least recently used.
   */
  lemma EvictsEarliestLoaded(m: map<string, LoadedModel>, maxLoaded: nat, order: seq<string>, now: nat)
    requires Enumerates(order, m)
    requires forall k :: k in m ==> m[k].lastUsed == m[k].loadedAt < now
    requires |m| > maxLoaded && |m| > 0
    ensures exists victim :: (victim in m && Enforced(m, maxLoaded, order, now) == m - {victim} &&
      forall k :: k in m ==> m[victim].loadedAt <= m[k].loadedAt)
  {
    var k :| k in m;
    EnforcedEvictsOldest(m, maxLoaded, order, now);
  }

  /**
   * Eviction runs before the new model is inserted and only when the
   * registry already holds more than the limit, so after a load the
   * registry can hold one model more than the limit, but never two.
   */
  lemma LoadKeepsWithinOneOverLimit(
    m: map<string, LoadedModel>, maxLoaded: nat, order: seq<string>, now: nat, id: string, e: LoadedModel)
    requires Enumerates(order, m)
    requires |m| <= maxLoaded + 1
    requires forall k :: k in m ==> m[k].lastUsed < now
    ensures |Enforced(m, maxLoaded, order, now)[id := e]| <= maxLoaded + 1
    ensures |m| == maxLoaded && id !in m ==> |Enforced(m, maxLoaded, order, now)[id := e]| == maxLoaded + 1
  {
    var after := Enforced(m, maxLoaded, order, now);
    if |m| > maxLoaded {
      var k :| k in m;
      EnforcedEvictsOldest(m, maxLoaded, order, now);
      assert |after| == maxLoaded;
    } else {
      assert after == m;
    }
    InsertSize(after, id, e);
  }

  /** Storing under an id adds one entry when the id is new and replaces its entry, keeping the count, when it is present. */
  lemma InsertSize(m: map<string, LoadedModel>, id: string, e: LoadedModel)
    ensures id in m ==> |m[id := e]| == |m|
    ensures id !in m ==> |m[id := e]| == |m| + 1
  {
    if id in m {
      assert m[id := e].Keys == m.Keys;
    } else {
      assert m[id := e].Keys == m.Keys + {id};
    }
  }

  /** A freshly loaded entry: loaded, counters at zero, both timestamps `now`. */
  function NewEntry(info: ModelInfo, engine: ExtendedTransformer.ExtendedTransformer, now: nat): (r: LoadedModel)
    ensures r.info == info && r.engine == engine
    ensures r.lastUsed == now && r.loadedAt == now && r.lastInferenceAt == None
    ensures r.requestCount == 0 && r.totalTokensGenerated == 0
  {
    LoadedModel(info, engine, now, now, 0, 0, None)
  }

  /** The description recorded for a load: quantization "int8" unless one is requested. */
  function LoadInfo(dir: string, id: string, quantization: Option<string>, size: nat, contextWindow: nat): (r: ModelInfo)
    ensures r.id == id && r.path == ModelPath(dir, id) && r.size == size && r.loaded
    ensures quantization.None? ==> r.quantization == "int8"
    ensures quantization.Some? ==> r.quantization == quantization.value
    ensures r.contextWindow == contextWindow
  {
    ModelInfo(id, ModelPath(dir, id), size, true, quantization.UnwrapOr("int8"), contextWindow)
  }

  /** The state shared by all request handlers. */
  /**
   * The registry after a served request: that model's request count and
   * token total move on (wrapping at 2^64) and its last inference is `now`.
   */
  function Recorded(models: map<string, LoadedModel>, model: string, completionTokens: nat, now: nat)
    : map<string, LoadedModel>
    requires model in models
  {
    var entry := models[model];
    models[model := entry.(
      requestCount := Bytes.WrapU64(entry.requestCount + 1),
      totalTokensGenerated := Bytes.WrapU64(entry.totalTokensGenerated + completionTokens),
      lastInferenceAt := Some(now))]
  }

  class AppState {
    const directory: string
    const contextWindow: nat
    const maxLoadedModels: nat
    var models: map<string, LoadedModel>
    var activeRequests: nat

    /** Every entry is filed under its own id, and its use time is its load time. */
    predicate Valid()
      reads this
    {
      forall k :: k in models ==> models[k].info.id == k && models[k].lastUsed == models[k].loadedAt
    }

    constructor (directory: string, contextWindow: nat, maxLoadedModels: nat)
      ensures this.directory == directory && this.contextWindow == contextWindow
      ensures this.maxLoadedModels == maxLoadedModels
      ensures models == map[] && activeRequests == 0
      ensures Valid()
    {
      this.directory := directory;
      this.contextWindow := contextWindow;
      this.maxLoadedModels := maxLoadedModels;
      models := map[];
      activeRequests := 0;
    }

    /**
     * `load_model`: a missing checkpoint fails first, then a failing
     * engine; otherwise the entry is (re)placed under the id, which is
     * returned.
     */
    /** Files an entry under its own id, replacing any entry with that id. */
    method Register(entry: LoadedModel)
      requires Valid() && entry.lastUsed == entry.loadedAt
      modifies this
      ensures Valid() && activeRequests == old(activeRequests)
      ensures models == old(models)[entry.info.id := entry]
    {
      models := models[entry.info.id := entry];
    }

    method LoadModel(modelId: string, quantization: Option<string>, host: Host, now: nat)
      returns (r: Result<string, RegistryError>)
      requires Valid()
      modifies this
      ensures Valid() && activeRequests == old(activeRequests)
      ensures var path := ModelPath(directory, modelId);
        var parts := ExtendedTransformer.CreateParts(path, host.target, host.probe, host.load);
        if path !in host.files then
          r == Err(ModelFileNotFound(path)) && models == old(models)
        else if parts.Err? then
          r == Err(EngineFailed(parts.error)) && models == old(models)
        else
          r == Ok(modelId) && modelId in models &&
          models == old(models)[modelId := models[modelId]] &&
          models[modelId] == NewEntry(LoadInfo(directory, modelId, quantization, host.files[path], contextWindow),
                                      models[modelId].engine, now) &&
          fresh(models[modelId].engine) && models[modelId].engine.config == parts.value.config
    {
      var path := ModelPath(directory, modelId);
      if path !in host.files {
        return Err(ModelFileNotFound(path));
      }
      var engine := ExtendedTransformer.Create(path, host.target, host.probe, host.load);
      if engine.Err? {
        return Err(EngineFailed(engine.error));
      }
      var info := LoadInfo(directory, modelId, quantization, host.files[path], contextWindow);
      Register(NewEntry(info, engine.value, now));
      r := Ok(info.id);
    }

    /** `unload_model`: removes the entry, failing when there is none. */
    method UnloadModel(modelId: string) returns (r: Result<(), RegistryError>)
      requires Valid()
      modifies this
      ensures Valid() && activeRequests == old(activeRequests)
      ensures r.Ok? <==> modelId in old(models)
      ensures r.Err? ==> r.error == ModelNotFound(modelId)
      ensures models == old(models) - {modelId}
    {
      if modelId !in models {
        return Err(ModelNotFound(modelId));
      }
      models := models - {modelId};
      r := Ok(());
    }

    /** `get_model`: a copy of the entry, sharing its engine. */
    function GetModel(modelId: string): (r: Option<LoadedModel>)
      reads this
      ensures r.Some? <==> modelId in models
      ensures r.Some? ==> r.value == models[modelId]
    {
      if modelId in models then Some(models[modelId]) else None
    }

    /** `list_models`: the description of every entry, in iteration order. */
    function ListModels(order: seq<string>): (r: seq<ModelInfo>)
      requires Enumerates(order, models)
      reads this
      ensures |r| == |order|
      ensures forall i :: 0 <= i < |r| ==> r[i] == models[order[i]].info
    {
      var entries := models;
      seq(|order|, i requires 0 <= i < |order| => entries[order[i]].info)
    }

    /**
     * `enforce_model_limits`: over the limit, scan the entries in
     * iteration order for the one used longest ago (strictly before
     * `now`) and unload it.
     */
    method EnforceModelLimits(order: seq<string>, now: nat) returns (r: Result<(), RegistryError>)
      requires Valid() && Enumerates(order, models)
      modifies this
      ensures Valid() && activeRequests == old(activeRequests)
      ensures r.Ok?
      ensures models == Enforced(old(models), maxLoadedModels, order, now)
    {
      if |models| > maxLoadedModels {
        var oldest: Option<string> := None;
        var oldestTime := now;
        for i := 0 to |order|
          invariant (oldest, oldestTime) == Scan(order[..i], models, now)
        {
          var k := order[i];
          assert order[..i + 1][..i] == order[..i];
          if models[k].lastUsed < oldestTime {
            oldest := Some(k);
            oldestTime := models[k].lastUsed;
          }
        }
        assert order[..|order|] == order;
        if oldest.Some? {
          // The key was just found, so this unload cannot fail.
          var _ := UnloadModel(oldest.value);
        }
      }
      r := Ok(());
    }

    /**
     * The statistics update after a completed generation: one more request,
     * the completion tokens added (both atomic 64-bit counters, which wrap)
     * and the inference time, if the model is still registered.
     */
    method RecordInference(modelId: string, completionTokens: nat, now: nat)
      requires Valid()
      modifies this
      ensures Valid() && activeRequests == old(activeRequests)
      ensures modelId !in old(models) ==> models == old(models)
      ensures modelId in old(models) ==> models == Recorded(old(models), modelId, completionTokens, now)
    {
      if modelId in models {
        models := Recorded(models, modelId, completionTokens, now);
      }
    }
  }

  // -----------------------------------------------------------------------
  // Model-management endpoints

  datatype LoadModelResponse = LoadModelResponse(success: bool, modelId: string, message: string)
  datatype UnloadModelResponse = UnloadModelResponse(success: bool, message: string)
  datatype ModelsListResponse = ModelsListResponse(models: seq<ModelInfo>, total: nat)

  /**
   * The text of a registry error: a missing file names its path between
   * double quotes, as Rust's `{:?}` prints a path (without escaping), and a
   * missing model names its id as it is.
   */
  function ErrorText(e: RegistryError): (r: string)
    ensures e.ModelFileNotFound? ==>
      |r| == |e.path| + 24 && r[..23] == "Model file not found: \"" && r[23..|r| - 1] == e.path && r[|r| - 1] == '"'
    ensures e.ModelNotFound? ==> |r| == |e.id| + 17 && r[..17] == "Model not found: " && r[17..] == e.id
    ensures e.EngineFailed? ==> r == e.message
  {
    match e
    case ModelFileNotFound(path) => "Model file not found: \"" + path + "\""
    case EngineFailed(message) => message
    case ModelNotFound(id) => "Model not found: " + id
  }

  /** The load endpoint's reply to the registry's answer for `modelId`. */
  function LoadReply(modelId: string, r: Result<string, RegistryError>): (resp: LoadModelResponse)
    ensures resp.success <==> r.Ok?
    ensures resp.modelId == (if r.Ok? then r.value else modelId)
    ensures r.Ok? ==> resp.message == "Model loaded successfully"
    ensures r.Err? ==> resp.message == "Failed to load model: " + ErrorText(r.error)
  {
    match r
    case Ok(id) => LoadModelResponse(true, id, "Model loaded successfully")
    case Err(e) => LoadModelResponse(false, modelId, "Failed to load model: " + ErrorText(e))
  }

  /** The unload endpoint's reply. */
  function UnloadReply(modelId: string, r: Result<(), RegistryError>): (resp: UnloadModelResponse)
    ensures resp.success <==> r.Ok?
    ensures r.Ok? ==> resp.message == "Model " + modelId + " unloaded successfully"
    ensures r.Err? ==> resp.message == "Failed to unload model: " + ErrorText(r.error)
  {
    match r
    case Ok(_) => UnloadModelResponse(true, "Model " + modelId + " unloaded successfully")
    case Err(e) => UnloadModelResponse(false, "Failed to unload model: " + ErrorText(e))
  }

  /** POST /api/v1/models/{id}/load: enforce the limit, then load. */
  method HandleLoadModel(state: AppState, modelId: string, quantization: Option<string>,
                         order: seq<string>, host: Host, now: nat)
    returns (resp: LoadModelResponse)
    requires state.Valid() && Enumerates(order, state.models)
    modifies state
    ensures state.Valid() && state.activeRequests == old(state.activeRequests)
    ensures resp.success ==> (resp.modelId == modelId && modelId in state.models &&
      state.models == Enforced(old(state.models), state.maxLoadedModels, order, now)[modelId := state.models[modelId]])
    ensures !resp.success ==> (resp.modelId == modelId &&
      state.models == Enforced(old(state.models), state.maxLoadedModels, order, now))
  {
    // Enforcement never fails, so its error reply cannot be produced.
    var _ := state.EnforceModelLimits(order, now);
    var r := state.LoadModel(modelId, quantization, host, now);
    resp := LoadReply(modelId, r);
  }

  /** POST /api/v1/models/{id}/unload. */
  method HandleUnloadModel(state: AppState, modelId: string) returns (resp: UnloadModelResponse)
    requires state.Valid()
    modifies state
    ensures state.Valid() && state.activeRequests == old(state.activeRequests)
    ensures resp.success <==> modelId in old(state.models)
    ensures state.models == old(state.models) - {modelId}
  {
    var r := state.UnloadModel(modelId);
    resp := UnloadReply(modelId, r);
  }

  /** GET /api/v1/models: every description, and their number. */
  function HandleListModels(state: AppState, order: seq<string>): (resp: ModelsListResponse)
    requires Enumerates(order, state.models)
    reads state
    ensures resp.total == |resp.models| == |state.models|
    ensures forall k :: k in state.models ==> exists i :: 0 <= i < |resp.models| && resp.models[i] == state.models[k].info
  {
    var models := state.ListModels(order);
    EnumerationSize(order, state.models);
    assert forall k :: k in state.models ==> k in order;
    ModelsListResponse(models, |models|)
  }

  /** A sequence without repeats has as many distinct elements as entries. */
  lemma {:induction false} DistinctCount(order: seq<string>)
    requires forall i, j :: 0 <= i < j < |order| ==> order[i] != order[j]
    ensures |set k | k in order| == |order|
  {
    if order != [] {
      var rest := order[1..];
      forall i, j | 0 <= i < j < |rest| ensures rest[i] != rest[j] {
        assert rest[i] == order[i + 1] && rest[j] == order[j + 1];
      }
      DistinctCount(rest);
      assert order[0] !in rest by {
        forall j | 0 <= j < |rest| ensures rest[j] != order[0] {
          assert rest[j] == order[j + 1];
        }
      }
      assert (set k | k in order) == (set k | k in rest) + {order[0]} by {
        assert order == [order[0]] + rest;
      }
    }
  }

  /** An enumeration of the keys is as long as the map. */
  lemma EnumerationSize(order: seq<string>, m: map<string, LoadedModel>)
    requires Enumerates(order, m)
    ensures |order| == |m|
  {
    DistinctCount(order);
    assert m.Keys == set k | k in order;
  }
}
