/**
 * llm_infer.py: the prompt normalisation of `load_prompt` and the steps of
 * `main()` that turn the cache, the profile table and the command-line
 * overrides into the runtime settings and the model path.
 *
 * Which cache record counts as valid is decided by `is_cache_valid`, which the
 * cache module does not define; its answer is the `cacheValid` parameter.
 */
module LlmInfer {
  import opened Wrappers
  import opened Strings
  import opened JsonData
  import opened ProfileManager
  import opened CacheManager
  import opened DiffProfiler
  import opened ModelDownloader

  /** The line the prompt must end with. */
  const Marker := "Commit message:"

  /** Why `main()` stops: a raised exception or `sys.exit(1)`. */
  datatype Failure =
    | PromptNotFound
    | UnknownProfile(name: string)
    | KeyError(key: string)
    | NotSubscriptable(key: string)
    | NotAString(key: string)

  // ---------------------------------------------------------------------------
  // load_prompt

  /**
   * `load_prompt` on the file's contents (`None` when the file does not exist):
   * trailing whitespace is dropped and the marker line is appended unless the
   * text already ends with it.
   */
  function LoadPrompt(content: Option<string>): (r: Result<string, Failure>)
    ensures content.None? <==> r.Err?
    ensures r.Err? ==> r.error == PromptNotFound
    ensures r.Ok? ==> EndsWith(r.value, Marker)
    ensures r.Ok? ==> StartsWith(r.value, RStrip(content.value))
  {
    match content
    case None => Err(PromptNotFound)
    case Some(text) =>
      var prompt := RStrip(text);
      if EndsWith(prompt, Marker) then Ok(prompt) else Ok(prompt + "\n" + Marker)
  }

  /** A text that already ends with the marker loses only its trailing whitespace. */
  lemma MarkedPromptKept(text: string)
    requires EndsWith(RStrip(text), Marker)
    ensures LoadPrompt(Some(text)) == Ok(RStrip(text))
  {
  }

  /** Otherwise exactly one marker line is appended. */
  lemma UnmarkedPromptExtended(text: string)
    requires !EndsWith(RStrip(text), Marker)
    ensures LoadPrompt(Some(text)) == Ok(RStrip(text) + "\n" + Marker)
  {
  }

  /** Normalising a normalised prompt changes nothing. */
  lemma LoadPromptIdempotent(text: string)
    ensures LoadPrompt(Some(text)).Ok?
    ensures LoadPrompt(Some(LoadPrompt(Some(text)).value)) == LoadPrompt(Some(text))
  {
    var p := LoadPrompt(Some(text)).value;
    assert p[|p| - 1] == Marker[|Marker| - 1];
    RStripNoTrailingSpace(p);
  }

  // ---------------------------------------------------------------------------
  // The resolver block of main()

  /** `profile_config[key]` on a JSON value. */
  function Index(v: Json, key: string): (r: Result<Json, Failure>)
    ensures r.Ok? <==> v.JObj? && key in v.fields
    ensures r.Ok? ==> r.value == v.fields[key]
    ensures v.JObj? && key !in v.fields ==> r == Err(KeyError(key))
  {
    match v
    case JObj(fields) => if key in fields then Ok(fields[key]) else Err(KeyError(key))
    case _ => Err(NotSubscriptable(key))
  }

  /** `cached["profile_config"]` on what `load_cache` returned. */
  function CachedConfig(record: map<string, Json>): Result<Json, Failure> {
    Index(JObj(record), "profile_config")
  }

  /** The record both resolvers save after computing a profile. */
  function SavedRecord(config: Json, diffType: DiffCategory): (m: map<string, Json>)
    ensures m.Keys == {"profile_config", "diff_type"}
  {
    map["profile_config" := config, "diff_type" := JStr(Name(diffType))]
  }

  /**
   * The profile choice shared by both resolvers: "auto" runs `get_profile_config`,
   * a table name returns that entry itself, any other name stops the program.
   */
  method SelectProfile(hints: ProfileHints, profileName: string, host: Host) returns (r: Result<Dict, Failure>)
    requires hints.Valid()
    modifies if profileName == "auto" then {hints.Entry(TierFor(host.ramGb))} else {}
    ensures profileName == "auto" ==>
      && r == Ok(hints.Entry(TierFor(host.ramGb)))
      && r.value.items == Tuned(old(r.value.items), host.cpuArch, host.osName)
    ensures profileName != "auto" ==> unchanged(hints.Entry(TierFor(host.ramGb)))
    ensures profileName != "auto" && hints.Lookup(profileName).Some? ==> r == Ok(hints.Lookup(profileName).value)
    ensures profileName != "auto" && hints.Lookup(profileName).None? ==> r == Err(UnknownProfile(profileName))
  {
    if profileName == "auto" {
      var profile := GetProfileConfig(hints, host);
      r := Ok(profile);
    } else {
      var found := hints.Lookup(profileName);
      if found.Some? {
        r := Ok(found.value);
      } else {
        r := Err(UnknownProfile(profileName));
      }
    }
  }

  /**
   * Lines 111-127 of `main()`: a valid cache yields its stored config and
   * nothing is written; otherwise the profile is chosen and saved together
   * with the diff category. The config is returned as the value it has then.
   */
  method ResolveProfileConfig(cache: ProfileCache, hints: ProfileHints, cacheValid: bool,
                              profileName: string, host: Host, diffType: DiffCategory)
    returns (r: Result<Json, Failure>)
    requires hints.Valid()
    modifies cache, hints.Entry(TierFor(host.ramGb))
    ensures cacheValid ==>
      && r == CachedConfig(old(cache.Contents()))
      && unchanged(cache) && unchanged(hints.Entry(TierFor(host.ramGb)))
    ensures !cacheValid && profileName == "auto" ==>
      var entry := hints.Entry(TierFor(host.ramGb));
      && entry.items == Tuned(old(entry.items), host.cpuArch, host.osName)
      && r == Ok(JObj(entry.items))
      && cache.stored == Some(SavedRecord(r.value, diffType))
    ensures !cacheValid && profileName != "auto" && hints.Lookup(profileName).Some? ==>
      && unchanged(hints.Entry(TierFor(host.ramGb)))
      && r == Ok(JObj(hints.Lookup(profileName).value.items))
      && cache.stored == Some(SavedRecord(r.value, diffType))
    ensures !cacheValid && profileName != "auto" && hints.Lookup(profileName).None? ==>
      && r == Err(UnknownProfile(profileName))
      && unchanged(cache) && unchanged(hints.Entry(TierFor(host.ramGb)))
  {
    if cacheValid {
      var cached := cache.LoadCache();
      r := CachedConfig(cached);
      return;
    }
    var chosen := SelectProfile(hints, profileName, host);
    if chosen.Err? {
      r := Err(chosen.error);
      return;
    }
    var config := JObj(chosen.value.items);
    cache.SaveCache(SavedRecord(config, diffType));
    r := Ok(config);
  }

  /** What a resolver saves is what the next cached run reads back. */
  lemma SavedConfigLoadsBack(config: Json, diffType: DiffCategory)
    ensures CachedConfig(SavedRecord(config, diffType)) == Ok(config)
  {
  }

  /** A cache without a `profile_config` key makes the cached path fail. */
  lemma CachedConfigMissing(record: map<string, Json>)
    requires "profile_config" !in record
    ensures CachedConfig(record) == Err(KeyError("profile_config"))
  {
  }

  /**
   * The record a resolver saves holds neither fingerprint key, so under the
   * fingerprint comparison of the cache module it never counts as unchanged.
   */
  lemma SavedRecordAlwaysChanged(config: Json, diffType: DiffCategory, diffHash: string, sig: SystemSignature)
    ensures ProfileChanged(SavedRecord(config, diffType), diffHash, sig)
  {
    assert "last_diff_hash" !in SavedRecord(config, diffType);
  }

  /**
   * A fresh run followed by a cached run sees the same config, and the second
   * run writes nothing: the store still holds the record the first run saved.
   */
  method ResolveThenReuse(cache: ProfileCache, hints: ProfileHints, profileName: string,
                          host: Host, diffType: DiffCategory)
    returns (first: Result<Json, Failure>, second: Result<Json, Failure>)
    requires hints.Valid()
    modifies cache, hints.Entry(TierFor(host.ramGb))
    ensures first.Ok? ==> second == first
    ensures first.Ok? ==> cache.stored == Some(SavedRecord(first.value, diffType))
    ensures first.Err? ==> first == Err(UnknownProfile(profileName))
  {
    first := ResolveProfileConfig(cache, hints, false, profileName, host, diffType);
    second := ResolveProfileConfig(cache, hints, true, profileName, host, diffType);
    if first.Ok? {
      SavedConfigLoadsBack(first.value, diffType);
    }
  }

  // ---------------------------------------------------------------------------
  // Overrides

  /** The `--n_ctx`, `--n_threads`, `--n_batch` and `--n_gpu_layers` arguments; `None` when absent. */
  datatype Overrides = Overrides(nCtx: Option<int>, nThreads: Option<int>, nBatch: Option<int>, nGpuLayers: Option<int>)

  /** The four values handed to the model. */
  datatype RuntimeSettings = RuntimeSettings(nCtx: Json, nThreads: int, nBatch: Json, nGpuLayers: Json)

  /** Python truthiness of an optional integer argument: given and non-zero. */
  predicate Truthy(arg: Option<int>) {
    arg.Some? && arg.value != 0
  }

  /** `arg or profile_config[key]`: the config is only read when the argument is falsy. */
  function OrConfig(arg: Option<int>, config: Json, key: string): Result<Json, Failure> {
    if Truthy(arg) then Ok(JInt(arg.value)) else Index(config, key)
  }

  /** Lines 130-133 of `main()`, evaluated in order; the first failing lookup stops it. */
  function ApplyOverrides(ov: Overrides, config: Json): (r: Result<RuntimeSettings, Failure>)
    ensures r.Ok? ==> r.value.nThreads == (if Truthy(ov.nThreads) then ov.nThreads.value else 4)
    ensures r.Ok? <==>
      OrConfig(ov.nCtx, config, "n_ctx").Ok? && OrConfig(ov.nBatch, config, "n_batch").Ok?
      && OrConfig(ov.nGpuLayers, config, "n_gpu_layers").Ok?
    ensures r.Ok? ==>
      && r.value.nCtx == OrConfig(ov.nCtx, config, "n_ctx").value
      && r.value.nBatch == OrConfig(ov.nBatch, config, "n_batch").value
      && r.value.nGpuLayers == OrConfig(ov.nGpuLayers, config, "n_gpu_layers").value
  {
    var nCtx := OrConfig(ov.nCtx, config, "n_ctx");
    if nCtx.Err? then Err(nCtx.error)
    else
      var nThreads := if Truthy(ov.nThreads) then ov.nThreads.value else 4;
      var nBatch := OrConfig(ov.nBatch, config, "n_batch");
      if nBatch.Err? then Err(nBatch.error)
      else
        var nGpuLayers := OrConfig(ov.nGpuLayers, config, "n_gpu_layers");
        if nGpuLayers.Err? then Err(nGpuLayers.error)
        else Ok(RuntimeSettings(nCtx.value, nThreads, nBatch.value, nGpuLayers.value))
  }

  /** The value a setting takes over a table entry: the argument when truthy, the entry's otherwise. */
  function Pick(arg: Option<int>, fromProfile: int): int {
    if Truthy(arg) then arg.value else fromProfile
  }

  /**
   * Over any profile of the table, possibly tuned for a Mac, the overrides
   * always resolve: each setting is the argument when it is truthy and the
   * profile's value otherwise; an explicit 0 therefore falls back.
   */
  lemma OverridesOverProfile(ov: Overrides, h: ProfileHint, cpuArch: string, osName: string)
    ensures var items := Tuned(HintItems(h), cpuArch, osName);
      var gpu := if IsAppleSilicon(cpuArch, osName) then 1 else h.nGpuLayers;
      ApplyOverrides(ov, JObj(items)) == Ok(RuntimeSettings(
        JInt(Pick(ov.nCtx, h.nCtx)), Pick(ov.nThreads, 4), JInt(Pick(ov.nBatch, h.nBatch)),
        JInt(Pick(ov.nGpuLayers, gpu))))
  {
  }

  /** `--n_ctx 0` is the same as leaving it out. */
  lemma ZeroOverrideFallsBack(ov: Overrides, config: Json)
    requires ov.nCtx == Some(0)
    ensures ApplyOverrides(ov, config) == ApplyOverrides(ov.(nCtx := None), config)
  {
  }

  /** A config without `n_ctx` fails unless `--n_ctx` is truthy, and the later keys are then not read. */
  lemma MissingContextFails(ov: Overrides, fields: map<string, Json>)
    requires !Truthy(ov.nCtx) && "n_ctx" !in fields
    ensures ApplyOverrides(ov, JObj(fields)) == Err(KeyError("n_ctx"))
  {
  }

  /** With every override truthy the config is never read, whatever it is. */
  lemma FullOverridesIgnoreConfig(ov: Overrides, c1: Json, c2: Json)
    requires Truthy(ov.nCtx) && Truthy(ov.nBatch) && Truthy(ov.nGpuLayers)
    ensures ApplyOverrides(ov, c1) == ApplyOverrides(ov, c2)
    ensures ApplyOverrides(ov, c1).Ok?
  {
  }

  // ---------------------------------------------------------------------------
  // Model path

  /**
   * Lines 136-139 of `main()`: `--model` when given and non-empty, otherwise the
   * file named after the config's quant in the models directory.
   */
  function ModelPath(modelArg: Option<string>, config: Json, modelDir: string): (r: Result<string, Failure>)
    ensures modelArg.Some? && modelArg.value != "" ==> r == Ok(modelArg.value)
    ensures (modelArg.None? || modelArg.value == "") && Index(config, "quant").Err? ==>
      r == Err(Index(config, "quant").error)
  {
    if modelArg.Some? && modelArg.value != "" then Ok(modelArg.value)
    else
      match Index(config, "quant")
      case Err(e) => Err(e)
      case Ok(JStr(quant)) => Ok(modelDir + "/" + ModelFileName(quant))
      case Ok(_) => Err(NotAString("quant"))
  }

  /** A config carrying a quant names that quant's GGUF file in the models directory. */
  lemma QuantNamesModelFile(items: map<string, Json>, quant: string, modelDir: string)
    ensures ModelPath(None, JObj(items["quant" := JStr(quant)]), modelDir) == Ok(modelDir + "/" + ModelFileName(quant))
    ensures ModelPath(Some(""), JObj(items["quant" := JStr(quant)]), modelDir) == Ok(modelDir + "/" + ModelFileName(quant))
  {
  }

  /**
   * A table entry as `main()` resolves it has no `quant` key, so without
   * `--model` the path cannot be built from a freshly resolved profile.
   */
  lemma FreshProfileHasNoQuant(h: ProfileHint, cpuArch: string, osName: string, modelDir: string)
    ensures ModelPath(None, JObj(Tuned(HintItems(h), cpuArch, osName)), modelDir) == Err(KeyError("quant"))
  {
    assert "quant" !in Tuned(HintItems(h), cpuArch, osName);
  }
}
