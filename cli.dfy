/**
 * cli.py: the `log` visibility rule, the resolver block of `cli()` (which,
 * unlike the one of llm_infer.py, runs the model selector and writes the chosen
 * quant into the profile dict) and the model path built from its result.
 *
 * As in llm_infer.py, the answer of the missing `is_cache_valid` is the
 * `cacheValid` parameter.
 */
module Cli {
  import opened Wrappers
  import opened Strings
  import opened JsonData
  import opened ProfileManager
  import opened CacheManager
  import opened ModelDownloader
  import DiffProfiler
  import LlmInfer

  // ---------------------------------------------------------------------------
  // log

  /** The check mark that marks a success message. */
  const CheckMark: char := '\U{2714}'

  /** Whether `log(msg, verbose, quiet, always)` prints. */
  predicate ShouldLog(msg: string, verbose: bool, quiet: bool, always: bool) {
    always || (!quiet && (verbose || !StartsWith(msg, [CheckMark])))
  }

  /** Printing happens exactly in these three situations. */
  lemma ShouldLogCases(msg: string, verbose: bool, quiet: bool, always: bool)
    ensures ShouldLog(msg, verbose, quiet, always) <==>
      always || (!quiet && verbose) || (!quiet && (|msg| == 0 || msg[0] != CheckMark))
  {
  }

  /** `--quiet` silences everything that is not forced. */
  lemma QuietSilences(msg: string, verbose: bool)
    ensures !ShouldLog(msg, verbose, true, false)
    ensures ShouldLog(msg, verbose, true, true)
  {
  }

  /** Without flags, success messages are hidden and every other message is shown. */
  lemma SuccessMessagesNeedVerbose(rest: string, other: string)
    requires |other| == 0 || other[0] != CheckMark
    ensures !ShouldLog([CheckMark] + rest, false, false, false)
    ensures ShouldLog([CheckMark] + rest, true, false, false)
    ensures ShouldLog(other, false, false, false)
  {
    assert ([CheckMark] + rest)[..1] == [CheckMark];
  }

  // ---------------------------------------------------------------------------
  // The resolver block of cli()

  /** Why `cli()` stops inside the resolver. */
  datatype CliFailure =
    | Resolve(failure: LlmInfer.Failure)
    | Selection(error: SelectError)

  /** The dict the live path works on: the tier's entry for "auto", the named entry otherwise. */
  function Chosen(hints: ProfileHints, profileName: string, host: Host): Option<Dict>
    reads hints
  {
    if profileName == "auto" then Some(hints.Entry(TierFor(host.ramGb))) else hints.Lookup(profileName)
  }

  /** The dicts the live path may change: the chosen one, if any. */
  function ChosenSet(hints: ProfileHints, profileName: string, host: Host): set<Dict>
    reads hints
  {
    var c := Chosen(hints, profileName, host);
    if c.Some? then {c.value} else {}
  }

  /** What the chosen dict holds before the selector runs. */
  function Prepared(items: map<string, Json>, profileName: string, host: Host): map<string, Json> {
    if profileName == "auto" then Tuned(items, host.cpuArch, host.osName) else items
  }

  /** The downloads the selector performs for an answer: none when a key has no word or the answer is rejected. */
  function SelectorDownloads(models: seq<ModelEntry>, userInput: string, existing: set<string>, failing: set<string>)
    : seq<DownloadAction>
  {
    var chosen := SelectIndices(Keys(models), DefaultSelection, userInput);
    if !KeysNamed(Keys(models)) || chosen.Err? then [] else Plan(models, chosen.value, existing, failing).0
  }

  /** The selector over the catalogue: the downloads it performs and the quant it returns. */
  method RunSelector(models: seq<ModelEntry>, userInput: string, existing: set<string>, failing: set<string>)
    returns (downloads: seq<DownloadAction>, quant: Result<string, SelectError>)
    ensures downloads == SelectorDownloads(models, userInput, existing, failing)
    ensures quant == SelectedQuant(Keys(models), DefaultSelection, userInput)
  {
    downloads, quant := InteractiveModelSelector(models, DefaultSelection, userInput, existing, failing);
  }

  /** The cached path's result with the failure type of `cli()`. */
  function FromCache(record: map<string, Json>): Result<Json, CliFailure> {
    var c := LlmInfer.CachedConfig(record);
    if c.Ok? then Ok(c.value) else Err(Resolve(c.error))
  }

  /**
   * What the live path leaves behind. An unknown profile name stops with
   * nothing downloaded and nothing saved. Otherwise the selector performs its
   * downloads (`planned`) and its answer (`quant`) is applied to the chosen dict.
   */
  twostate predicate LiveResolved(cache: ProfileCache, hints: ProfileHints, profileName: string, host: Host,
                                  new quant: Result<string, SelectError>, new planned: seq<DownloadAction>,
                                  new diffType: DiffProfiler.DiffCategory,
                                  new r: Result<Json, CliFailure>, new downloads: seq<DownloadAction>)
    reads cache, hints, ChosenSet(hints, profileName, host)
  {
    match Chosen(hints, profileName, host)
    case None =>
      && r == Err(Resolve(LlmInfer.UnknownProfile(profileName))) && downloads == [] && unchanged(cache)
    case Some(d) =>
      && downloads == planned
      && SelectionApplied(cache, d, Prepared(old(d.items), profileName, host), quant, diffType, r)
  }

  /**
   * The selector's answer applied to the chosen dict, which held `prepared`: a
   * selection failure stops with nothing saved; a quant is stored into the dict
   * itself, and that dict is saved with the diff category.
   */
  twostate predicate SelectionApplied(cache: ProfileCache, d: Dict, new prepared: map<string, Json>,
                                      new quant: Result<string, SelectError>, new diffType: DiffProfiler.DiffCategory,
                                      new r: Result<Json, CliFailure>)
    reads cache, d
  {
    && (quant.Err? ==>
          && r == Err(Selection(quant.error))
          && d.items == prepared
          && unchanged(cache))
    && (quant.Ok? ==>
          && d.items == prepared["quant" := JStr(quant.value)]
          && r == Ok(JObj(d.items))
          && cache.stored == Some(LlmInfer.SavedRecord(r.value, diffType)))
  }

  /**
   * The live path of the resolver: the profile is chosen (an unknown name stops
   * before the selector and before any write), the selector runs, its quant is
   * stored into the chosen PROFILE_HINTS dict itself, and that dict is saved
   * together with the diff category. No other dict of the table changes.
   */
  method ResolveLive(cache: ProfileCache, hints: ProfileHints, profileName: string, host: Host,
                     diffType: DiffProfiler.DiffCategory, models: seq<ModelEntry>, userInput: string,
                     existing: set<string>, failing: set<string>)
    returns (r: Result<Json, CliFailure>, downloads: seq<DownloadAction>)
    requires hints.Valid()
    modifies cache, ChosenSet(hints, profileName, host)
    ensures LiveResolved(cache, hints, profileName, host, SelectedQuant(Keys(models), DefaultSelection, userInput),
                         SelectorDownloads(models, userInput, existing, failing), diffType, r, downloads)
  {
    var chosen := LlmInfer.SelectProfile(hints, profileName, host);
    if chosen.Err? {
      assert Chosen(hints, profileName, host).None?;
      r, downloads := Err(Resolve(chosen.error)), [];
      return;
    }
    var profile := chosen.value;
    assert Chosen(hints, profileName, host) == Some(profile);
    ghost var prepared := profile.items;
    assert prepared == Prepared(old(profile.items), profileName, host);
    var quant;
    downloads, quant := RunSelector(models, userInput, existing, failing);
    assert profile.items == prepared;
    r := StoreQuant(cache, profile, quant, diffType);
  }

  /**
   * Lines 72-77 once the selector has answered: a selection failure stops with
   * nothing written; otherwise the quant is stored into the chosen dict itself
   * and that dict is saved with the diff category.
   */
  method StoreQuant(cache: ProfileCache, profile: Dict, quant: Result<string, SelectError>,
                    diffType: DiffProfiler.DiffCategory)
    returns (r: Result<Json, CliFailure>)
    modifies cache, profile
    ensures SelectionApplied(cache, profile, old(profile.items), quant, diffType, r)
  {
    if quant.Err? {
      r := Err(Selection(quant.error));
      return;
    }
    profile.items := profile.items["quant" := JStr(quant.value)];
    var config := JObj(profile.items);
    cache.SaveCache(LlmInfer.SavedRecord(config, diffType));
    r := Ok(config);
  }

  /**
   * Lines 53-77 of `cli()`. A valid cache without a reset request yields the
   * stored config and touches nothing: no selector call and no save. Otherwise,
   * and always when a reset is requested, the live path runs.
   */
  method ResolveProfileConfig(cache: ProfileCache, hints: ProfileHints, cacheValid: bool, resetSelection: bool,
                              profileName: string, host: Host, diffType: DiffProfiler.DiffCategory,
                              models: seq<ModelEntry>, userInput: string, existing: set<string>, failing: set<string>)
    returns (r: Result<Json, CliFailure>, downloads: seq<DownloadAction>)
    requires hints.Valid()
    modifies cache, ChosenSet(hints, profileName, host)
    ensures cacheValid && !resetSelection ==>
      && r == FromCache(old(cache.Contents())) && downloads == []
      && unchanged(cache) && unchanged(ChosenSet(hints, profileName, host))
    ensures !(cacheValid && !resetSelection) ==>
      LiveResolved(cache, hints, profileName, host, SelectedQuant(Keys(models), DefaultSelection, userInput),
                   SelectorDownloads(models, userInput, existing, failing), diffType, r, downloads)
  {
    if cacheValid && !resetSelection {
      var cached := cache.LoadCache();
      r, downloads := FromCache(cached), [];
      return;
    }
    r, downloads := ResolveLive(cache, hints, profileName, host, diffType, models, userInput, existing, failing);
  }

  /**
   * After a blank answer on a host that is not an ARM Mac, "auto" leaves the
   * tier's entry with its initial values plus `quant = "IQ3_S"`, and that dict
   * is what the cache now holds.
   */
  method DefaultAnswerResolution(cache: ProfileCache, hints: ProfileHints, host: Host,
                                 diffType: DiffProfiler.DiffCategory, userInput: string,
                                 existing: set<string>, failing: set<string>)
    returns (r: Result<Json, CliFailure>)
    requires hints.Valid()
    requires Strip(userInput) == ""
    requires !IsAppleSilicon(host.cpuArch, host.osName)
    requires forall t :: hints.Entry(t).items == HintItems(InitialHint(t))
    modifies cache, hints.Entry(TierFor(host.ramGb))
    ensures var expected := HintItems(InitialHint(TierFor(host.ramGb)))["quant" := JStr("IQ3_S")];
      && r == Ok(JObj(expected))
      && hints.Entry(TierFor(host.ramGb)).items == expected
      && cache.stored == Some(LlmInfer.SavedRecord(JObj(expected), diffType))
  {
    BlankAnswerTakesDefaults(userInput);
    ghost var entry := hints.Entry(TierFor(host.ramGb));
    assert Prepared(entry.items, "auto", host) == entry.items;
    var downloads;
    r, downloads := ResolveProfileConfig(cache, hints, false, false, "auto", host, diffType, Phi3Models, userInput, existing, failing);
    assert entry.items == old(entry.items)["quant" := JStr("IQ3_S")];
  }

  /** A reset request bypasses a valid cache: an unknown profile name then stops the program. */
  method ResetIgnoresCache(cache: ProfileCache, hints: ProfileHints, profileName: string, host: Host,
                           diffType: DiffProfiler.DiffCategory, userInput: string,
                           existing: set<string>, failing: set<string>)
    returns (r: Result<Json, CliFailure>)
    requires hints.Valid()
    requires Chosen(hints, profileName, host).None?
    modifies cache
    ensures r == Err(Resolve(LlmInfer.UnknownProfile(profileName)))
    ensures unchanged(cache)
  {
    var downloads;
    r, downloads := ResolveProfileConfig(cache, hints, true, true, profileName, host, diffType, Phi3Models, userInput, existing, failing);
  }

  // ---------------------------------------------------------------------------
  // Model path

  /**
   * Lines 87-90 of `cli()`: after a live resolution without `--model`, the path
   * is the selected quant's GGUF file in the models directory, and that is the
   * name under which the selector stored the download.
   */
  lemma ResolvedModelPath(items: map<string, Json>, k: nat, modelDir: string)
    requires k < |Phi3Models|
    ensures LlmInfer.ModelPath(None, JObj(items["quant" := JStr(Phi3Quants[k])]), modelDir)
      == Ok(modelDir + "/" + FileName(Phi3Models[k].url))
  {
    LlmInfer.QuantNamesModelFile(items, Phi3Quants[k], modelDir);
    CatalogueConsistent(k);
  }

  /** A cached config without a quant cannot give a path unless `--model` is given. */
  lemma CachedConfigNeedsQuant(fields: map<string, Json>, modelArg: Option<string>, modelDir: string)
    requires "quant" !in fields
    ensures LlmInfer.ModelPath(modelArg, JObj(fields), modelDir).Ok? <==> modelArg.Some? && modelArg.value != ""
  {
  }
}
