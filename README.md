# gitcommitai in Dafny

gitcommitai writes Git commit messages with a local Phi-3 model. Before the
model runs, the tool works out several things:

- how large the staged diff is;
- which hardware profile of `PROFILE_HINTS` fits the machine;
- whether a cached profile can be reused;
- which quantized model file the user wants, downloading it if needed;
- which runtime settings (`n_ctx`, `n_threads`, `n_batch`, `n_gpu_layers`) and
  which model path are handed to the model.

Around that sit some small routines:

- the prompt suffix normalisation;
- the placeholder substitution of the prompt builder;
- the `log` visibility rule;
- the preview / edit / commit decision after generation.

This project models that logic and proves properties of it. Everything the
program reads from the outside world is a parameter of the model: the output
of `git diff --cached`, the host's RAM, CPU architecture and operating system,
the text typed at the selector prompt, the files already on disk, the downloads
that fail and the text left in the editor.

One module per source file, plus three shared modules:

- `Wrappers`: `Option` and `Result`.
- `Strings`: the Python `str` operations the source uses (`strip`, `rstrip`,
  `split`, `join`, `replace`, `count`, `in`, `lower`, `int`, `split()[0]`) over
  `seq<char>`.
- `JsonData`: JSON values, plus the `Dict` class, a Python dict object that
  several names can share.

The modules:

- `DiffProfiler`. It holds the nine ordered categories,
  the first-match threshold chain, the hint table with its fallback, the
  newline/length statistics and their composition.
- `ProfileManager`.
  - `PROFILE_HINTS` is a class with three `Dict` objects.
  - `GetProfileConfig` returns the tier's entry itself and sets its
    `n_gpu_layers` in place on an ARM Mac. The change therefore outlives the
    call.
- `CacheManager`. `ProfileCache` holds the
  optional stored record. `LoadCache`, `SaveCache`, `IsProfileChanged` and
  `UpdateCache` are its methods, and the system signature is a record.
- `ModelDownloader`. It models:
  - the menu loop's `key.split()[0]`, which raises for a key without a word
    before any answer is read;
  - the answer parsing (blank means defaults; otherwise comma-separated 1-based
    positions, every piece checked);
  - the default selection by substring;
  - URL → file name and label → quant;
  - the download loop as a method proved against the `Plan` function.
- `LlmInfer`. It covers `load_prompt`, the resolver block
  of `main()` as a method over the cache and the table, the `or`-based override
  merge, and the model path.
- `Cli`. It covers the `log` predicate and the resolver block of
  `cli()`. That block also runs the selector and writes the quant into the
  chosen `PROFILE_HINTS` dict itself before saving it. It also covers the model
  path that follows.
- `CommitWrite`. `handle_commit_flow` records its
  side effects as a list of actions and is proved against the `Flow` function.
- `PromptBuilder`. `fill_prompt` checks the template
  first, then the diff, and writes the output object only on success.

**The cache.** Both resolvers call `is_cache_valid`, `load_cache(path)` and
`save_cache(path, data)`. cache_manager.py defines no `is_cache_valid`, and its
`load_cache` and `save_cache` take no path. The model therefore makes the
validity answer a parameter (`cacheValid`) and uses the one-record store as
defined.

**The saved record.** The resolvers save `{"profile_config", "diff_type"}`.
They never save the `(diff hash, system signature)` fingerprint that
`is_profile_changed` compares. `LlmInfer.SavedRecordAlwaysChanged` proves that
such a record always counts as changed under that comparison.

**The runtime hint.** Neither resolver consults the `runtime_hint` that
diff_profiler.py computes. Only the category name is stored. The model keeps
both resolvers as written.

**A property that does not hold.** It is natural to expect that, when the diff
contains no placeholder, the output of prompt_builder.py contains none either.
That is not so: a `{` in front of a placeholder joins the braces of the diff.
`PromptBuilder.PlaceholderCanReappear` exhibits such an input. The model proves
the exact characterisation instead: the output is the placeholder-free pieces
of the stripped template, joined by the stripped diff.

## Model

| member | source | states |
|---|---|---|
| JsonData.Get | src/gitcommitai/cache_manager.py:51-52 | `dict.get` yields the stored value for a present key and null for an absent one |
| CacheManager.SignatureJson | src/gitcommitai/cache_manager.py:40-46 | the signature dict of `get_system_signature`; `SignatureJsonInjective` proves it determines the signature |
| CacheManager.FingerprintRecord | src/gitcommitai/cache_manager.py:57-61 | the record `update_cache` writes; `FingerprintKeys` and `RecordedFingerprint` state its keys and how it compares |
| CacheManager.ProfileChanged | src/gitcommitai/cache_manager.py:49-54 | the comparison of `is_profile_changed`; `UnchangedIffStoredMatch` and `EmptyCacheChanged` state when it holds |
| CacheManager.ProfileCache.constructor | src/gitcommitai/cache_manager.py:24-28 | a checkout without a cache file has no stored record |
| CacheManager.ProfileCache.LoadCache | src/gitcommitai/cache_manager.py:24-28 | the stored record is returned, `{}` when there is none |
| CacheManager.ProfileCache.SaveCache | src/gitcommitai/cache_manager.py:31-33 | the record becomes exactly the given data; nothing is merged |
| CacheManager.ProfileCache.IsProfileChanged | src/gitcommitai/cache_manager.py:49-54 | the answer is true iff the stored hash or signature (null when absent) differs from the current one; the record is not modified |
| CacheManager.ProfileCache.UpdateCache | src/gitcommitai/cache_manager.py:57-61 | the record becomes exactly the two-key fingerprint, dropping everything else |
| CacheManager.SaveThenLoad | src/gitcommitai/cache_manager.py:24-33 | a save followed by a load returns the saved data |
| CacheManager.UpdateThenCheck | src/gitcommitai/cache_manager.py:49-61 | after recording `(h, s)`, a check of `(h', s')` reports a change iff `h' != h` or `s' != s` |
| CacheManager.SignatureJsonInjective | src/gitcommitai/cache_manager.py:40-46 | two signatures give equal dicts iff they are equal |
| CacheManager.RecordedFingerprint | src/gitcommitai/cache_manager.py:49-61 | the recorded fingerprint is reported unchanged, and any other is reported changed |
| CacheManager.EmptyCacheChanged | src/gitcommitai/cache_manager.py:50-54 | with nothing stored, every fingerprint counts as changed |
| CacheManager.UnchangedIffStoredMatch | src/gitcommitai/cache_manager.py:49-54 | unchanged iff both keys are stored and equal to the current hash and signature |
| CacheManager.FingerprintKeys | src/gitcommitai/cache_manager.py:57-61 | the written record has exactly the keys `last_diff_hash` and `last_system_signature` |
| ProfileManager.TierFor | src/gitcommitai/profile_manager.py:18-23 | the RAM thresholds; `TierBoundaries` and `TierMonotone` state them |
| ProfileManager.IsAppleSilicon | src/gitcommitai/profile_manager.py:26 | the Darwin plus lower-cased "arm" test; `AppleSiliconExamples` states its cases |
| ProfileManager.Tuned | src/gitcommitai/profile_manager.py:26-27 | the entry after the ARM-Mac override; `OverrideWins` and `NoOverrideElsewhere` state both cases |
| ProfileManager.ProfileHints.constructor | src/gitcommitai/profile_manager.py:5-9 | three distinct dicts holding 256/24/0, 512/42/8 and 1024/64/16 |
| ProfileManager.ProfileHints.Lookup | src/gitcommitai/cli.py:64-65 | a name is found iff it is `low`, `medium` or `high`, and then it yields that tier's shared dict |
| ProfileManager.GetProfileConfig | src/gitcommitai/profile_manager.py:11-29 | returns the RAM tier's own table entry; only that entry changes, and only its `n_gpu_layers`, set to 1 on an ARM Mac |
| ProfileManager.OverrideOutlivesCall | src/gitcommitai/profile_manager.py:19-27 | after an ARM-Mac call, a later call for the same tier on any host returns the same dict with `n_gpu_layers == 1` |
| ProfileManager.TierBoundaries | src/gitcommitai/profile_manager.py:18-23 | low iff `ram <= 8`, medium iff `8 < ram <= 16`, high iff `ram > 16` |
| ProfileManager.TierMonotone | src/gitcommitai/profile_manager.py:18-23 | more RAM never selects a lower tier |
| ProfileManager.HintsIncreasing | src/gitcommitai/profile_manager.py:5-9 | higher tiers have strictly larger `n_ctx`, `n_batch` and `n_gpu_layers` |
| ProfileManager.OverrideWins | src/gitcommitai/profile_manager.py:26-27 | on an ARM Mac `n_gpu_layers` becomes 1 and every other key keeps its value |
| ProfileManager.NoOverrideElsewhere | src/gitcommitai/profile_manager.py:26-29 | off macOS, or without "arm" in the lower-cased architecture, the entry is returned unchanged |
| ProfileManager.AppleSiliconExamples | src/gitcommitai/profile_manager.py:26 | the test is case-insensitive (`ARM64` counts) and needs Darwin |
| ProfileManager.SixteenGbMac | src/gitcommitai/profile_manager.py:20-27 | a 16 GB ARM Mac gets the medium profile with one GPU layer |
| DiffProfiler.ClassifyDiff | src/gitcommitai/diff_profiler.py:39-57 | the first-match threshold chain; the lemmas below state its boundaries, monotonicity and examples |
| DiffProfiler.GetRuntimeHint | src/gitcommitai/diff_profiler.py:60-73 | the table lookup with its fallback; `HintDefined`, `HintsOrdered` and `UnknownCategoryFallsBack` state it |
| DiffProfiler.ClassifyDiffSize | src/gitcommitai/diff_profiler.py:76-81 | stats, category and hint composed; `ProfileConsistent` states their agreement |
| DiffProfiler.GetDiffStats | src/gitcommitai/diff_profiler.py:25-36 | a non-zero git exit gives `(0, 0)`; otherwise chars is the length and lines the newline count, at most chars and 0 iff there is no newline |
| DiffProfiler.VeryTinyIff | src/gitcommitai/diff_profiler.py:40-41 | `very_tiny` iff `lines < 5` and `chars < 200` |
| DiffProfiler.FiveLinesIsTiny | src/gitcommitai/diff_profiler.py:40-43 | the line bound is strict: 4 lines are `very_tiny`, 5 are `tiny` |
| DiffProfiler.CharGatedTiers | src/gitcommitai/diff_profiler.py:40-45 | the two lowest tiers need both bounds; below 20 lines anything else is `very_small` |
| DiffProfiler.DenseSmallDiff | src/gitcommitai/diff_profiler.py:40-45 | 3 lines of 500 characters fall through to `very_small` |
| DiffProfiler.LinesDecideFromTen | src/gitcommitai/diff_profiler.py:44-57 | from 10 lines on, the character count does not matter |
| DiffProfiler.MonotoneInLines | src/gitcommitai/diff_profiler.py:39-57 | more lines never give an earlier category |
| DiffProfiler.MonotoneInChars | src/gitcommitai/diff_profiler.py:39-57 | more characters never give an earlier category |
| DiffProfiler.VeryHugeIff | src/gitcommitai/diff_profiler.py:54-57 | `very_huge` iff `lines >= 500`, whatever the characters |
| DiffProfiler.ClassifyExamples | tests/test_diff_profiler.py:9-24 | the nine sample inputs land in the nine categories in order |
| DiffProfiler.HintTableKeys | src/gitcommitai/diff_profiler.py:62-72 | the table has exactly one entry per category name, and the names are distinct |
| DiffProfiler.HintDefined | src/gitcommitai/diff_profiler.py:60-73 | every category has its own entry, so the fallback never applies to one |
| DiffProfiler.HintsOrdered | src/gitcommitai/diff_profiler.py:62-72 | along the category order `n_ctx` never falls, `n_batch` strictly grows, and both are positive |
| DiffProfiler.UnknownCategoryFallsBack | src/gitcommitai/diff_profiler.py:73 | an unknown name gets `{256, 42}`, the `small` entry |
| DiffProfiler.ProfileConsistent | src/gitcommitai/diff_profiler.py:76-81 | the profile's category classifies its own stats, and its hint is that category's table entry |
| DiffProfiler.FailedDiffIsVeryTiny | src/gitcommitai/diff_profiler.py:31-32 | a non-zero exit of `git diff` gives `very_tiny`, 0, 0, `{128, 16}` |
| DiffProfiler.ShortTextIsVeryTiny | src/gitcommitai/diff_profiler.py:34-41 | a text under 200 characters with fewer than 5 newlines is `very_tiny` with `{128, 16}` |
| DiffProfiler.FourHundredFiftyLines | tests/test_diff_profiler.py:19 | 450 lines are `huge`, with `{1024, 90}` |
| ModelDownloader.Keys | src/gitcommitai/model_downloader.py:17 | the keys in catalogue order |
| ModelDownloader.IsDefault | src/gitcommitai/model_downloader.py:29 | the `any(d in k ...)` test; `DefaultMarked` and `DefaultUnmarked` state it on the catalogue |
| ModelDownloader.ParseSelection | src/gitcommitai/model_downloader.py:32-33 | typed pieces to positions; `ParsePositions` and `ParsedPieces` carry its contract |
| ModelDownloader.KeysNamed | src/gitcommitai/model_downloader.py:17-19 | every key has a first word, as the menu loop requires before the answer is read; `SelectedQuant` and `CatalogueNamed` state its role |
| ModelDownloader.DefaultIndices | src/gitcommitai/model_downloader.py:29 | increasing positions, each of a key containing a default name, covering every such key |
| ModelDownloader.ParsePositions | src/gitcommitai/model_downloader.py:32-36 | accepted iff every piece is an integer in `1..count`; the result then holds each piece minus one, in input order; otherwise the answer is invalid |
| ModelDownloader.ParsedPieces | src/gitcommitai/model_downloader.py:32 | one `int(piece.strip())` per comma-separated piece |
| ModelDownloader.SelectIndices | src/gitcommitai/model_downloader.py:26-40 | an accepted selection is non-empty and inside the menu |
| ModelDownloader.SelectedQuant | src/gitcommitai/model_downloader.py:17-65 | IndexError iff some key has no word; otherwise success iff the selection is accepted, with the first word of the first selected key as the quant, and the selection error passed on otherwise |
| ModelDownloader.FileName | src/gitcommitai/model_downloader.py:49 | `url.split("/")[-1].split("?")[0]`; `FileNameOfUrl` states what it extracts |
| ModelDownloader.Plan | src/gitcommitai/model_downloader.py:47-61 | one action per selection; files on disk stay there; every saved fetch adds its file |
| ModelDownloader.DownloadSelected | src/gitcommitai/model_downloader.py:47-61 | the loop performs exactly the planned actions and leaves exactly the planned files |
| ModelDownloader.MenuKeysNamed | src/gitcommitai/model_downloader.py:17-19 | the menu loop succeeds iff every key has a first word |
| ModelDownloader.InteractiveModelSelector | src/gitcommitai/model_downloader.py:13-65 | returns the selected quant; a key without a word or a rejected answer downloads nothing; otherwise the planned downloads happen |
| ModelDownloader.ExistingNeverFetched | src/gitcommitai/model_downloader.py:52-54 | a file that is already on disk is never fetched |
| ModelDownloader.SavedThenSkipped | src/gitcommitai/model_downloader.py:47-61 | once a file is saved, every later action on it is a skip |
| ModelDownloader.FirstWordOfLabel | src/gitcommitai/model_downloader.py:64 | a label "word description" yields the word as its quant |
| ModelDownloader.CatalogueNamed | src/gitcommitai/model_downloader.py:6-10 | every catalogue label has a first word, so the menu loop never raises on it |
| ModelDownloader.FileNameOfUrl | src/gitcommitai/model_downloader.py:49 | the file name is the last path segment without its query |
| ModelDownloader.Phi3FileName | src/gitcommitai/model_downloader.py:7-9 | a catalogue URL's file name is `Phi-3-mini-4k-instruct-<quant>.gguf` |
| ModelDownloader.LabelQuant | src/gitcommitai/model_downloader.py:6-10 | the labels' first words are IQ3_S, Q4_K_M and Q6_K |
| ModelDownloader.CatalogueConsistent | src/gitcommitai/model_downloader.py:6-10 | each entry downloads the model file named after its label's quant |
| ModelDownloader.DefaultMarked | src/gitcommitai/model_downloader.py:29 | the IQ3_S and Q4_K_M labels are marked as defaults |
| ModelDownloader.DefaultUnmarked | src/gitcommitai/model_downloader.py:29 | the Q6_K label contains neither default name |
| ModelDownloader.FirstTwoMarked | src/gitcommitai/model_downloader.py:29 | with only the first two of three keys marked, the defaults are positions 0 and 1 |
| ModelDownloader.DefaultPositions | src/gitcommitai/model_downloader.py:28-29 | on the catalogue the default positions are exactly `[0, 1]` |
| ModelDownloader.BlankAnswerTakesDefaults | tests/test_model_downloader.py:26-30 | a blank answer selects `[0, 1]` and returns IQ3_S |
| ModelDownloader.SingleDigitAnswer | src/gitcommitai/model_downloader.py:31-36 | one digit selects its position when it is 1 to 3 and is rejected otherwise |
| ModelDownloader.AnswerThreeOrZero | tests/test_model_downloader.py:32-36 | "3" selects `[2]` and returns Q6_K; "0" is rejected |
| ModelDownloader.CatalogueQuant | src/gitcommitai/model_downloader.py:64 | the quant is the catalogue name of the first selected position |
| ModelDownloader.BlankAnswer | src/gitcommitai/model_downloader.py:26-40 | a blank answer selects exactly the default positions, and exits when there are none |
| ModelDownloader.OnePosition | src/gitcommitai/model_downloader.py:32-33 | one piece is accepted iff it is in range |
| ModelDownloader.TwoPositions | src/gitcommitai/model_downloader.py:32-33 | two pieces give both positions in input order |
| ModelDownloader.TwoDigitAnswer | src/gitcommitai/model_downloader.py:32-33 | "d1,d2" selects both positions in the order typed; repeats are allowed |
| ModelDownloader.NonNumberRejected | src/gitcommitai/model_downloader.py:31-36 | a single piece that is not an integer literal makes the selector exit |
| ModelDownloader.WordAnswerRejected | tests/test_model_downloader.py:38-41 | the answer "invalid" makes the selector exit |
| ModelDownloader.SingleSelectionPlan | src/gitcommitai/model_downloader.py:47-61 | one selection is skipped if present, fetched without saving if the download fails, and saved otherwise |
| ModelDownloader.OneEntryPlan | tests/test_model_downloader.py:43-53 | a single catalogue entry is skipped when its model file exists, so nothing is fetched; otherwise it is fetched, and saved unless its download fails |
| LlmInfer.LoadPrompt | src/gitcommitai/llm_infer.py:19-26 | missing file iff error; the prompt always ends with "Commit message:" and starts with the right-stripped text |
| LlmInfer.MarkedPromptKept | src/gitcommitai/llm_infer.py:23-24 | a text already ending with the marker only loses trailing whitespace |
| LlmInfer.UnmarkedPromptExtended | src/gitcommitai/llm_infer.py:24-25 | otherwise exactly one marker line is appended |
| LlmInfer.LoadPromptIdempotent | src/gitcommitai/llm_infer.py:19-26 | normalising a normalised prompt changes nothing |
| LlmInfer.Index | src/gitcommitai/llm_infer.py:113 | subscripting succeeds iff the value is a dict with the key; a dict without it raises KeyError |
| LlmInfer.CachedConfig | src/gitcommitai/llm_infer.py:111-114 | the cached path; `SavedConfigLoadsBack` and `CachedConfigMissing` state both outcomes |
| LlmInfer.SavedRecord | src/gitcommitai/llm_infer.py:124-127 | the saved record has exactly the keys `profile_config` and `diff_type` |
| LlmInfer.SelectProfile | src/gitcommitai/llm_infer.py:116-122 | "auto" yields the tuned tier entry; a table name yields that entry unchanged; any other name is an unknown-profile exit |
| LlmInfer.ResolveProfileConfig | src/gitcommitai/llm_infer.py:111-127 | a valid cache yields the stored config and writes nothing; otherwise the chosen profile is saved with the diff category; an unknown name writes nothing |
| LlmInfer.SavedConfigLoadsBack | src/gitcommitai/llm_infer.py:111-127 | what a fresh run saves is what a cached run reads back |
| LlmInfer.CachedConfigMissing | src/gitcommitai/llm_infer.py:113 | a cached record without `profile_config` raises KeyError |
| LlmInfer.SavedRecordAlwaysChanged | src/gitcommitai/llm_infer.py:124-127 | the saved record never passes the fingerprint comparison of the cache module |
| LlmInfer.ResolveThenReuse | src/gitcommitai/llm_infer.py:111-127 | a fresh run followed by a cached run gives the same config, and the store still holds the record the first run saved; a fresh run fails only on an unknown name |
| LlmInfer.OrConfig | src/gitcommitai/llm_infer.py:130-133 | one `args.x or profile_config["x"]`; `ZeroOverrideFallsBack` and `MissingContextFails` state its falsy and missing-key cases |
| LlmInfer.ApplyOverrides | src/gitcommitai/llm_infer.py:130-133 | threads are the argument or 4; it succeeds iff each falsy argument's key is present; each value is the truthy argument or the config's |
| LlmInfer.OverridesOverProfile | src/gitcommitai/llm_infer.py:130-133 | over any table entry, tuned or not, each setting is the truthy argument or the entry's value |
| LlmInfer.ZeroOverrideFallsBack | src/gitcommitai/llm_infer.py:130 | `--n_ctx 0` behaves like no `--n_ctx` |
| LlmInfer.MissingContextFails | src/gitcommitai/llm_infer.py:130 | without a truthy `--n_ctx`, a config lacking `n_ctx` raises KeyError |
| LlmInfer.FullOverridesIgnoreConfig | src/gitcommitai/llm_infer.py:130-133 | with every override truthy the config is never read |
| LlmInfer.ModelPath | src/gitcommitai/llm_infer.py:136-139 | a non-empty `--model` wins; otherwise a failed `quant` lookup is the error |
| LlmInfer.QuantNamesModelFile | src/gitcommitai/llm_infer.py:137-139 | a config with a quant names that quant's GGUF file in the models directory |
| LlmInfer.FreshProfileHasNoQuant | src/gitcommitai/llm_infer.py:138 | a freshly resolved table entry has no quant, so without `--model` the path raises KeyError |
| Cli.ShouldLog | src/gitcommitai/cli.py:24-26 | the `log` visibility rule; `QuietSilences` and `SuccessMessagesNeedVerbose` state its cases |
| Cli.QuietSilences | src/gitcommitai/cli.py:25 | quiet without always never prints; always prints despite quiet |
| Cli.SuccessMessagesNeedVerbose | src/gitcommitai/cli.py:25 | without flags, check-mark messages are hidden and others shown; verbose shows them |
| Cli.RunSelector | src/gitcommitai/cli.py:71 | the selector over the given catalogue (`PHI3_MODELS` at cli.py:71) performs the planned downloads and returns the selected quant |
| Cli.ResolveLive | src/gitcommitai/cli.py:61-77 | an unknown name stops before the selector and writes nothing; otherwise the chosen shared dict receives the quant and is saved; a rejected answer saves nothing |
| Cli.LiveResolved | src/gitcommitai/cli.py:61-77 | the outcome of the live path: an unknown name writes nothing; otherwise the planned downloads happen and the answer is applied to the chosen dict; `ResolveLive` ensures it |
| Cli.StoreQuant | src/gitcommitai/cli.py:72-77 | a selection failure leaves the dict and the cache untouched; a quant is stored into the dict itself, which is then saved with the diff category |
| Cli.ResolveProfileConfig | src/gitcommitai/cli.py:53-77 | a valid cache without a reset request yields the stored config with no selector call and no write; otherwise the live path runs |
| Cli.DefaultAnswerResolution | src/gitcommitai/cli.py:61-77 | a blank answer on a non-ARM host leaves the tier entry as initial values plus `quant = IQ3_S`, and saves that |
| Cli.ResetIgnoresCache | src/gitcommitai/cli.py:56-69 | a reset request bypasses a valid cache, so an unknown name exits without writing |
| Cli.ResolvedModelPath | src/gitcommitai/cli.py:87-90 | after a live resolution the path is the models directory plus the file the selector downloaded |
| Cli.CachedConfigNeedsQuant | src/gitcommitai/cli.py:87-89 | a config without quant yields a path iff a non-empty `--model` is given |
| CommitWrite.EditedMessage | src/gitcommitai/commit_write.py:10-19 | the stripped editor text; `EditedMessageTrimmed` and `EditedMessageStable` state its shape |
| CommitWrite.EditedMessageTrimmed | src/gitcommitai/commit_write.py:17 | the edited message is a stretch of the editor text with no whitespace at either end |
| CommitWrite.EditedMessageStable | src/gitcommitai/commit_write.py:17 | stripping the edited text again changes nothing |
| CommitWrite.Flow | src/gitcommitai/commit_write.py:26-44 | the action log of one call; `FlowProperties` states its order and commit conditions |
| CommitWrite.HandleCommitFlow | src/gitcommitai/commit_write.py:26-44 | the actions are the specified flow: preview first, only the preview on a dry run, and at most one commit |
| CommitWrite.StepsCommitCount | src/gitcommitai/commit_write.py:43-44 | an action log commits once when it commits and never otherwise |
| CommitWrite.StepsOrder | src/gitcommitai/commit_write.py:33-44 | preview first; a commit only last, carrying the final message; an edit only second |
| CommitWrite.FlowProperties | src/gitcommitai/commit_write.py:26-44 | a commit happens iff not a dry run and confirm or edit; it happens once, comes last and carries the stripped edit or the original; an edit happens iff edit outside a dry run |
| CommitWrite.EditImpliesCommit | src/gitcommitai/commit_write.py:40-44 | edit without confirm still commits, and commits the stripped editor text |
| PromptBuilder.FillPrompt | src/gitcommitai/prompt_builder.py:3-16 | the template check comes before the diff check; success iff both exist; the output is the stripped template's pieces joined by the stripped diff |
| PromptBuilder.FillPromptFile | src/gitcommitai/prompt_builder.py:3-20 | writes the filled prompt on success and leaves the output untouched on either error |
| PromptBuilder.NoPlaceholderKeepsTemplate | src/gitcommitai/prompt_builder.py:16 | a template without the placeholder comes out stripped, whatever the diff |
| PromptBuilder.PlaceholderForItself | src/gitcommitai/prompt_builder.py:16 | substituting the placeholder for itself returns the stripped template |
| PromptBuilder.PiecesKept | src/gitcommitai/prompt_builder.py:13-16 | the output joins the placeholder-free pieces that rebuild the stripped template |
| PromptBuilder.BraceRebuildsMarker | src/gitcommitai/prompt_builder.py:16 | replacing a `{{`-marker after a brace by the marker minus one brace rebuilds the marker |
| PromptBuilder.PlaceholderCanReappear | src/gitcommitai/prompt_builder.py:16 | a diff without the placeholder can still yield an output that is exactly the placeholder |

## Left out

- LLM inference is not modelled: `run_llm`, `Llama`, RAM reporting, timing and the tokens-per-second estimate. These are foreign library calls and floating-point arithmetic.
- The call to `run_llm` in cli.py:93-100 is not modelled. It reads `n_ctx`, `n_batch` and `n_gpu_layers` from the config as `profile_config[...]` does, with `n_threads` fixed at 4, and then hands the prompt to the model.
- The prompt step of cli.py:80-84 is not modelled. It checks that the template exists, normalises it with `load_prompt` (modelled as `LlmInfer.LoadPrompt`) and substitutes the diff for `{{DIFF}}`. That marker differs from the `{{DIFF_SUMMARY}}` of prompt_builder.py.
- Git and editor subprocesses are parameters or actions. The diff text, the editor's text and the commit are modelled that way; diff_extractor.py is not part of this model.
- `psutil` and `platform` probing is left out. RAM (already rounded to whole GB), CPU architecture, OS name and Python version are inputs.
- `hash_diff_text` is left out. The MD5 digest is an input string.
- JSON encoding, file paths, directory creation and the import-time `mkdir` are left out. The store holds the record as a value.
- `urllib` downloads, `input()` and printing are left out. The answer, the files present and the failing URLs are parameters; the printed messages are not modelled.
- `argparse` and `--version` are left out. The flags are parameters.
- setup.py is packaging metadata and is not modelled.
- `is_cache_valid` is not defined in cache_manager.py, and `load_cache` / `save_cache` are called there with a path they do not accept. The resolvers take the validity answer as a parameter and use the store as defined.
- Strings.ParseInt accepts an optional sign and ASCII digits. Python's `int` also accepts underscores between digits and non-ASCII decimal digits.
- Strings.Lower maps ASCII letters only. Python's `str.lower` also lowers non-ASCII letters; this matters only for the "arm" test on the CPU architecture.
- LlmInfer.ModelPath: a `quant` that is not a string is reported as `NotAString`. Python would format it with `str()` into the file name.
- DiffProfiler.GetDiffStats: only a non-zero git exit (`CalledProcessError`) is modelled, as `None`. A missing `git` executable and output that is not valid UTF-8 raise out of `get_git_diff_stats`; the model has no value for them.
- CacheManager.ProfileCache: the store holds a well-formed JSON object or nothing. A cache file that `json.load` cannot parse raises, and a stored top-level value that is not an object makes `.get` or `cached["profile_config"]` fail; neither state is representable.
- ModelDownloader.Plan: a fetch that fails saves no file. `urlretrieve` opens the target before streaming, so a transfer broken mid-way can leave a partial file that later runs skip as present; the model does not capture that. `failing` is a fixed set of URLs, so a selection repeated after a failed fetch (`2,2`) fails again, where a second `urlretrieve` might succeed.
