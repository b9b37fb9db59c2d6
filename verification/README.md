# Billing-ratio resolution of the new-api LLM proxy, in Dafny

This project models how the proxy turns a model name into the multipliers its
billing layer charges with:

- the **completion ratio** (output tokens relative to input tokens), decided by
  an operator override table and then by an ordered list of vendor-family rules
  (OpenAI, Anthropic, Mistral, Google, Cohere, Deepseek, ERNIE, legacy Llama
  names), with 1 as the last resort;
- the **model price** and **model ratio** stores, which are filled from
  compiled-in defaults on first access, replaced wholesale by an update, and
  looked up after rewriting `gpt-4-gizmo…` (and, for prices, `gpt-4o-gizmo…`)
  names to a wildcard family key; a missing price is `(-1, false)` and a
  missing ratio is 30;
- the two **audio** multipliers;
- the **threshold-ratio** store: per model, one token-count breakpoint with its
  own input and output ratios.

Every Go package variable holding a table is a `Store<V>`, an `Option` of a
map whose `None` is Go's nil map (lookups read it as empty). Operations are
pure functions from the current store to the answer and the next store. Ratios
are `real`, so `0.8 / 0.64` is exactly 1.25.

Files, one module each:

- `wrappers.dfy`: `Option`.
- `strings.dfy`: `HasPrefix` and `Contains` (Go's `strings` tests), with
  `Contains` proved equal to an index-based definition.
- `ratio_store.dfy`: the shared store shape: lazy default loading,
  clear-then-decode replacement, entry-by-entry copying.
- `rule_engine.dfy`: a generic ordered first-match decision list, the reference
  form for the completion rules.
- `completion_ratio.dfy`: `GetCompletionRatio`, its rule table, the proof that
  the two agree, precedence lemmas and the literal cases.
- `model_ratio.dfy`: gizmo normalisation, `GetModelPrice`, `GetModelRatio` and
  their map accessors.
- `audio_ratio.dfy`: `GetAudioRatio`, `GetAudioCompletionRatio`.
- `threshold_ratio.dfy`: `ThresholdConfig`, its default table, init, lookup,
  copy and update.

Four things are left abstract, and no fact is assumed about them:

- The per-vendor helpers (`getOpenAICompletionRatioData`,
  `getCohereCompletionRatioData`, `getERNIECompletionRatioData`) are
  function-typed fields of `CompletionRatio.Helpers`.
- `FormatMatchingModelName` is a `format: string -> string` parameter.
- The default model-ratio table built by `initModelRatio` is a `defaults`
  parameter.
- JSON decoding is replaced by its outcome, `Decoded<V>`:
  - `Decoded(Some(m))` is a parsed object.
  - `Decoded(None)` is the literal `null`, which the Go decoder turns into a
    nil map.
  - `Malformed(partial)` is a rejected payload, carrying whatever the decoder
    had already written.

Points of the Go code worth knowing when reading the model:

- **A failed update does not keep the previous table.** Every
  `Update...ByJSONString` first installs a fresh empty map and then decodes
  into it, so a rejected payload leaves the decoder's partial result, not the
  prior contents (`RatioStore.FailedReplaceClearsStore`).
- **`GetCompletionRatio` does not normalise gizmo names.** It looks the raw
  name up in the override table. It also never installs the default completion
  table, so while the variable is nil there is no override at all
  (`CompletionRatio.DefaultsOnlyAfterMapAccess`,
  `CompletionRatio.GizmoNamesNotNormalised`). Whether a concrete
  `gpt-4-gizmo…` name gets completion ratio 1 is decided by the OpenAI helper,
  which is not part of this model.
- **Audio input buckets:** `gpt-4o-realtime…` gives 20, `gpt-4o-audio…`
  gives 40, and every other name gives 20. The output ratio is 2 for every
  name.

## Model

| member | source | states |
|---|---|---|
| CompletionRatio.GetCompletionRatio | common/model-ratio.go:174-183 | An override counts only if it is strictly positive, and then it is the answer. Otherwise every `gpt`/`chatgpt`/`o1` name is decided by the OpenAI helper, ahead of every other family. |
| CompletionRatio.CascadeFollowsRules | common/model-ratio.go:174-230 | For every name and override table, the Go code's if-cascade equals the ordered rule list: the first firing rule decides, and 1 applies when none fires. |
| CompletionRatio.NonQualifyingOverrideFallsThrough | common/model-ratio.go:176-178 | A zero, negative or absent override behaves exactly like having no override table. |
| CompletionRatio.UpdateThenCompletionRatio | common/model-ratio.go:169-178 | After a successful update, a positive payload entry is the answer and any other name falls to the built-in rules. Nothing of the prior table survives. |
| CompletionRatio.GetCompletionRatioMap | common/model-ratio.go:262-267 | A nil completion table becomes the three-entry default. A present table is returned unchanged. |
| CompletionRatio.DefaultsOnlyAfterMapAccess | common/model-ratio.go:56-61 | Before the map accessor runs, `gpt-4-all` goes to the OpenAI helper. After it runs, the default entry 2 wins. |
| CompletionRatio.GizmoNamesNotNormalised | common/model-ratio.go:174-183 | With the defaults installed, the key `gpt-4-gizmo-*` gets 2. Concrete `gpt-4-gizmo…`/`gpt-4o-gizmo…` names are not rewritten and go to the OpenAI helper. |
| CompletionRatio.ClaudeThreeBeforeClaudeTwo | common/model-ratio.go:186-193 | Without an override or OpenAI prefix, a name containing `claude-3` gets 5, even when it also contains `claude-2`. |
| CompletionRatio.ClaudeTwoGivesThree | common/model-ratio.go:190-193 | Without an override, an OpenAI prefix or `claude-3`, any name containing `claude-2` or `claude-instant-1` gets 3. |
| CompletionRatio.NoRuleGivesOne | common/model-ratio.go:229 | Any name that fires no built-in rule and has no qualifying override gets 1. |
| CompletionRatio.VendorPrefixFamilies | common/model-ratio.go:195-218 | For a name that reaches these rules: `mistral-` gives 3, `gemini-` gives 4, `deepseek` gives 2. `command` goes to the Cohere helper and `ERNIE-` to the ERNIE helper. |
| CompletionRatio.LlamaTwoSeventyB | common/model-ratio.go:220-222 | `llama2-70b-4096` gets 0.8/0.64 = 1.25. |
| CompletionRatio.LlamaThreeEightB | common/model-ratio.go:223-224 | `llama3-8b-8192` gets 2. |
| CompletionRatio.LlamaThreeSeventyB | common/model-ratio.go:225-226 | `llama3-70b-8192` gets 0.79/0.59 = 79/59. |
| CompletionRatio.UnknownNameGetsDefault | common/model-ratio.go:229 | `foo-bar` matches no rule and gets 1. |
| CompletionRatio.ClaudeThreeOpus | common/model-ratio.go:186-189 | `claude-3-opus` gets 5. |
| CompletionRatio.ClaudeTwoPointOne | common/model-ratio.go:190-193 | `claude-2.1` gets 3. |
| CompletionRatio.DeepseekChat | common/model-ratio.go:211-213 | `deepseek-chat` gets 2. |
| CompletionRatio.NoFamilyPrefix | common/model-ratio.go:181-216 | A name whose first character starts none of the family prefixes matches none of the prefix rules. |
| RuleEngine.FirstMatchFromSpec | common/model-ratio.go:180-229 | The decision list has no decision exactly when no rule fires. Otherwise it yields the action of a firing rule that no earlier rule precedes. |
| RuleEngine.FirstMatchWins | common/model-ratio.go:180-229 | If rule i fires and no earlier rule does, the list yields rule i's action. |
| RuleEngine.NoMatchFallsThrough | common/model-ratio.go:229 | When no rule fires, there is no decision and the default applies. |
| Strings.ContainsIffOccurs | common/model-ratio.go:186-190 | The substring test holds exactly when the needle occurs at some index of the name. |
| Strings.MissingCharNeverContains | common/model-ratio.go:186-190 | A name that lacks a character of the needle does not contain the needle. |
| ModelRatio.Normalize | common/model-ratio.go:92-97 | Applying the ordered prefix rewrites yields either the name itself or one of the family keys. |
| ModelRatio.PriceKey | common/model-ratio.go:92-97 | `gpt-4-gizmo…` becomes `gpt-4-gizmo-*` and `gpt-4o-gizmo…` becomes `gpt-4o-gizmo-*`. Every other name is kept. |
| ModelRatio.GizmoPrefixesDisjoint | common/model-ratio.go:92-97 | No name has both gizmo prefixes. |
| ModelRatio.PriceKeyIdempotent | common/model-ratio.go:92-97 | Normalising a price key twice gives the same key as normalising it once. |
| ModelRatio.RatioKey | common/model-ratio.go:135-137 | `gpt-4-gizmo…` becomes `gpt-4-gizmo-*`. Every other name is kept. |
| ModelRatio.RatioKeyIdempotent | common/model-ratio.go:135-137 | Normalising a ratio key twice gives the same key as normalising it once. |
| ModelRatio.RatioKeyKeepsFourOGizmo | common/model-ratio.go:133-138 | The ratio lookup keeps a `gpt-4o-gizmo…` name as it is, while the price lookup rewrites it. |
| ModelRatio.GetModelPriceMap | common/model-ratio.go:64-71 | A nil price table becomes the compiled-in default. A present table is returned unchanged. |
| ModelRatio.GetModelPrice | common/model-ratio.go:90-106 | Returns `(price, true)` iff the normalised key is in the loaded table, else `(-1, false)`. The store changes only by the nil-to-default initialisation. |
| ModelRatio.GizmoFamilySharesPrice | common/model-ratio.go:92-98 | Any two names of the same gizmo family get identical lookups. |
| ModelRatio.UpdateThenGetModelPrice | common/model-ratio.go:82-106 | After a successful update, a price is found exactly for the payload's keys, with the payload's value. The table stays the payload. |
| ModelRatio.NullPayloadRestoresDefaultPrices | common/model-ratio.go:82-87 | A `null` payload resets the table to nil, so the next lookup uses the defaults. |
| ModelRatio.DefaultPriceCases | common/model-ratio.go:24-45 | On the default table: a gizmo name is priced 0.1, `mj_inpaint` is found with price 0, and `gpt-4o-gizmo…` is a miss. |
| ModelRatio.GetModelRatioMap | common/model-ratio.go:108-115 | A nil ratio table becomes the default table. A present table is returned unchanged. |
| ModelRatio.GetModelRatio | common/model-ratio.go:133-144 | Returns the stored ratio under the normalised key, or exactly 30 on a miss. A nil table is first replaced by the defaults. |
| ModelRatio.UpdateThenGetModelRatio | common/model-ratio.go:126-144 | After a successful update, the ratio comes from the payload, or is 30 when the payload lacks the key. Neither the prior table nor the defaults matter. |
| ModelRatio.GizmoFamilySharesRatio | common/model-ratio.go:133-138 | All `gpt-4-gizmo…` names get the same ratio. |
| RatioStore.LoadOrDefault | common/model-ratio.go:64-71 | Lazy initialisation: a nil store takes the defaults, and a present one is kept. The result is never nil. |
| RatioStore.LoadIsIdempotent | common/model-ratio.go:108-115 | Loading an already loaded store changes nothing, so only the first access installs defaults. |
| RatioStore.Replace | common/model-ratio.go:82-87 | An update reports success iff decoding succeeded. On success the store is exactly the payload. On failure it holds what the decoder wrote. |
| RatioStore.ReplaceForgetsPrior | common/model-ratio.go:126-131 | No merge: any key of the prior table that the payload lacks is gone after the update. |
| RatioStore.FailedReplaceClearsStore | common/model-ratio.go:169-172 | A rejected payload with nothing decoded leaves an empty table, whatever the table held before. |
| RatioStore.CopyTable | setting/ratio_setting/threshold_ratio.go:78-82 | Copying entry by entry produces a map equal to the source. |
| AudioRatio.GetAudioRatio | common/model-ratio.go:232-239 | Returns 40 iff the name starts with `gpt-4o-audio`, and 20 otherwise, including for realtime models. |
| AudioRatio.AudioPrefixesDisjoint | common/model-ratio.go:233-235 | No name is both a `gpt-4o-realtime` and a `gpt-4o-audio` name. |
| AudioRatio.GetAudioCompletionRatio | common/model-ratio.go:241-246 | Returns 2 for every name. |
| ThresholdRatio.DefaultThresholdTable | setting/ratio_setting/threshold_ratio.go:17-25 | The default table has the single key `claude-sonnet-4`, with threshold 200000, input ratio 10, output ratio 30 and enabled true. |
| ThresholdRatio.InitThresholdRatio | setting/ratio_setting/threshold_ratio.go:85-93 | After initialisation the store equals the default table key for key. |
| ThresholdRatio.GetThresholdConfig | setting/ratio_setting/threshold_ratio.go:60-72 | Returns `(m[f(name)], true)` iff the formatted name is a key, else the zero record and false. The store is not changed. |
| ThresholdRatio.DisabledEntryStillFound | setting/ratio_setting/threshold_ratio.go:67-71 | Lookup does not filter on `enabled`. |
| ThresholdRatio.ClaudeSonnetThreshold | setting/ratio_setting/threshold_ratio.go:61-72 | On the default table, any name the formatter maps to `claude-sonnet-4` is found with threshold 200000, input ratio 10, output ratio 30 and enabled true. |
| ThresholdRatio.NilStoreMisses | setting/ratio_setting/threshold_ratio.go:27 | Before initialisation every lookup misses and returns the zero record. |
| ThresholdRatio.GetThresholdRatioCopy | setting/ratio_setting/threshold_ratio.go:74-83 | The copy has the same key set and the same values as the store. |
| ThresholdRatio.UpdateThresholdRatio | setting/ratio_setting/threshold_ratio.go:48-58 | On success the store is exactly the payload. The exposed-data cache is invalidated iff decoding succeeded. |
| ThresholdRatio.UpdateThenGetThresholdConfig | setting/ratio_setting/threshold_ratio.go:48-72 | After a successful update, lookups answer from the payload alone. |

## Left out

- JSON encoding and decoding: `ModelPrice2JSONString`, `ModelRatio2JSONString`, `DefaultModelRatio2JSONString`, `CompletionRatio2JSONString` and `ThresholdRatio2JSONString` are not modelled. Decoding is replaced by its outcome (`Decoded<V>`). `CompletionRatio2JSONString` installs the default table exactly as `GetCompletionRatioMap` does.
- The post-failure contents of a store are only what the decoder wrote (`Malformed(partial)`). Which entries that is depends on Go's decoder, which is not modelled.
- `GetDefaultModelRatioMap` returns the table built by `initModelRatio`. That function is not part of this model, and its table is the `defaults` parameter.
- `GetModelPriceMap`, `GetModelRatioMap` and `GetCompletionRatioMap` hand back the live package map, which after lazy initialisation is the compiled-in default map object itself, so a caller writing through it would change both the store and the defaults. Maps here are values, so this aliasing is not modelled; the accessors return the table's contents.
- `GetThresholdRatioMap` returns the shared map itself. With immutable maps this is the store, so it needs no member of its own.
- Mutexes (`sync.RWMutex`) and concurrency: operations are sequential state transitions. `UpdateCompletionRatioByJSONString` takes no lock in the source, which this model cannot show.
- Logging (`SysError`, `SysLog`) and the `printErr` flag of `GetModelPrice`, which only controls logging.
- The vendor helpers, `FormatMatchingModelName` and `InvalidateExposedDataCache` are not part of this model. The helpers and the formatter are parameters. The cache invalidation is the `cacheInvalidated` flag of `ThresholdRatio.UpdateThresholdRatio`.
- CompletionRatio.GetCompletionRatio: for OpenAI, Cohere and ERNIE names it states only that the helper decides. Results such as `gpt-4o-mini` → 4 or `command-r` → 3 depend on helper tables that are not part of this model.
- Float64 rounding: ratios are exact reals.
- The USD/RMB currency constants and the commented-out per-minute audio prices.
- A copy returned by `GetThresholdRatioCopy` cannot change when the store is later updated, because Dafny maps are values. This needs no lemma. For the same reason, lookups and copies cannot modify the store.
