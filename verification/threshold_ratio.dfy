/**
 The threshold-ratio store of setting/ratio_setting/threshold_ratio.go: per
 model, one context-length breakpoint above which other input and output
 ratios apply. Callers compare the token count themselves; this store only
 answers which breakpoint a model has.
 */
module ThresholdRatio {
  import opened Wrappers
  import opened RatioStore

  /** One breakpoint. `threshold` is a Go `int`, read and never computed with here. */
  datatype ThresholdConfig = ThresholdConfig(
    modelName: string,
    threshold: int,
    inputRatio: real,
    outputRatio: real,
    enabled: bool
  )

  /** Go's zero value of the record, returned on a miss. */
  const ZeroConfig := ThresholdConfig("", 0, 0.0, 0.0, false)

  /** The compiled-in table: one 200,000-token breakpoint for `claude-sonnet-4`. */
  const DefaultThresholdRatio: map<string, ThresholdConfig> := map[
    "claude-sonnet-4" := ThresholdConfig("claude-sonnet-4", 200000, 10.0, 30.0, true)
  ]

  /** The default table holds exactly one entry, with the documented numbers. */
  lemma DefaultThresholdTable()
    ensures DefaultThresholdRatio.Keys == {"claude-sonnet-4"}
    ensures DefaultThresholdRatio["claude-sonnet-4"].threshold == 200000
    ensures DefaultThresholdRatio["claude-sonnet-4"].inputRatio == 10.0
    ensures DefaultThresholdRatio["claude-sonnet-4"].outputRatio == 30.0
    ensures DefaultThresholdRatio["claude-sonnet-4"].enabled
  {
  }

  /**
   `InitThresholdRatio`: a fresh table filled entry by entry from the default
   table, so the store equals the defaults key for key.
   */
  method InitThresholdRatio() returns (store: Store<ThresholdConfig>)
    ensures store == Some(DefaultThresholdRatio)
    ensures Entries(store).Keys == {"claude-sonnet-4"}
  {
    var table := CopyTable(DefaultThresholdRatio);
    store := Some(table);
  }

  /** A threshold lookup: the record and whether the model has one. */
  datatype ThresholdLookup = ThresholdLookup(config: ThresholdConfig, found: bool)

  /**
   `GetThresholdConfig`: the record stored under the formatted name, or the
   zero record and `false`. `format` stands for `FormatMatchingModelName`,
   which is not part of this model. Disabled records are returned as they are.
   */
  function GetThresholdConfig(store: Store<ThresholdConfig>, format: string -> string, name: string): (r: ThresholdLookup)
    ensures r.found <==> format(name) in Entries(store)
    ensures r.found ==> r.config == Entries(store)[format(name)]
    ensures !r.found ==> r.config == ZeroConfig
  {
    var key := format(name);
    var table := Entries(store);
    if key in table then ThresholdLookup(table[key], true) else ThresholdLookup(ZeroConfig, false)
  }

  /** Lookup does not filter on `enabled`: a disabled entry is still found. */
  lemma DisabledEntryStillFound(store: Store<ThresholdConfig>, format: string -> string, name: string)
    requires format(name) in Entries(store) && !Entries(store)[format(name)].enabled
    ensures GetThresholdConfig(store, format, name).found
    ensures !GetThresholdConfig(store, format, name).config.enabled
  {
  }

  /**
   Right after initialisation, any name the formatter maps to `claude-sonnet-4`
   is found with that model's breakpoint and ratios.
   */
  lemma ClaudeSonnetThreshold(format: string -> string, name: string)
    requires format(name) == "claude-sonnet-4"
    ensures var r := GetThresholdConfig(Some(DefaultThresholdRatio), format, name);
      && r.found
      && r.config.threshold == 200000
      && r.config.inputRatio == 10.0
      && r.config.outputRatio == 30.0
      && r.config.enabled
  {
  }

  /** Before initialisation the variable is nil and every lookup misses. */
  lemma NilStoreMisses(format: string -> string, name: string)
    ensures GetThresholdConfig(None, format, name) == ThresholdLookup(ZeroConfig, false)
  {
  }

  /** `GetThresholdRatioCopy`: a fresh table with the same keys and values as the store. */
  method GetThresholdRatioCopy(store: Store<ThresholdConfig>) returns (copy: map<string, ThresholdConfig>)
    ensures copy.Keys == Entries(store).Keys
    ensures forall k | k in copy :: copy[k] == Entries(store)[k]
  {
    copy := CopyTable(Entries(store));
  }

  /** A store after an update, and whether the exposed-data cache was invalidated. */
  datatype ThresholdUpdate = ThresholdUpdate(store: Store<ThresholdConfig>, ok: bool, cacheInvalidated: bool)

  /**
   `UpdateThresholdRatioByJSONString`: clear-then-decode replacement; the
   exposed-data cache is invalidated exactly when decoding succeeds.
   */
  function UpdateThresholdRatio(prior: Store<ThresholdConfig>, d: Decoded<ThresholdConfig>): (r: ThresholdUpdate)
    ensures r.cacheInvalidated <==> d.Decoded?
    ensures r.ok <==> d.Decoded?
    ensures d.Decoded? ==> r.store == d.table
  {
    var replaced := Replace(prior, d);
    ThresholdUpdate(replaced.store, replaced.ok, replaced.ok)
  }

  /**
   After a successful update, lookups answer from the payload alone, whatever
   the store held before.
   */
  lemma UpdateThenGetThresholdConfig(
    prior: Store<ThresholdConfig>, payload: map<string, ThresholdConfig>, format: string -> string, name: string)
    ensures var r := GetThresholdConfig(UpdateThresholdRatio(prior, Decoded(Some(payload))).store, format, name);
      && (r.found <==> format(name) in payload)
      && (r.found ==> r.config == payload[format(name)])
  {
  }
}
