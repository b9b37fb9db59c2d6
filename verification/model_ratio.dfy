/**
 The model-price and model-ratio stores of common/model-ratio.go: lazily
 initialised tables looked up after rewriting gizmo model names to a family key.
 */
module ModelRatio {
  import opened Wrappers
  import opened Strings
  import opened RatioStore

  // ---------------------------------------------------------------------------
  // Gizmo-name normalisation.
  // ---------------------------------------------------------------------------

  /** Every name starting with `prefix` is looked up under the family key `key`. */
  datatype FamilyRewrite = FamilyRewrite(prefix: string, key: string)

  /**
   Applies the rewrites in order, each to the name as left by the previous
   ones (the Go code reassigns `name` after every test).
   */
  function Normalize(rewrites: seq<FamilyRewrite>, name: string): (r: string)
    ensures r == name || exists i | 0 <= i < |rewrites| :: r == rewrites[i].key
    decreases |rewrites|
  {
    if |rewrites| == 0 then name
    else
      var next := if HasPrefix(name, rewrites[0].prefix) then rewrites[0].key else name;
      var r := Normalize(rewrites[1..], next);
      assert r != next ==> exists i | 0 <= i < |rewrites| :: r == rewrites[i].key by {
        if r != next {
          var i :| 0 <= i < |rewrites[1..]| && r == rewrites[1..][i].key;
          assert r == rewrites[i + 1].key;
        }
      }
      r
  }

  const GizmoFamily := FamilyRewrite("gpt-4-gizmo", "gpt-4-gizmo-*")
  const GizmoFourOFamily := FamilyRewrite("gpt-4o-gizmo", "gpt-4o-gizmo-*")

  /** No name starts with both gizmo prefixes: they differ at their sixth character. */
  lemma GizmoPrefixesDisjoint(name: string)
    ensures !(HasPrefix(name, "gpt-4-gizmo") && HasPrefix(name, "gpt-4o-gizmo"))
  {
    if HasPrefix(name, "gpt-4-gizmo") {
      assert name[5] == "gpt-4-gizmo"[5] == '-';
      MismatchNotPrefix(name, "gpt-4o-gizmo", 5);
    }
  }

  /** The key a price is stored under: both gizmo families collapse to their wildcard key. */
  function PriceKey(name: string): (k: string)
    ensures HasPrefix(name, "gpt-4-gizmo") ==> k == "gpt-4-gizmo-*"
    ensures HasPrefix(name, "gpt-4o-gizmo") ==> k == "gpt-4o-gizmo-*"
    ensures !HasPrefix(name, "gpt-4-gizmo") && !HasPrefix(name, "gpt-4o-gizmo") ==> k == name
  {
    var rewrites := [GizmoFamily, GizmoFourOFamily];
    var once := if HasPrefix(name, "gpt-4-gizmo") then "gpt-4-gizmo-*" else name;
    var twice := if HasPrefix(once, "gpt-4o-gizmo") then "gpt-4o-gizmo-*" else once;
    assert rewrites[1..] == [GizmoFourOFamily];
    assert Normalize(rewrites, name) == Normalize([GizmoFourOFamily], once);
    assert Normalize([GizmoFourOFamily], once) == Normalize([], twice);
    GizmoPrefixesDisjoint(name);
    GizmoPrefixesDisjoint("gpt-4-gizmo-*");
    Normalize(rewrites, name)
  }

  /** The key a model ratio is stored under: only the `gpt-4-gizmo` family is collapsed. */
  function RatioKey(name: string): (k: string)
    ensures HasPrefix(name, "gpt-4-gizmo") ==> k == "gpt-4-gizmo-*"
    ensures !HasPrefix(name, "gpt-4-gizmo") ==> k == name
  {
    Normalize([GizmoFamily], name)
  }

  /** Normalising a price key again changes nothing. */
  lemma PriceKeyIdempotent(name: string)
    ensures PriceKey(PriceKey(name)) == PriceKey(name)
  {
  }

  /** Normalising a ratio key again changes nothing. */
  lemma RatioKeyIdempotent(name: string)
    ensures RatioKey(RatioKey(name)) == RatioKey(name)
  {
  }

  /** The ratio lookup leaves `gpt-4o-gizmo` names as they are, unlike the price lookup. */
  lemma RatioKeyKeepsFourOGizmo(name: string)
    requires HasPrefix(name, "gpt-4o-gizmo")
    ensures RatioKey(name) == name
    ensures PriceKey(name) == "gpt-4o-gizmo-*"
  {
    GizmoPrefixesDisjoint(name);
  }

  // ---------------------------------------------------------------------------
  // Model prices.
  // ---------------------------------------------------------------------------

  /** The compiled-in flat prices, in US dollars per call. */
  const DefaultModelPrice: map<string, real> := map[
    "suno_music" := 0.1,
    "suno_lyrics" := 0.01,
    "dall-e-3" := 0.04,
    "gpt-4-gizmo-*" := 0.1,
    "mj_imagine" := 0.1,
    "mj_variation" := 0.1,
    "mj_reroll" := 0.1,
    "mj_blend" := 0.1,
    "mj_modal" := 0.1,
    "mj_zoom" := 0.1,
    "mj_shorten" := 0.1,
    "mj_high_variation" := 0.1,
    "mj_low_variation" := 0.1,
    "mj_pan" := 0.1,
    "mj_inpaint" := 0.0,
    "mj_custom_zoom" := 0.0,
    "mj_describe" := 0.05,
    "mj_upscale" := 0.05,
    "swap_face" := 0.05,
    "mj_upload" := 0.05
  ]

  /** The price reported for a model without one. */
  const PriceNotFound: real := -1.0

  /** `GetModelPriceMap`: the price table, installing the defaults when it is still nil. */
  function GetModelPriceMap(store: Store<real>): (r: Loaded<real>)
    ensures r.store == Some(r.table)
    ensures store.None? ==> r.table == DefaultModelPrice
    ensures store.Some? ==> r.store == store
  {
    LoadOrDefault(store, DefaultModelPrice)
  }

  /** The store after a price lookup, the price, and whether one was found. */
  datatype PriceLookup = PriceLookup(store: Store<real>, price: real, found: bool)

  /**
   `GetModelPrice`: the flat price of a model under its normalised key, or
   (-1, false) when the table has none. The only change to the store is the
   nil-to-defaults initialisation. Whether a miss is logged has no effect.
   */
  function GetModelPrice(store: Store<real>, name: string): (r: PriceLookup)
    ensures r.store == GetModelPriceMap(store).store
    ensures r.found <==> PriceKey(name) in GetModelPriceMap(store).table
    ensures r.found ==> r.price == GetModelPriceMap(store).table[PriceKey(name)]
    ensures !r.found ==> r.price == PriceNotFound
  {
    var loaded := GetModelPriceMap(store);
    var key := PriceKey(name);
    if key in loaded.table then PriceLookup(loaded.store, loaded.table[key], true)
    else PriceLookup(loaded.store, PriceNotFound, false)
  }

  /** Every name of one gizmo family gets the same answer. */
  lemma GizmoFamilySharesPrice(store: Store<real>, a: string, b: string)
    requires (HasPrefix(a, "gpt-4-gizmo") && HasPrefix(b, "gpt-4-gizmo"))
          || (HasPrefix(a, "gpt-4o-gizmo") && HasPrefix(b, "gpt-4o-gizmo"))
    ensures GetModelPrice(store, a) == GetModelPrice(store, b)
  {
  }

  /**
   After a successful update, a lookup answers from the payload alone: found
   exactly for the payload's keys, and the table stays the payload.
   */
  lemma UpdateThenGetModelPrice(prior: Store<real>, payload: map<string, real>, name: string)
    ensures var r := GetModelPrice(Replace(prior, Decoded(Some(payload))).store, name);
      && r.store == Some(payload)
      && (r.found <==> PriceKey(name) in payload)
      && (r.found ==> r.price == payload[PriceKey(name)])
  {
  }

  /** A `null` payload resets the table to nil, so the next lookup sees the defaults again. */
  lemma NullPayloadRestoresDefaultPrices(prior: Store<real>, name: string)
    ensures GetModelPrice(Replace(prior, Decoded(None)).store, name) == GetModelPrice(None, name)
  {
  }

  /**
   On the default table: a gizmo name is priced by the wildcard entry, a zero
   price is found (and is not a miss), and the `gpt-4o-gizmo` family has no price.
   */
  lemma DefaultPriceCases()
    ensures GetModelPrice(None, "gpt-4-gizmo-abc123") == PriceLookup(Some(DefaultModelPrice), 0.1, true)
    ensures GetModelPrice(None, "mj_inpaint") == PriceLookup(Some(DefaultModelPrice), 0.0, true)
    ensures GetModelPrice(None, "gpt-4o-gizmo-xyz") == PriceLookup(Some(DefaultModelPrice), PriceNotFound, false)
  {
  }

  // ---------------------------------------------------------------------------
  // Model ratios.
  // ---------------------------------------------------------------------------

  /** The ratio charged for a model the table does not know: deliberately high. */
  const ModelRatioFallback: real := 30.0

  /**
   `GetModelRatioMap`: the ratio table, installing the defaults when it is still
   nil. The default table is built by code outside this model and is a parameter.
   */
  function GetModelRatioMap(store: Store<real>, defaults: map<string, real>): (r: Loaded<real>)
    ensures r.store == Some(r.table)
    ensures store.None? ==> r.table == defaults
    ensures store.Some? ==> r.store == store
  {
    LoadOrDefault(store, defaults)
  }

  /** The store after a ratio lookup, and the ratio. */
  datatype RatioLookup = RatioLookup(store: Store<real>, ratio: real)

  /**
   `GetModelRatio`: the stored ratio under the normalised key, or exactly 30
   when there is none (the miss is logged, which is not modelled).
   */
  function GetModelRatio(store: Store<real>, defaults: map<string, real>, name: string): (r: RatioLookup)
    ensures r.store == GetModelRatioMap(store, defaults).store
    ensures RatioKey(name) in GetModelRatioMap(store, defaults).table ==>
      r.ratio == GetModelRatioMap(store, defaults).table[RatioKey(name)]
    ensures RatioKey(name) !in GetModelRatioMap(store, defaults).table ==> r.ratio == ModelRatioFallback
  {
    var loaded := GetModelRatioMap(store, defaults);
    var key := RatioKey(name);
    RatioLookup(loaded.store, if key in loaded.table then loaded.table[key] else ModelRatioFallback)
  }

  /**
   After a successful update, a ratio comes from the payload alone, and 30 for
   every key the payload lacks, whatever the prior table or the defaults held.
   */
  lemma UpdateThenGetModelRatio(prior: Store<real>, defaults: map<string, real>, payload: map<string, real>, name: string)
    ensures var r := GetModelRatio(Replace(prior, Decoded(Some(payload))).store, defaults, name);
      && r.store == Some(payload)
      && r.ratio == (if RatioKey(name) in payload then payload[RatioKey(name)] else ModelRatioFallback)
  {
  }

  /** Every `gpt-4-gizmo` name gets the same ratio. */
  lemma GizmoFamilySharesRatio(store: Store<real>, defaults: map<string, real>, a: string, b: string)
    requires HasPrefix(a, "gpt-4-gizmo") && HasPrefix(b, "gpt-4-gizmo")
    ensures GetModelRatio(store, defaults, a) == GetModelRatio(store, defaults, b)
  {
  }
}
