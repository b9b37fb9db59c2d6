/**
 The shape shared by every process-wide table of the ratio code: a Go map
 variable that starts out nil, may be filled from compiled-in defaults on
 first access, and is replaced as a whole by an update.
 */
module RatioStore {
  import opened Wrappers

  /** A table as the Go variable holds it: `None` is a nil map. */
  type Store<V> = Option<map<string, V>>

  /** What a lookup sees in a store: Go reads a nil map as an empty one. */
  function Entries<V>(s: Store<V>): (m: map<string, V>)
    ensures s.Some? ==> m == s.value
    ensures s.None? ==> m == map[]
  {
    s.GetOr(map[])
  }

  /** A store together with the table a `Get...Map` accessor hands back. */
  datatype Loaded<V> = Loaded(store: Store<V>, table: map<string, V>)

  /**
   Lazy initialisation (`if m == nil { m = defaults }; return m`): a nil store
   takes the defaults, a present one is left as it is.
   */
  function LoadOrDefault<V>(s: Store<V>, defaults: map<string, V>): (r: Loaded<V>)
    ensures r.store == Some(r.table)
    ensures s.Some? ==> r.store == s
    ensures s.None? ==> r.table == defaults
  {
    match s
    case Some(m) => Loaded(s, m)
    case None => Loaded(Some(defaults), defaults)
  }

  /** Loading twice is loading once: only the first access installs the defaults. */
  lemma LoadIsIdempotent<V>(s: Store<V>, defaults: map<string, V>)
    ensures LoadOrDefault(LoadOrDefault(s, defaults).store, defaults) == LoadOrDefault(s, defaults)
  {
  }

  /**
   The outcome of decoding an update payload, which this model does not parse.
   `Decoded(None)` is the JSON literal `null`, which the decoder turns into a
   nil map; `Malformed(partial)` is a payload the decoder rejected, carrying
   whatever entries it had already written into the fresh map.
   */
  datatype Decoded<V> = Decoded(table: Option<map<string, V>>) | Malformed(partial: map<string, V>)

  /** A store after an update, and whether the update reported success. */
  datatype Replaced<V> = Replaced(store: Store<V>, ok: bool)

  /**
   `Update...ByJSONString`: the store is first reset to a fresh empty map and
   the payload is then decoded into it. A successful update leaves exactly the
   payload, nothing of the prior table; a failed one leaves whatever the decoder
   wrote, also nothing of the prior table.
   */
  function Replace<V>(prior: Store<V>, d: Decoded<V>): (r: Replaced<V>)
    ensures r.ok <==> d.Decoded?
    ensures d.Decoded? ==> r.store == d.table
    ensures d.Malformed? ==> Entries(r.store) == d.partial
  {
    match d
    case Decoded(t) => Replaced(t, true)
    case Malformed(p) => Replaced(Some(p), false)
  }

  /** No merge: a key of the prior table that the payload lacks is gone after any update. */
  lemma ReplaceForgetsPrior<V>(prior: Store<V>, d: Decoded<V>, k: string)
    requires k in Entries(prior)
    requires d.Decoded? ==> k !in Entries(d.table)
    requires d.Malformed? ==> k !in d.partial
    ensures k !in Entries(Replace(prior, d).store)
  {
  }

  /** A failed update with nothing decoded empties the store, whatever it held. */
  lemma FailedReplaceClearsStore<V>(prior: Store<V>)
    ensures Replace(prior, Malformed(map[])).ok == false
    ensures Entries(Replace(prior, Malformed(map[])).store) == map[]
  {
  }

  /** Entry-by-entry copy of a table (`for k, v := range src { dst[k] = v }`). */
  method CopyTable<V>(src: map<string, V>) returns (dst: map<string, V>)
    ensures dst == src
  {
    dst := map[];
    var pending := src.Keys;
    while pending != {}
      invariant pending <= src.Keys
      invariant dst.Keys == src.Keys - pending
      invariant forall k :: k in dst ==> dst[k] == src[k]
      decreases pending
    {
      var k :| k in pending;
      dst := dst[k := src[k]];
      pending := pending - {k};
    }
  }
}
