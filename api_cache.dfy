/** The older API cache of resources/lib/api/cache.py: module-level
    buckets loaded from window properties without locking, one TTL for all
    entries, no disk tier. Deleting an absent key raises, and a wipe only
    reaches the buckets this process has loaded. */
module ApiCache {
  import opened Wrappers
  import Cache

  type Bucket = Cache.Bucket
  type Identifier = Cache.Identifier
  type Entries<V> = Cache.Entries<V>

  const ApiCacheCommon: Bucket := "cache_common"
  const ApiCacheVideoList: Bucket := "cache_video_list"
  const ApiCacheSeasons: Bucket := "cache_seasons"
  const ApiCacheEpisodes: Bucket := "cache_episodes"
  const ApiCacheMetadata: Bucket := "cache_metadata"

  const ApiBucketNames: set<Bucket> :=
    {ApiCacheCommon, ApiCacheVideoList, ApiCacheSeasons, ApiCacheEpisodes, ApiCacheMetadata}

  /** In-memory buckets and the window properties (an absent property, or
      one that does not unpickle, is left out of `window`). */
  datatype ApiStore<V> = ApiStore(buckets: map<Bucket, Entries<V>>, window: map<Bucket, Entries<V>>)

  /** A decoration of the older `cache_output`; the parameter name defaults
      to None, which no keyword argument matches. */
  datatype ApiDecoration = ApiDecoration(
    bucket: Bucket,
    paramIndex: nat,
    paramName: Option<string>,
    fixedIdentifier: Option<Identifier>)

  /** Result of one call through the decorator, and how many times the
      wrapped function ran */
  datatype ApiCall<V> = ApiCall(result: Result<V>, store: ApiStore<V>, calls: nat)

  /** The identifier the wrapper computes, None when `args[index]` raised */
  function Identify(d: ApiDecoration, args: Cache.Args): (r: Option<Identifier>)
    ensures r.None? <==>
      (d.fixedIdentifier.None? || d.fixedIdentifier.value == "") && |args.positional| <= d.paramIndex
    ensures r.Some? && d.paramName.Some? && d.paramName.value in args.keywords &&
            (d.fixedIdentifier.None? || d.fixedIdentifier.value == "") ==>
      r.value == args.keywords[d.paramName.value]
  {
    if d.fixedIdentifier.Some? && d.fixedIdentifier.value != "" then d.fixedIdentifier
    else if d.paramIndex < |args.positional| then
      var positional := args.positional[d.paramIndex];
      Some(if d.paramName.Some? && d.paramName.value in args.keywords
           then args.keywords[d.paramName.value] else positional)
    else None
  }

  /** The bucket as `get_bucket` returns it: the loaded one, else the
      unpickled window property, else an empty bucket. */
  function View<V>(s: ApiStore<V>, b: Bucket): Entries<V> {
    if b in s.buckets then s.buckets[b] else if b in s.window then s.window[b] else map[]
  }

  function Loaded<V>(s: ApiStore<V>, b: Bucket): (r: ApiStore<V>)
    ensures b in r.buckets && r.buckets[b] == View(s, b) && r.window == s.window
  {
    ApiStore(s.buckets[b := View(s, b)], s.window)
  }

  /** `get`: an absent key, or an entry whose end of life is before now
      (which is also deleted), raises `CacheMiss`. */
  function GetSpec<V>(s: ApiStore<V>, b: Bucket, id: Identifier, now: int): (r: (Result<V>, ApiStore<V>))
    ensures b !in ApiBucketNames ==> r == (Err(UnknownCacheBucket), s)
    ensures b in ApiBucketNames ==>
      r.0 == (if id in View(s, b) && !Cache.Expired(View(s, b)[id], now)
              then Ok(View(s, b)[id].content) else Err(CacheMiss))
    ensures b in ApiBucketNames ==> b in r.1.buckets && id in View(s, b) && Cache.Expired(View(s, b)[id], now) ==>
      r.1.buckets[b] == View(s, b) - {id}
    ensures r.1.window == s.window
  {
    if b !in ApiBucketNames then (Err(UnknownCacheBucket), s)
    else
      var l := Loaded(s, b);
      if id !in l.buckets[b] then (Err(CacheMiss), l)
      else if Cache.Expired(l.buckets[b][id], now) then
        (Err(CacheMiss), ApiStore(l.buckets[b := l.buckets[b] - {id}], l.window))
      else (Ok(l.buckets[b][id].content), l)
  }

  /** `add`: always the module TTL, replacing any entry under the key */
  function AddSpec<V>(s: ApiStore<V>, ttl: int, b: Bucket, id: Identifier, content: V, now: int)
    : (r: (Result<()>, ApiStore<V>))
    ensures r.0.Ok? <==> b in ApiBucketNames
    ensures r.0.Ok? ==> b in r.1.buckets && r.1.buckets[b] == View(s, b)[id := Cache.Entry(now + ttl, content)]
    ensures r.0.Err? ==> r.1 == s
  {
    if b !in ApiBucketNames then (Err(UnknownCacheBucket), s)
    else
      var l := Loaded(s, b);
      (Ok(()), ApiStore(l.buckets[b := l.buckets[b][id := Cache.Entry(now + ttl, content)]], l.window))
  }

  /** `invalidate_entry`: `del` on the bucket, so an absent key raises */
  function InvalidateEntrySpec<V>(s: ApiStore<V>, b: Bucket, id: Identifier): (r: (Result<()>, ApiStore<V>))
    ensures r.0.Ok? <==> b in ApiBucketNames && id in View(s, b)
    ensures b in ApiBucketNames && id !in View(s, b) ==> r.0 == Err(KeyError)
    ensures r.0.Ok? ==> r.1.buckets == s.buckets[b := View(s, b) - {id}]
  {
    if b !in ApiBucketNames then (Err(UnknownCacheBucket), s)
    else
      var l := Loaded(s, b);
      if id !in l.buckets[b] then (Err(KeyError), l)
      else (Ok(()), ApiStore(l.buckets[b := l.buckets[b] - {id}], l.window))
  }

  /** `invalidate_cache`: clears the properties of the loaded buckets only */
  function InvalidateCacheSpec<V>(s: ApiStore<V>): (r: ApiStore<V>)
    ensures r.buckets == map[]
    ensures forall b :: b in s.buckets ==> View(r, b) == map[]
    ensures forall b :: b !in s.buckets ==> View(r, b) == View(s, b)
  {
    ApiStore(map[], s.window - s.buckets.Keys)
  }

  /** `commit`: every loaded bucket overwrites its property */
  function CommitSpec<V>(s: ApiStore<V>): (r: ApiStore<V>)
    ensures r.buckets == s.buckets
    ensures forall b :: b in s.buckets ==> b in r.window && r.window[b] == s.buckets[b]
    ensures forall b :: b !in s.buckets && b in s.window ==> b in r.window && r.window[b] == s.window[b]
  {
    ApiStore(s.buckets, s.window + s.buckets)
  }

  /** One call of a function decorated with `d` as the code is written:
      when the identifier cannot be determined, the error is logged and the
      lookup then uses the unbound `identifier`, which raises `NameError`. */
  function CachedCallSpec<V>(s: ApiStore<V>, ttl: int, d: ApiDecoration, args: Cache.Args,
                             producer: Cache.Args -> Result<V>, now: int): (r: ApiCall<V>)
    ensures r.calls <= 1
    ensures Identify(d, args).None? ==> r == ApiCall(Err(NameError), s, 0)
    ensures Identify(d, args).Some? && d.bucket in ApiBucketNames &&
            Identify(d, args).value in View(s, d.bucket) &&
            !Cache.Expired(View(s, d.bucket)[Identify(d, args).value], now) ==>
      r.calls == 0 && r.result == Ok(View(s, d.bucket)[Identify(d, args).value].content)
    ensures Identify(d, args).Some? && d.bucket in ApiBucketNames &&
            (Identify(d, args).value in View(s, d.bucket) ==>
               Cache.Expired(View(s, d.bucket)[Identify(d, args).value], now)) ==>
      r.calls == 1
    ensures r.calls == 1 ==> r.result == producer(args)
    ensures r.calls == 1 && producer(args).Err? ==>
      d.bucket in r.store.buckets && Identify(d, args).value !in r.store.buckets[d.bucket]
    ensures r.calls == 1 && producer(args).Ok? ==>
      d.bucket in r.store.buckets && Identify(d, args).value in r.store.buckets[d.bucket] &&
      r.store.buckets[d.bucket][Identify(d, args).value] == Cache.Entry(now + ttl, producer(args).value)
  {
    match Identify(d, args)
    case None => ApiCall(Err(NameError), s, 0)
    case Some(id) =>
      var g := GetSpec(s, d.bucket, id, now);
      if g.0.Ok? || g.0.exc != CacheMiss then ApiCall(g.0, g.1, 0)
      else
        var out := producer(args);
        if out.Err? then ApiCall(out, g.1, 1)
        else ApiCall(out, AddSpec(g.1, ttl, d.bucket, id, out.value, now).1, 1)
  }

  /** The decorator as its error message intends it (and as the newer
      cache does it): a call whose identifier cannot be determined runs
      uncached. */
  function IntendedCachedCallSpec<V>(s: ApiStore<V>, ttl: int, d: ApiDecoration, args: Cache.Args,
                                     producer: Cache.Args -> Result<V>, now: int): (r: ApiCall<V>)
    ensures Identify(d, args).None? ==> r == ApiCall(producer(args), s, 1)
    ensures Identify(d, args).Some? ==> r == CachedCallSpec(s, ttl, d, args, producer, now)
    ensures r.result.Err? && r.result.exc == NameError ==> producer(args) == Err(NameError)
  {
    if Identify(d, args).None? then ApiCall(producer(args), s, 1)
    else CachedCallSpec(s, ttl, d, args, producer, now)
  }

  /** A call made with keyword arguments only, such as
      `video_list(list_id='...')`, raises `NameError` without running the
      function, although the keyword names the identifier. */
  lemma KeywordOnlyCallRaises<V>(s: ApiStore<V>, ttl: int, producer: Cache.Args -> Result<V>, now: int)
    ensures var d := ApiDecoration(ApiCacheVideoList, 0, Some("list_id"), None);
            var args := Cache.Args([], map["list_id" := "lolomo_queue"]);
            CachedCallSpec(s, ttl, d, args, producer, now) == ApiCall(Err(NameError), s, 0)
  {
  }

  /** Under the intended rule the same call returns what the function returns. */
  lemma KeywordOnlyCallRunsUncached<V>(s: ApiStore<V>, ttl: int, producer: Cache.Args -> Result<V>, now: int)
    ensures var d := ApiDecoration(ApiCacheVideoList, 0, Some("list_id"), None);
            var args := Cache.Args([], map["list_id" := "lolomo_queue"]);
            IntendedCachedCallSpec(s, ttl, d, args, producer, now) == ApiCall(producer(args), s, 1)
  {
  }

  /** Invalidating the same key twice raises on the second call. */
  lemma InvalidateEntryIsNotIdempotent<V>(s: ApiStore<V>, b: Bucket, id: Identifier)
    requires b in ApiBucketNames && id in View(s, b)
    ensures var first := InvalidateEntrySpec(s, b, id);
            first.0.Ok? && InvalidateEntrySpec(first.1, b, id).0 == Err(KeyError)
  {
    var first := InvalidateEntrySpec(s, b, id);
    assert View(first.1, b) == View(s, b) - {id};
  }

  /** A bucket this process never loaded survives `invalidate_cache`: its
      stale entries are still served afterwards. */
  lemma WipeMissesUnloadedBuckets<V>(s: ApiStore<V>, b: Bucket, id: Identifier, now: int)
    requires b in ApiBucketNames && b !in s.buckets
    requires id in View(s, b) && !Cache.Expired(View(s, b)[id], now)
    ensures GetSpec(InvalidateCacheSpec(s), b, id, now).0 == Ok(View(s, b)[id].content)
  {
    assert View(InvalidateCacheSpec(s), b) == View(s, b);
  }

  /** The buckets `commit` has written while `pending` are still to come */
  function Written<V>(buckets: map<Bucket, Entries<V>>, pending: set<Bucket>): map<Bucket, Entries<V>> {
    map b | b in buckets.Keys - pending :: buckets[b]
  }

  lemma WriteOneMore<V>(window: map<Bucket, Entries<V>>, buckets: map<Bucket, Entries<V>>, pending: set<Bucket>, b: Bucket)
    requires b in pending && pending <= buckets.Keys
    ensures (window + Written(buckets, pending))[b := buckets[b]] == window + Written(buckets, pending - {b})
  {
  }

  /** The module state of resources/lib/api/cache.py: `BUCKETS` and the
      window properties it reads and writes. */
  class ApiCache<V> {
    /** `common.CACHE_TTL`, in seconds */
    const ttl: int
    var buckets: map<Bucket, Entries<V>>
    var window: map<Bucket, Entries<V>>

    function State(): ApiStore<V>
      reads this
    {
      ApiStore(buckets, window)
    }

    constructor(ttl: int, window: map<Bucket, Entries<V>>)
      ensures this.ttl == ttl && State() == ApiStore(map[], window)
    {
      this.ttl := ttl;
      this.buckets := map[];
      this.window := window;
    }

    method GetBucket(b: Bucket) returns (r: Result<Entries<V>>)
      modifies this`buckets
      ensures b !in ApiBucketNames ==> r == Err(UnknownCacheBucket) && State() == old(State())
      ensures b in ApiBucketNames ==> r == Ok(old(View(State(), b))) && State() == old(Loaded(State(), b))
    {
      if b !in ApiBucketNames {
        return Err(UnknownCacheBucket);
      }
      if b !in buckets {
        // `_load_bucket`: an unreadable property gives an empty bucket
        var loaded := if b in window then window[b] else map[];
        buckets := buckets[b := loaded];
      }
      r := Ok(buckets[b]);
    }

    method Get(b: Bucket, id: Identifier, now: int) returns (r: Result<V>)
      modifies this`buckets
      ensures (r, State()) == old(GetSpec(State(), b, id, now))
    {
      var bucket := GetBucket(b);
      if bucket.Err? {
        return Err(bucket.exc);
      }
      if id !in bucket.value {
        return Err(CacheMiss);
      }
      var e := bucket.value[id];
      if e.eol < now {
        buckets := buckets[b := bucket.value - {id}];
        return Err(CacheMiss);
      }
      r := Ok(e.content);
    }

    method Add(b: Bucket, id: Identifier, content: V, now: int) returns (r: Result<()>)
      modifies this`buckets
      ensures (r, State()) == old(AddSpec(State(), ttl, b, id, content, now))
    {
      var bucket := GetBucket(b);
      if bucket.Err? {
        return Err(bucket.exc);
      }
      buckets := buckets[b := bucket.value[id := Cache.Entry(now + ttl, content)]];
      r := Ok(());
    }

    method InvalidateEntry(b: Bucket, id: Identifier) returns (r: Result<()>)
      modifies this`buckets
      ensures (r, State()) == old(InvalidateEntrySpec(State(), b, id))
    {
      var bucket := GetBucket(b);
      if bucket.Err? {
        return Err(bucket.exc);
      }
      if id !in bucket.value {
        return Err(KeyError);
      }
      buckets := buckets[b := bucket.value - {id}];
      r := Ok(());
    }

    method InvalidateCache()
      modifies this`buckets, this`window
      ensures State() == old(InvalidateCacheSpec(State()))
    {
      var pending := buckets.Keys;
      while pending != {}
        invariant pending <= buckets.Keys
        invariant buckets == old(buckets)
        invariant window == old(window) - (buckets.Keys - pending)
        decreases pending
      {
        var b :| b in pending;
        window := window - {b};
        pending := pending - {b};
      }
      buckets := map[];
    }

    method Commit()
      modifies this`window
      ensures State() == old(CommitSpec(State()))
    {
      var pending := buckets.Keys;
      assert old(window) + Written(buckets, pending) == window;
      while pending != {}
        invariant pending <= buckets.Keys
        invariant window == old(window) + Written(buckets, pending)
        decreases pending
      {
        var b :| b in pending;
        WriteOneMore(old(window), buckets, pending, b);
        window := window[b := buckets[b]];
        pending := pending - {b};
      }
      assert Written(buckets, {}) == buckets;
    }

    method CachedCall(d: ApiDecoration, args: Cache.Args, producer: Cache.Args -> Result<V>, now: int)
      returns (r: Result<V>, calls: nat)
      modifies this`buckets
      ensures ApiCall(r, State(), calls) == old(CachedCallSpec(State(), ttl, d, args, producer, now))
    {
      var key := Identify(d, args);
      if key.None? {
        // the error is only logged; the lookup below reads an unbound name
        return Err(NameError), 0;
      }
      var got := Get(d.bucket, key.value, now);
      if got.Ok? || got.exc != CacheMiss {
        return got, 0;
      }
      var output := producer(args);
      calls := 1;
      r := output;
      if output.Ok? {
        var _ := Add(d.bucket, key.value, output.value, now);
      }
    }
  }
}
