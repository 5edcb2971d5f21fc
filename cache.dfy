/** The general cache of resources/lib/cache.py: named buckets of entries
    with an end-of-life timestamp, kept in process memory, shared between
    add-on invocations through Kodi window properties guarded by a lock
    marker, with an optional disk copy per entry.

    The step functions on `Store` say what each operation does to the three
    tiers; the class `Cache` performs the same steps statement by statement
    and each method is proved to agree with its step function. The lemmas
    at the end state the caching guarantees over those functions. */
module Cache {
  import opened Wrappers

  type Bucket = string
  type Identifier = string

  const CacheCommon: Bucket := "cache_common"
  const CacheGenres: Bucket := "cache_genres"
  const CacheMetadata: Bucket := "cache_metadata"
  const CacheInfolabels: Bucket := "cache_infolabels"
  const CacheArtinfo: Bucket := "cache_artinfo"
  const CacheLibrary: Bucket := "library"

  /** The bucket names this file declares; a `Config` carries the set of
      names a cache instance accepts. */
  const BucketNames: set<Bucket> :=
    {CacheCommon, CacheGenres, CacheMetadata, CacheInfolabels, CacheArtinfo, CacheLibrary}

  /** One hundred years, for entries that should never expire */
  const TtlInfinite: int := 60 * 60 * 24 * 365 * 100

  /** `_load_bucket` polls a locked property this many times (`range(1, 10)`) */
  const LockPolls: nat := 9

  datatype Entry<V> = Entry(eol: int, content: V)

  type Entries<V> = map<Identifier, Entry<V>>

  /** The window property of a bucket: nothing that unpickles (absent or
      garbage), the lock marker of the plugin handle holding it, or a
      pickled bucket. */
  datatype WindowProperty<V> = Unreadable | Locked(owner: int) | Pickled(entries: Entries<V>)

  /** Files under the data path: the library database, or one file per
      entry in `cache/<bucket>/<identifier>.cache`. */
  datatype Path = LibraryFile | EntryFile(bucket: Bucket, identifier: Identifier)

  /** A file that fails to unpickle, or a pickled entry */
  datatype DiskFile<V> = Corrupt | Saved(entry: Entry<V>)

  /** The three tiers: in-memory buckets, window properties, disk files */
  datatype Store<V> = Store(
    buckets: map<Bucket, Entries<V>>,
    window: map<Bucket, WindowProperty<V>>,
    disk: map<Path, DiskFile<V>>)

  /** Constructor arguments of a cache instance and its environment:
      accepted bucket names, default TTL and metadata TTL in seconds, the
      plugin handle that forms the lock marker, and whether writing files
      succeeds. */
  datatype Config = Config(
    bucketNames: set<Bucket>,
    ttl: int,
    metadataTtl: int,
    lockMarker: int,
    diskWritable: bool)

  /** Arguments of a call to a decorated function */
  datatype Args = Args(positional: seq<Identifier>, keywords: map<string, Identifier>)

  /** The parameters of one `cache_output` decoration */
  datatype Decoration = Decoration(
    bucket: Bucket,
    paramIndex: nat,
    paramName: string,
    fixedIdentifier: Option<Identifier>,
    ttl: Option<int>,
    toDisk: bool)

  /** A decoration with the defaults of `cache_output` for the optional parameters */
  function Decorate(bucket: Bucket, paramIndex: nat, paramName: string): Decoration {
    Decoration(bucket, paramIndex, paramName, None, None, false)
  }

  predicate Expired<V>(e: Entry<V>, now: int) {
    e.eol < now
  }

  /** `ttl if ttl else default`: None and 0 both select the default */
  function EffectiveTtl(ttl: Option<int>, default: int): int {
    if ttl.Some? && ttl.value != 0 then ttl.value else default
  }

  /** The key rule of `_get_identifier`: a truthy fixed identifier wins;
      otherwise the keyword argument is preferred, but the positional
      default `args[index]` is evaluated first, so a short positional list
      gives `IndexError` (None) even when the keyword is present. */
  function GetIdentifier(d: Decoration, args: Args): (r: Option<Identifier>)
    ensures d.fixedIdentifier.Some? && d.fixedIdentifier.value != "" ==> r == d.fixedIdentifier
    ensures r.None? <==>
      (d.fixedIdentifier.None? || d.fixedIdentifier.value == "") && |args.positional| <= d.paramIndex
    ensures r.Some? && (d.fixedIdentifier.None? || d.fixedIdentifier.value == "") ==>
      r.value == (if d.paramName in args.keywords then args.keywords[d.paramName]
                  else args.positional[d.paramIndex])
  {
    if d.fixedIdentifier.Some? && d.fixedIdentifier.value != "" then d.fixedIdentifier
    else if d.paramIndex < |args.positional| then
      var positional := args.positional[d.paramIndex];
      Some(if d.paramName in args.keywords then args.keywords[d.paramName] else positional)
    else None
  }

  /** `_entry_filename`: every identifier of the library bucket shares the
      library database file; other entries get a file of their own. */
  function EntryFilename(b: Bucket, id: Identifier): (p: Path)
    ensures p == LibraryFile <==> b == CacheLibrary
    ensures b != CacheLibrary ==> p.bucket == b && p.identifier == id
  {
    if b == CacheLibrary then LibraryFile else EntryFile(b, id)
  }

  function PropertyOf<V>(window: map<Bucket, WindowProperty<V>>, b: Bucket): WindowProperty<V> {
    if b in window then window[b] else Unreadable
  }

  /** `_load_bucket` in one step: a property locked by anyone yields an
      empty bucket and leaves the window alone (after the polls); anything
      else is unpickled (garbage gives an empty bucket) and the property is
      overwritten with this instance's lock marker. */
  function LoadBucketSpec<V>(window: map<Bucket, WindowProperty<V>>, b: Bucket, marker: int)
    : (r: (Entries<V>, map<Bucket, WindowProperty<V>>))
    ensures PropertyOf(window, b).Locked? ==> r == (map[], window)
    ensures !PropertyOf(window, b).Locked? ==> r.1 == window[b := Locked(marker)]
    ensures PropertyOf(window, b).Pickled? ==> r.0 == PropertyOf(window, b).entries
    ensures PropertyOf(window, b).Unreadable? ==> r.0 == map[]
  {
    match PropertyOf(window, b)
    case Locked(_) => (map[], window)
    case Unreadable => (map[], window[b := Locked(marker)])
    case Pickled(entries) => (entries, window[b := Locked(marker)])
  }

  /** The contents bucket `b` has once `_get_bucket(b)` has run */
  function View<V>(s: Store<V>, c: Config, b: Bucket): Entries<V> {
    if b in s.buckets then s.buckets[b] else LoadBucketSpec(s.window, b, c.lockMarker).0
  }

  /** The store after `_get_bucket(b)` for an accepted name */
  function Loaded<V>(s: Store<V>, c: Config, b: Bucket): (r: Store<V>)
    ensures b in r.buckets && r.buckets[b] == View(s, c, b)
    ensures r.disk == s.disk
    ensures forall x :: x in s.buckets ==> x in r.buckets && r.buckets[x] == s.buckets[x]
  {
    if b in s.buckets then s
    else
      var loaded := LoadBucketSpec(s.window, b, c.lockMarker);
      Store(s.buckets[b := loaded.0], loaded.1, s.disk)
  }

  /** `_purge_entry`: delete from the bucket (`KeyError` when absent, after
      the bucket has been loaded), then delete the entry's file if any. */
  function PurgeSpec<V>(s: Store<V>, c: Config, b: Bucket, id: Identifier): (Result<()>, Store<V>) {
    if b !in c.bucketNames then (Err(UnknownCacheBucket), s)
    else
      var l := Loaded(s, c, b);
      if id !in l.buckets[b] then (Err(KeyError), l)
      else (Ok(()), Store(l.buckets[b := l.buckets[b] - {id}], l.window, l.disk - {EntryFilename(b, id)}))
  }

  /** `add`: the entry ends its life `ttl` seconds from now (the instance
      default when `ttl` is None or 0), replaces any entry under the key,
      and is also written to its file when asked and the write succeeds. */
  function AddSpec<V>(s: Store<V>, c: Config, b: Bucket, id: Identifier, content: V,
                      ttl: Option<int>, toDisk: bool, now: int): (r: (Result<()>, Store<V>))
    ensures r.0.Ok? <==> b in c.bucketNames
    ensures r.0.Err? ==> r == (Err(UnknownCacheBucket), s)
    ensures r.0.Ok? ==>
      && b in r.1.buckets
      && r.1.buckets[b] == View(s, c, b)[id := Entry(now + EffectiveTtl(ttl, c.ttl), content)]
    ensures r.0.Ok? ==> r.1.disk == (if toDisk && c.diskWritable
                                     then s.disk[EntryFilename(b, id) := Saved(Entry(now + EffectiveTtl(ttl, c.ttl), content))]
                                     else s.disk)
  {
    if b !in c.bucketNames then (Err(UnknownCacheBucket), s)
    else
      var l := Loaded(s, c, b);
      var e := Entry(now + EffectiveTtl(ttl, c.ttl), content);
      var disk := if toDisk && c.diskWritable then l.disk[EntryFilename(b, id) := Saved(e)] else l.disk;
      (Ok(()), Store(l.buckets[b := l.buckets[b][id := e]], l.window, disk))
  }

  /** `verify_ttl`: an entry whose end of life is before now is purged and
      reported as a miss. */
  function VerifyTtlSpec<V>(s: Store<V>, c: Config, b: Bucket, id: Identifier, e: Entry<V>, now: int)
    : (Result<()>, Store<V>)
  {
    if Expired(e, now) then
      var p := PurgeSpec(s, c, b, id);
      (Err(if p.0.Err? then p.0.exc else CacheMiss), p.1)
    else (Ok(()), s)
  }

  /** The file entry `get` falls back to, if it unpickles */
  function DiskEntry<V>(s: Store<V>, b: Bucket, id: Identifier): Option<Entry<V>> {
    var p := EntryFilename(b, id);
    if p in s.disk && s.disk[p].Saved? then Some(s.disk[p].entry) else None
  }

  /** `get`: memory first; on a memory miss the file entry is re-added to
      memory with the default TTL, but its freshness is judged on the
      file's own end of life. */
  function GetSpec<V>(s: Store<V>, c: Config, b: Bucket, id: Identifier, now: int): (r: (Result<V>, Store<V>))
    ensures b !in c.bucketNames ==> r == (Err(UnknownCacheBucket), s)
    ensures b in c.bucketNames && id in View(s, c, b) ==>
      r.0 == (if Expired(View(s, c, b)[id], now) then Err(CacheMiss) else Ok(View(s, c, b)[id].content))
    ensures b in c.bucketNames && id !in View(s, c, b) ==>
      r.0 == (match DiskEntry(s, b, id)
              case None => Err(CacheMiss)
              case Some(e) => if Expired(e, now) then Err(CacheMiss) else Ok(e.content))
    ensures r.0.Err? ==> r.0.exc in {CacheMiss, UnknownCacheBucket}
    ensures r.1.disk.Keys <= s.disk.Keys
    ensures b in c.bucketNames && r.0.Err? ==> b in r.1.buckets && id !in r.1.buckets[b]
  {
    if b !in c.bucketNames then (Err(UnknownCacheBucket), s)
    else
      var l := Loaded(s, c, b);
      if id in l.buckets[b] then
        var e := l.buckets[b][id];
        var v := VerifyTtlSpec(l, c, b, id, e, now);
        (if v.0.Ok? then Ok(e.content) else Err(v.0.exc), v.1)
      else
        match DiskEntry(l, b, id)
        case None => (Err(CacheMiss), l)
        case Some(e) =>
          var promoted := AddSpec(l, c, b, id, e.content, None, false, now).1;
          var v := VerifyTtlSpec(promoted, c, b, id, e, now);
          (if v.0.Ok? then Ok(e.content) else Err(v.0.exc), v.1)
  }

  /** `invalidate_entry`: purge, treating an absent key as nothing to do */
  function InvalidateEntrySpec<V>(s: Store<V>, c: Config, b: Bucket, id: Identifier): (r: (Result<()>, Store<V>))
    ensures r.0.Err? <==> b !in c.bucketNames
    ensures r.0.Ok? ==> b in r.1.buckets && r.1.buckets[b] == View(s, c, b) - {id}
    ensures r.0.Ok? ==> r.1.disk == (if id in View(s, c, b) then s.disk - {EntryFilename(b, id)} else s.disk)
    ensures r.0.Ok? ==> forall x :: x in s.buckets && x != b ==> x in r.1.buckets && r.1.buckets[x] == s.buckets[x]
  {
    var p := PurgeSpec(s, c, b, id);
    if p.0.Err? && p.0.exc == KeyError then (Ok(()), p.1) else p
  }

  /** `invalidate`: clears the window property of every accepted bucket and
      drops every in-memory bucket; files on disk are kept. */
  function InvalidateSpec<V>(s: Store<V>, c: Config): (r: Store<V>)
    ensures forall b :: b in c.bucketNames ==> View(r, c, b) == map[]
    ensures r.disk == s.disk
  {
    Store(map[], s.window - c.bucketNames, s.disk)
  }

  /** The window property of `b` after `commit`: a loaded bucket is
      written back only while this instance still holds its lock. */
  function Persisted<V>(s: Store<V>, c: Config, b: Bucket): WindowProperty<V>
    requires b in s.window
  {
    if b in s.buckets && s.window[b].Locked? && s.window[b].owner == c.lockMarker
    then Pickled(s.buckets[b])
    else s.window[b]
  }

  /** `commit`: every loaded bucket is persisted through `_persist_bucket` */
  function CommitSpec<V>(s: Store<V>, c: Config): (r: Store<V>)
    ensures r.buckets == s.buckets && r.disk == s.disk
    ensures r.window.Keys == s.window.Keys
    ensures forall b :: b in s.buckets && PropertyOf(s.window, b) == Locked(c.lockMarker) ==>
      PropertyOf(r.window, b) == Pickled(s.buckets[b])
    ensures forall b :: b !in s.buckets || !PropertyOf(s.window, b).Locked? || PropertyOf(s.window, b).owner != c.lockMarker ==>
      PropertyOf(r.window, b) == PropertyOf(s.window, b)
  {
    Store(s.buckets, map b | b in s.window :: Persisted(s, c, b), s.disk)
  }

  /** The `try` half of the `cache_output` wrapper: a hit, a miss that
      calls the function and then adds under `key` (None when the key could
      not be determined: call uncached), or an exception to propagate. */
  datatype Lookup<V> = Hit(content: V) | Miss(key: Option<Identifier>) | Raised(exc: Exc)

  function LookupSpec<V>(s: Store<V>, c: Config, d: Decoration, args: Args, now: int): (r: (Lookup<V>, Store<V>))
    ensures GetIdentifier(d, args).None? ==> r == (Miss(None), s)
    ensures r.0.Miss? ==> r.0.key == GetIdentifier(d, args)
  {
    match GetIdentifier(d, args)
    case None => (Miss(None), s)
    case Some(id) =>
      var g := GetSpec(s, c, d.bucket, id, now);
      if g.0.Ok? then (Hit(g.0.value), g.1)
      else if g.0.exc == CacheMiss then (Miss(Some(id)), g.1)
      else (Raised(g.0.exc), g.1)
  }

  /** The `except CacheMiss` half: the function's output is added under the
      key and returned; an exception from the function propagates and adds
      nothing. */
  function CompleteSpec<V>(s: Store<V>, c: Config, d: Decoration, key: Option<Identifier>, output: Result<V>, now: int)
    : (Result<V>, Store<V>)
  {
    if key.None? || output.Err? then (output, s)
    else
      var a := AddSpec(s, c, d.bucket, key.value, output.value, d.ttl, d.toDisk, now);
      (if a.0.Err? then Err(a.0.exc) else output, a.1)
  }

  /** Neither tier answers `id` in bucket `b`: the memory entry has
      expired, or there is none and the file is missing, unreadable or
      expired */
  predicate NotFresh<V>(s: Store<V>, c: Config, b: Bucket, id: Identifier, now: int) {
    if id in View(s, c, b) then Expired(View(s, c, b)[id], now)
    else DiskEntry(s, b, id).None? || Expired(DiskEntry(s, b, id).value, now)
  }

  /** Result of one call through the decorator, and how many times the
      wrapped function ran */
  datatype Call<V> = Call(result: Result<V>, store: Store<V>, calls: nat)

  /** One call of a function decorated with `d`, `producer` standing for the
      wrapped function. */
  function CachedCallSpec<V>(s: Store<V>, c: Config, d: Decoration, args: Args,
                             producer: Args -> Result<V>, now: int): (r: Call<V>)
    ensures r.calls <= 1
    ensures GetIdentifier(d, args).None? ==> r == Call(producer(args), s, 1)
    ensures GetIdentifier(d, args).Some? && d.bucket in c.bucketNames &&
            GetIdentifier(d, args).value in View(s, c, d.bucket) &&
            !Expired(View(s, c, d.bucket)[GetIdentifier(d, args).value], now) ==>
      r.calls == 0 && r.result == Ok(View(s, c, d.bucket)[GetIdentifier(d, args).value].content)
    ensures GetIdentifier(d, args).Some? && d.bucket in c.bucketNames &&
            GetIdentifier(d, args).value !in View(s, c, d.bucket) &&
            !NotFresh(s, c, d.bucket, GetIdentifier(d, args).value, now) ==>
      r.calls == 0 && r.result == Ok(DiskEntry(s, d.bucket, GetIdentifier(d, args).value).value.content)
    ensures d.bucket !in c.bucketNames && GetIdentifier(d, args).Some? ==>
      r == Call(Err(UnknownCacheBucket), s, 0)
    ensures GetIdentifier(d, args).Some? && d.bucket in c.bucketNames &&
            NotFresh(s, c, d.bucket, GetIdentifier(d, args).value, now) ==>
      r.calls == 1 && r.result == producer(args)
    ensures r.calls == 1 && producer(args).Err? ==> r.result == producer(args)
    ensures GetIdentifier(d, args).Some? && r.calls == 1 && producer(args).Err? ==>
      && r.store.disk.Keys <= s.disk.Keys
      && d.bucket in r.store.buckets && GetIdentifier(d, args).value !in r.store.buckets[d.bucket]
    ensures GetIdentifier(d, args).Some? && r.calls == 1 && producer(args).Ok? ==>
      && r.result == producer(args)
      && d.bucket in r.store.buckets
      && GetIdentifier(d, args).value in r.store.buckets[d.bucket]
      && r.store.buckets[d.bucket][GetIdentifier(d, args).value]
         == Entry(now + EffectiveTtl(d.ttl, c.ttl), producer(args).value)
  {
    FileHitSkipsCall(s, c, d, args, now);
    var l := LookupSpec(s, c, d, args, now);
    match l.0
    case Hit(v) => Call(Ok(v), l.1, 0)
    case Raised(e) => Call(Err(e), l.1, 0)
    case Miss(key) =>
      var out := producer(args);
      var done := CompleteSpec(l.1, c, d, key, out, now);
      Call(done.0, done.1, 1)
  }

  /** The lookup hits exactly when one of the two tiers holds a fresh entry:
      memory first, then the file. */
  lemma LookupByFreshness<V>(s: Store<V>, c: Config, d: Decoration, args: Args, now: int)
    ensures GetIdentifier(d, args).Some? && d.bucket in c.bucketNames &&
            GetIdentifier(d, args).value in View(s, c, d.bucket) &&
            !Expired(View(s, c, d.bucket)[GetIdentifier(d, args).value], now) ==>
      LookupSpec(s, c, d, args, now).0 == Hit(View(s, c, d.bucket)[GetIdentifier(d, args).value].content)
    ensures GetIdentifier(d, args).Some? && d.bucket in c.bucketNames &&
            GetIdentifier(d, args).value !in View(s, c, d.bucket) &&
            !NotFresh(s, c, d.bucket, GetIdentifier(d, args).value, now) ==>
      LookupSpec(s, c, d, args, now).0 == Hit(DiskEntry(s, d.bucket, GetIdentifier(d, args).value).value.content)
    ensures GetIdentifier(d, args).Some? && d.bucket in c.bucketNames &&
            NotFresh(s, c, d.bucket, GetIdentifier(d, args).value, now) ==>
      LookupSpec(s, c, d, args, now).0 == Miss(GetIdentifier(d, args))
  {
    FileHitSkipsCall(s, c, d, args, now);
  }

  /** After a memory miss, a fresh file entry answers the lookup. */
  lemma FileHitSkipsCall<V>(s: Store<V>, c: Config, d: Decoration, args: Args, now: int)
    ensures GetIdentifier(d, args).Some? && d.bucket in c.bucketNames &&
            GetIdentifier(d, args).value !in View(s, c, d.bucket) &&
            !NotFresh(s, c, d.bucket, GetIdentifier(d, args).value, now) ==>
      LookupSpec(s, c, d, args, now).0 == Hit(DiskEntry(s, d.bucket, GetIdentifier(d, args).value).value.content)
  {
    if GetIdentifier(d, args).Some? && d.bucket in c.bucketNames &&
       GetIdentifier(d, args).value !in View(s, c, d.bucket) &&
       !NotFresh(s, c, d.bucket, GetIdentifier(d, args).value, now) {
      FreshFileIsPromoted(s, c, d.bucket, GetIdentifier(d, args).value, now);
    }
  }

  /** A cache instance: the in-memory buckets of this process, the shared
      window properties and the files under the data path. */
  class Cache<V> {
    const config: Config
    var buckets: map<Bucket, Entries<V>>
    var window: map<Bucket, WindowProperty<V>>
    var disk: map<Path, DiskFile<V>>

    function State(): Store<V>
      reads this
    {
      Store(buckets, window, disk)
    }

    /** A new instance starts with no bucket loaded */
    constructor(config: Config, window: map<Bucket, WindowProperty<V>>, disk: map<Path, DiskFile<V>>)
      ensures this.config == config
      ensures State() == Store(map[], window, disk)
    {
      this.config := config;
      this.buckets := map[];
      this.window := window;
      this.disk := disk;
    }

    /** Polls the window property up to nine times while it holds a lock
        marker; takes the first unlocked value, or an empty bucket. */
    method LoadBucket(b: Bucket) returns (entries: Entries<V>)
      modifies this`window
      ensures (entries, window) == LoadBucketSpec(old(window), b, config.lockMarker)
    {
      var poll := 1;
      while poll < LockPolls + 1
        invariant 1 <= poll <= LockPolls + 1
        invariant window == old(window)
        invariant poll > 1 ==> PropertyOf(window, b).Locked?
      {
        var property := PropertyOf(window, b);
        if property.Locked? {
          // another invocation holds the bucket: wait and poll again
          poll := poll + 1;
        } else {
          entries := if property.Pickled? then property.entries else map[];
          window := window[b := Locked(config.lockMarker)];
          return;
        }
      }
      entries := map[];
    }

    /** `_get_bucket`: rejects unknown names, loads a bucket at most once */
    method GetBucket(b: Bucket) returns (r: Result<Entries<V>>)
      modifies this`buckets, this`window
      ensures b !in config.bucketNames ==> r == Err(UnknownCacheBucket) && State() == old(State())
      ensures b in config.bucketNames ==> r == Ok(old(View(State(), config, b))) && State() == old(Loaded(State(), config, b))
    {
      if b !in config.bucketNames {
        return Err(UnknownCacheBucket);
      }
      if b !in buckets {
        var entries := LoadBucket(b);
        buckets := buckets[b := entries];
      }
      r := Ok(buckets[b]);
    }

    method PurgeEntry(b: Bucket, id: Identifier) returns (r: Result<()>)
      modifies this`buckets, this`window, this`disk
      ensures (r, State()) == old(PurgeSpec(State(), config, b, id))
    {
      var bucket := GetBucket(b);
      if bucket.Err? {
        return Err(bucket.exc);
      }
      if id !in bucket.value {
        return Err(KeyError);
      }
      buckets := buckets[b := bucket.value - {id}];
      disk := disk - {EntryFilename(b, id)};
      r := Ok(());
    }

    method Add(b: Bucket, id: Identifier, content: V, ttl: Option<int>, toDisk: bool, now: int)
      returns (r: Result<()>)
      modifies this`buckets, this`window, this`disk
      ensures (r, State()) == old(AddSpec(State(), config, b, id, content, ttl, toDisk, now))
    {
      var e := Entry(now + EffectiveTtl(ttl, config.ttl), content);
      var bucket := GetBucket(b);
      if bucket.Err? {
        return Err(bucket.exc);
      }
      buckets := buckets[b := bucket.value[id := e]];
      if toDisk && config.diskWritable {
        disk := disk[EntryFilename(b, id) := Saved(e)];
      }
      r := Ok(());
    }

    method VerifyTtl(b: Bucket, id: Identifier, e: Entry<V>, now: int) returns (r: Result<()>)
      modifies this`buckets, this`window, this`disk
      ensures (r, State()) == old(VerifyTtlSpec(State(), config, b, id, e, now))
    {
      if e.eol < now {
        var purged := PurgeEntry(b, id);
        r := Err(if purged.Err? then purged.exc else CacheMiss);
      } else {
        r := Ok(());
      }
    }

    method Get(b: Bucket, id: Identifier, now: int) returns (r: Result<V>)
      modifies this`buckets, this`window, this`disk
      ensures (r, State()) == old(GetSpec(State(), config, b, id, now))
    {
      var bucket := GetBucket(b);
      if bucket.Err? {
        return Err(bucket.exc);
      }
      var e: Entry<V>;
      if id in bucket.value {
        e := bucket.value[id];
      } else {
        var p := EntryFilename(b, id);
        if p !in disk || disk[p].Corrupt? {
          return Err(CacheMiss);
        }
        e := disk[p].entry;
        var _ := Add(b, id, e.content, None, false, now);
      }
      var verified := VerifyTtl(b, id, e, now);
      r := if verified.Ok? then Ok(e.content) else Err(verified.exc);
    }

    method InvalidateEntry(b: Bucket, id: Identifier) returns (r: Result<()>)
      modifies this`buckets, this`window, this`disk
      ensures (r, State()) == old(InvalidateEntrySpec(State(), config, b, id))
    {
      r := PurgeEntry(b, id);
      if r.Err? && r.exc == KeyError {
        r := Ok(());
      }
    }

    method Invalidate()
      modifies this`buckets, this`window
      ensures State() == old(InvalidateSpec(State(), config))
    {
      var pending := config.bucketNames;
      while pending != {}
        invariant pending <= config.bucketNames
        invariant window == old(window) - (config.bucketNames - pending)
        invariant buckets == old(buckets) && disk == old(disk)
        decreases pending
      {
        var b :| b in pending;
        window := window - {b};
        pending := pending - {b};
      }
      buckets := map[];
    }

    method Commit()
      modifies this`window
      ensures State() == old(CommitSpec(State(), config))
    {
      var pending := buckets.Keys;
      while pending != {}
        invariant pending <= buckets.Keys
        invariant window.Keys == old(window).Keys
        invariant forall b :: b in window && b !in pending ==> window[b] == old(Persisted(State(), config, b))
        invariant forall b :: b in window && b in pending ==> window[b] == old(window)[b]
        decreases pending
      {
        var b :| b in pending;
        if b in window && window[b].Locked? && window[b].owner == config.lockMarker {
          window := window[b := Pickled(buckets[b])];
        }
        pending := pending - {b};
      }
    }

    method Lookup(d: Decoration, args: Args, now: int) returns (r: Lookup<V>)
      modifies this`buckets, this`window, this`disk
      ensures (r, State()) == old(LookupSpec(State(), config, d, args, now))
    {
      var key := GetIdentifier(d, args);
      if key.None? {
        return Miss(None);
      }
      var got := Get(d.bucket, key.value, now);
      if got.Ok? {
        r := Hit(got.value);
      } else if got.exc == CacheMiss {
        r := Miss(key);
      } else {
        r := Raised(got.exc);
      }
    }

    method Complete(d: Decoration, key: Option<Identifier>, output: Result<V>, now: int) returns (r: Result<V>)
      modifies this`buckets, this`window, this`disk
      ensures (r, State()) == old(CompleteSpec(State(), config, d, key, output, now))
    {
      r := output;
      if key.Some? && output.Ok? {
        var added := Add(d.bucket, key.value, output.value, d.ttl, d.toDisk, now);
        if added.Err? {
          r := Err(added.exc);
        }
      }
    }

    /** One call of a function decorated with `d` */
    method CachedCall(d: Decoration, args: Args, producer: Args -> Result<V>, now: int)
      returns (r: Result<V>, calls: nat)
      modifies this`buckets, this`window, this`disk
      ensures Call(r, State(), calls) == old(CachedCallSpec(State(), config, d, args, producer, now))
    {
      var lookup := Lookup(d, args, now);
      match lookup
      case Hit(v) =>
        r, calls := Ok(v), 0;
      case Raised(e) =>
        r, calls := Err(e), 0;
      case Miss(key) =>
        var output := producer(args);
        r := Complete(d, key, output, now);
        calls := 1;
    }
  }

  // ---------------------------------------------------------------------
  // Caching guarantees

  /** A call that misses and succeeds is answered from memory by every
      later call with the same key until its end of life, whichever
      function asks. */
  lemma RepeatedCallHits<V>(s: Store<V>, c: Config, d: Decoration, args: Args,
                            producer: Args -> Result<V>, now: int,
                            d2: Decoration, args2: Args, producer2: Args -> Result<V>, later: int)
    requires d.bucket in c.bucketNames && d2.bucket == d.bucket
    requires GetIdentifier(d, args).Some? && GetIdentifier(d2, args2) == GetIdentifier(d, args)
    requires CachedCallSpec(s, c, d, args, producer, now).calls == 1 && producer(args).Ok?
    requires later <= now + EffectiveTtl(d.ttl, c.ttl)
    ensures var first := CachedCallSpec(s, c, d, args, producer, now);
            var second := CachedCallSpec(first.store, c, d2, args2, producer2, later);
            second.calls == 0 && second.result == producer(args)
  {
    var first := CachedCallSpec(s, c, d, args, producer, now);
    var id := GetIdentifier(d, args).value;
    assert View(first.store, c, d.bucket)[id] == Entry(now + EffectiveTtl(d.ttl, c.ttl), producer(args).value);
  }

  /** Once the end of life has passed, the next call runs the function again. */
  lemma ExpiredCallRefetches<V>(s: Store<V>, c: Config, d: Decoration, args: Args,
                                producer: Args -> Result<V>, now: int, later: int)
    requires d.bucket in c.bucketNames && GetIdentifier(d, args).Some?
    requires CachedCallSpec(s, c, d, args, producer, now).calls == 1 && producer(args).Ok?
    requires later > now + EffectiveTtl(d.ttl, c.ttl)
    ensures CachedCallSpec(CachedCallSpec(s, c, d, args, producer, now).store, c, d, args, producer, later).calls == 1
  {
    var first := CachedCallSpec(s, c, d, args, producer, now);
    var id := GetIdentifier(d, args).value;
    assert Expired(View(first.store, c, d.bucket)[id], later);
    var g := GetSpec(first.store, c, d.bucket, id, later);
    assert g.0 == Err(CacheMiss);
  }

  /** A fresh file entry is a hit after a memory miss and is promoted into
      memory with the default TTL, whatever end of life the file held. */
  lemma FreshFileIsPromoted<V>(s: Store<V>, c: Config, b: Bucket, id: Identifier, now: int)
    requires b in c.bucketNames && id !in View(s, c, b)
    requires DiskEntry(s, b, id).Some? && !Expired(DiskEntry(s, b, id).value, now)
    ensures var g := GetSpec(s, c, b, id, now);
            && g.0 == Ok(DiskEntry(s, b, id).value.content)
            && g.1.buckets[b] == View(s, c, b)[id := Entry(now + c.ttl, DiskEntry(s, b, id).value.content)]
            && g.1.disk == s.disk
  {
  }

  /** An expired entry, in memory or on disk, is removed from both tiers. */
  lemma ExpiredEntryIsPurged<V>(s: Store<V>, c: Config, b: Bucket, id: Identifier, now: int)
    requires b in c.bucketNames
    requires (id in View(s, c, b) && Expired(View(s, c, b)[id], now)) ||
             (id !in View(s, c, b) && DiskEntry(s, b, id).Some? && Expired(DiskEntry(s, b, id).value, now))
    ensures var g := GetSpec(s, c, b, id, now);
            && g.0 == Err(CacheMiss)
            && g.1.buckets[b] == View(s, c, b) - {id}
            && g.1.disk == s.disk - {EntryFilename(b, id)}
  {
    if id !in View(s, c, b) {
      assert View(s, c, b)[id := Entry(now + c.ttl, DiskEntry(s, b, id).value.content)] - {id} == View(s, c, b) - {id};
    }
  }

  /** `invalidate_entry` leaves a key found only on disk in place: the next
      `get` still answers it from the file. */
  lemma InvalidateEntryKeepsFileOnlyEntry<V>(s: Store<V>, c: Config, b: Bucket, id: Identifier, now: int)
    requires b in c.bucketNames && id !in View(s, c, b)
    requires DiskEntry(s, b, id).Some? && !Expired(DiskEntry(s, b, id).value, now)
    ensures var inv := InvalidateEntrySpec(s, c, b, id).1;
            GetSpec(inv, c, b, id, now).0 == Ok(DiskEntry(s, b, id).value.content)
  {
    var inv := InvalidateEntrySpec(s, c, b, id).1;
    assert View(inv, c, b) == View(s, c, b);
    assert DiskEntry(inv, b, id) == DiskEntry(s, b, id);
  }

  /** After `invalidate` memory answers nothing, but a fresh file entry
      is still served. */
  lemma InvalidateKeepsFiles<V>(s: Store<V>, c: Config, b: Bucket, id: Identifier, now: int)
    requires b in c.bucketNames
    requires DiskEntry(s, b, id).Some? && !Expired(DiskEntry(s, b, id).value, now)
    ensures GetSpec(InvalidateSpec(s, c), c, b, id, now).0 == Ok(DiskEntry(s, b, id).value.content)
  {
    var w := InvalidateSpec(s, c);
    assert View(w, c, b) == map[];
    assert DiskEntry(w, b, id) == DiskEntry(s, b, id);
  }

  /** Every identifier of the library bucket shares one file, so purging
      any of them deletes the library database. */
  lemma LibraryEntriesShareOneFile(id1: Identifier, id2: Identifier)
    ensures EntryFilename(CacheLibrary, id1) == EntryFilename(CacheLibrary, id2) == LibraryFile
  {
  }

  /** `os.path.join(a, b)` on POSIX: an absolute `b` replaces `a`, and a
      separator is added unless `a` is empty or already ends in one. */
  function PathJoin(a: string, b: string): (p: string)
    ensures |b| > 0 && b[0] == '/' ==> p == b
  {
    if |b| > 0 && b[0] == '/' then b
    else if a == [] || a[|a| - 1] == '/' then a + b
    else a + "/" + b
  }

  /** The file name `_entry_filename` builds for an entry of a bucket other
      than the library: `os.path.join(data_path, 'cache', bucket, id + '.cache')` */
  function EntryPath(dataPath: string, b: Bucket, id: Identifier): string {
    PathJoin(PathJoin(PathJoin(dataPath, "cache"), b), id + ".cache")
  }

  predicate NoSlash(s: string) {
    forall k | 0 <= k < |s| :: s[k] != '/'
  }

  /** Without separators in the bucket and the identifier, the joined name
      is the cache directory, the bucket and the file, in that order. */
  lemma EntryPathShape(dataPath: string, b: Bucket, id: Identifier)
    requires b != [] && NoSlash(b) && NoSlash(id)
    ensures EntryPath(dataPath, b, id) == PathJoin(dataPath, "cache") + "/" + b + "/" + id + ".cache"
  {
    var dir := PathJoin(dataPath, "cache");
    assert dir[|dir| - 1] == 'e';
    var sub := PathJoin(dir, b);
    assert sub == dir + "/" + b;
    assert sub[|sub| - 1] == b[|b| - 1];
    assert (id + ".cache")[0] != '/';
  }

  /** Two names that each start with a separator-free part and a separator
      split the same way. */
  lemma SplitAtSlash(b1: string, r1: string, b2: string, r2: string)
    requires NoSlash(b1) && NoSlash(b2) && b1 + "/" + r1 == b2 + "/" + r2
    ensures b1 == b2 && r1 == r2
  {
    var t := b1 + "/" + r1;
    SlashAfter(b1, r1);
    SlashAfter(b2, r2);
    if |b1| != |b2| {
      assert false;
    } else {
      assert b1 == t[..|b1|] && b2 == (b2 + "/" + r2)[..|b2|];
      assert r1 == t[|b1| + 1..] && r2 == (b2 + "/" + r2)[|b2| + 1..];
    }
  }

  /** The first separator of `b + "/" + r` is the one after `b`. */
  lemma SlashAfter(b: string, r: string)
    requires NoSlash(b)
    ensures var t := b + "/" + r;
            t[|b|] == '/' && forall k | 0 <= k < |b| :: t[k] != '/'
  {
  }

  /** For buckets and identifiers without a separator, two entries outside
      the library share a file exactly when the model's paths are equal:
      same bucket, same identifier. */
  lemma EntryFilesAreDistinct(dataPath: string, b1: Bucket, id1: Identifier, b2: Bucket, id2: Identifier)
    requires b1 != CacheLibrary && b2 != CacheLibrary
    requires b1 != [] && b2 != [] && NoSlash(b1) && NoSlash(b2) && NoSlash(id1) && NoSlash(id2)
    ensures EntryPath(dataPath, b1, id1) == EntryPath(dataPath, b2, id2) <==>
            EntryFilename(b1, id1) == EntryFilename(b2, id2)
  {
    EntryPathShape(dataPath, b1, id1);
    EntryPathShape(dataPath, b2, id2);
    var dir := PathJoin(dataPath, "cache") + "/";
    var t1, t2 := b1 + "/" + (id1 + ".cache"), b2 + "/" + (id2 + ".cache");
    assert EntryPath(dataPath, b1, id1) == dir + t1;
    assert EntryPath(dataPath, b2, id2) == dir + t2;
    if dir + t1 == dir + t2 {
      SamePrefixSameRest(dir, t1, t2);
      SplitAtSlash(b1, id1 + ".cache", b2, id2 + ".cache");
      assert id1 == (id1 + ".cache")[..|id1|];
      assert id2 == (id2 + ".cache")[..|id2|];
    }
  }

  /** Equal names with a common directory have equal rests. */
  lemma SamePrefixSameRest(dir: string, t1: string, t2: string)
    requires dir + t1 == dir + t2
    ensures t1 == t2
  {
    assert t1 == (dir + t1)[|dir|..];
    assert t2 == (dir + t2)[|dir|..];
  }

  /** An absolute identifier discards the cache directory and the bucket:
      the same identifier in two buckets names one file. */
  lemma AbsoluteIdentifiersCollide(dataPath: string)
    ensures EntryPath(dataPath, CacheCommon, "/x") == EntryPath(dataPath, CacheGenres, "/x") == "/x.cache"
    ensures EntryFilename(CacheCommon, "/x") != EntryFilename(CacheGenres, "/x")
  {
  }

  /** What one invocation commits while holding the lock, the next
      invocation loads. */
  lemma CommitThenReload<V>(s: Store<V>, c: Config, next: Config, b: Bucket)
    requires b in s.buckets && PropertyOf(s.window, b) == Locked(c.lockMarker)
    ensures View(Store(map[], CommitSpec(s, c).window, s.disk), next, b) == s.buckets[b]
  {
  }

  /** A bucket locked by another invocation is worked on as an empty
      bucket whose changes are never written back. */
  lemma LockedBucketIsDiscarded<V>(s: Store<V>, c: Config, b: Bucket, owner: int)
    requires b !in s.buckets && PropertyOf(s.window, b) == Locked(owner) && owner != c.lockMarker
    ensures View(s, c, b) == map[]
    ensures var l := Loaded(s, c, b);
            PropertyOf(CommitSpec(l, c).window, b) == Locked(owner)
  {
  }

  // ---------------------------------------------------------------------
  // Locality: an operation on one key leaves the rest of the cache alone

  /** From `s` to `r`, only the entries of bucket `b` under `ids` may have
      changed; every other bucket reads the same. */
  ghost predicate OnlyTouches<V>(s: Store<V>, r: Store<V>, c: Config, b: Bucket, ids: set<Identifier>) {
    && (forall x | x != b :: View(r, c, x) == View(s, c, x))
    && View(r, c, b) - ids == View(s, c, b) - ids
  }

  lemma TouchesCompose<V>(s1: Store<V>, s2: Store<V>, s3: Store<V>, c: Config, b: Bucket,
                          ids1: set<Identifier>, ids2: set<Identifier>)
    requires OnlyTouches(s1, s2, c, b, ids1) && OnlyTouches(s2, s3, c, b, ids2)
    ensures OnlyTouches(s1, s3, c, b, ids1 + ids2)
  {
    var m1, m2, m3 := View(s1, c, b), View(s2, c, b), View(s3, c, b);
    assert m3 - (ids1 + ids2) == (m3 - ids2) - ids1 == (m2 - ids2) - ids1;
    assert (m2 - ids2) - ids1 == (m2 - ids1) - ids2 == (m1 - ids1) - ids2 == m1 - (ids1 + ids2);
  }

  /** Loading a bucket changes how no bucket reads. */
  lemma LoadedKeepsViews<V>(s: Store<V>, c: Config, b: Bucket)
    ensures forall x :: View(Loaded(s, c, b), c, x) == View(s, c, x)
  {
  }

  lemma PurgeTouches<V>(s: Store<V>, c: Config, b: Bucket, id: Identifier)
    ensures OnlyTouches(s, PurgeSpec(s, c, b, id).1, c, b, {id})
  {
    LoadedKeepsViews(s, c, b);
  }

  lemma AddTouches<V>(s: Store<V>, c: Config, b: Bucket, id: Identifier, content: V,
                      ttl: Option<int>, toDisk: bool, now: int)
    ensures OnlyTouches(s, AddSpec(s, c, b, id, content, ttl, toDisk, now).1, c, b, {id})
  {
    LoadedKeepsViews(s, c, b);
  }

  lemma GetTouches<V>(s: Store<V>, c: Config, b: Bucket, id: Identifier, now: int)
    ensures OnlyTouches(s, GetSpec(s, c, b, id, now).1, c, b, {id})
  {
    if b in c.bucketNames {
      var l := Loaded(s, c, b);
      LoadedKeepsViews(s, c, b);
      if id in l.buckets[b] {
        PurgeTouches(l, c, b, id);
      } else if DiskEntry(l, b, id).Some? {
        var e := DiskEntry(l, b, id).value;
        var promoted := AddSpec(l, c, b, id, e.content, None, false, now).1;
        AddTouches(l, c, b, id, e.content, None, false, now);
        PurgeTouches(promoted, c, b, id);
        TouchesCompose(l, promoted, PurgeSpec(promoted, c, b, id).1, c, b, {id}, {id});
        assert {id} + {id} == {id};
      }
    }
  }

  /** `invalidate_entry` removes the one key and reads the same elsewhere. */
  lemma InvalidateEntryTouches<V>(s: Store<V>, c: Config, b: Bucket, id: Identifier)
    ensures OnlyTouches(s, InvalidateEntrySpec(s, c, b, id).1, c, b, {id})
  {
    PurgeTouches(s, c, b, id);
  }

  lemma LookupTouches<V>(s: Store<V>, c: Config, d: Decoration, args: Args, now: int)
    requires GetIdentifier(d, args).Some?
    ensures OnlyTouches(s, LookupSpec(s, c, d, args, now).1, c, d.bucket, {GetIdentifier(d, args).value})
  {
    GetTouches(s, c, d.bucket, GetIdentifier(d, args).value, now);
  }

  lemma CompleteTouches<V>(s: Store<V>, c: Config, d: Decoration, key: Identifier, output: Result<V>, now: int)
    ensures OnlyTouches(s, CompleteSpec(s, c, d, Some(key), output, now).1, c, d.bucket, {key})
  {
    if output.Ok? {
      AddTouches(s, c, d.bucket, key, output.value, d.ttl, d.toDisk, now);
    }
  }

  /** A `get` leaves the key in memory when it answers, and neither in
      memory nor on disk when it misses. */
  lemma GetLeavesEntryOrNothing<V>(s: Store<V>, c: Config, b: Bucket, id: Identifier, now: int)
    requires b in c.bucketNames
    ensures var g := GetSpec(s, c, b, id, now);
            && (g.0.Ok? ==> id in View(g.1, c, b))
            && (g.0.Err? ==> id !in View(g.1, c, b) && DiskEntry(g.1, b, id).None?)
  {
  }

  /** Once `invalidate_entry` has run on a key that is in memory or has no
      file, the key is in neither tier. */
  lemma InvalidatedEntryIsGone<V>(s: Store<V>, c: Config, b: Bucket, id: Identifier)
    requires b in c.bucketNames && (id in View(s, c, b) || DiskEntry(s, b, id).None?)
    ensures var inv := InvalidateEntrySpec(s, c, b, id).1;
            id !in View(inv, c, b) && DiskEntry(inv, b, id).None?
  {
  }

  /** A key in neither tier misses without changing the store beyond
      loading its bucket. */
  lemma AbsentEntryMisses<V>(s: Store<V>, c: Config, b: Bucket, id: Identifier, now: int)
    requires b in c.bucketNames && id !in View(s, c, b) && DiskEntry(s, b, id).None?
    ensures GetSpec(s, c, b, id, now) == (Err(CacheMiss), Loaded(s, c, b))
  {
  }
}
