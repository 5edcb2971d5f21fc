/** The per-invocation globals of resources/lib/globals.py: the plugin
    arguments, the cache TTLs read from the settings, the cache instance
    with its directories, the memoised library index and the ESN setting.
    The argument rules are shared with resources/lib/common/globals.py. */
module Globals {
  import opened Wrappers
  import opened Json
  import Cache
  import Library
  import MiscUtils
  import Settings

  /** The parts of `urlparse(argv[0])` the code uses */
  datatype UrlParts = UrlParts(scheme: string, netloc: string, path: string)

  /** What `init_globals` derives from `argv` */
  datatype Invocation = Invocation(pluginHandle: int, baseUrl: string, path: string, paramString: string)

  /** `s[1:]` */
  function Tail(s: string): (t: string)
    ensures s != [] ==> t == s[1..]
    ensures s == [] ==> t == []
  {
    if s == [] then [] else s[1..]
  }

  /** The argument rules: `argv[0]` must exist; a missing `argv[1]` gives
      handle 0 (a malformed one raises `ValueError`); a missing `argv[2]`
      gives the empty parameter string, otherwise its first character
      (the `?`) is dropped; the path loses its leading `/`. */
  function ParseArgv(argv: seq<string>, urlparse: string -> UrlParts): (r: Result<Invocation>)
    ensures |argv| == 0 ==> r == Err(IndexError)
    ensures |argv| == 1 ==> r.Ok? && r.value.pluginHandle == 0
    ensures |argv| >= 2 ==> (r.Ok? <==> MiscUtils.ParseInt(argv[1]).Ok?)
    ensures |argv| >= 2 && r.Ok? ==> r.value.pluginHandle == MiscUtils.ParseInt(argv[1]).value
    ensures r.Err? ==> r.exc in {IndexError, ValueError}
    ensures r.Ok? ==> (|argv| > 0 &&
      r.value.paramString == (if |argv| >= 3 then Tail(argv[2]) else "") &&
      r.value.path == Tail(urlparse(argv[0]).path) &&
      r.value.baseUrl == urlparse(argv[0]).scheme + "://" + urlparse(argv[0]).netloc)
  {
    if |argv| == 0 then Err(IndexError)
    else
      var url := urlparse(argv[0]);
      var handle :- if |argv| < 2 then Ok(0) else MiscUtils.ParseInt(argv[1]);
      Ok(Invocation(handle, url.scheme + "://" + url.netloc, Tail(url.path),
                    if |argv| < 3 then "" else Tail(argv[2])))
  }

  /** A TTL setting in minutes, in seconds */
  function TtlSeconds(minutes: int): (seconds: int)
    ensures seconds / 60 == minutes && seconds % 60 == 0
  {
    minutes * 60
  }

  /** `_init_cache`: when the cache directory does not exist yet, one
      directory per bucket, except the library bucket, which lives in the
      data path itself */
  function CacheDirectories(cacheDirExists: bool): (dirs: set<Cache.Bucket>)
    ensures forall b :: b in dirs <==> !cacheDirExists && b in Cache.BucketNames && b != Cache.CacheLibrary
  {
    if cacheDirExists then {} else Cache.BucketNames - {Cache.CacheLibrary}
  }

  /** The `g` instance */
  class GlobalVariables {
    const addon: Settings.Addon
    var cacheTtl: int
    var cacheMetadataTtl: int
    var invocation: Invocation
    /** The directories `_init_cache` created */
    var cacheDirs: set<Cache.Bucket>
    var cache: Cache.Cache?<Json>
    /** `_library`: `None` while the attribute is unset (before
        `init_globals`), `JNull` standing for Python's None */
    var library: Option<Json>

    constructor(addon: Settings.Addon)
      ensures this.addon == addon && cache == null && library == None && cacheDirs == {}
    {
      this.addon := addon;
      cacheTtl := 0;
      cacheMetadataTtl := 0;
      invocation := Invocation(0, "", "", "");
      cacheDirs := {};
      cache := null;
      library := None;
    }

    /** `init_globals(argv)`: the settings are read before `argv`, so a
        bad `argv` leaves the TTLs set and the rest as it was. A successful
        run ends with a fresh cache keyed on the plugin handle. */
    method InitGlobals(argv: seq<string>, urlparse: string -> UrlParts, cacheDirExists: bool,
                       window: map<Cache.Bucket, Cache.WindowProperty<Json>>,
                       disk: map<Cache.Path, Cache.DiskFile<Json>>, diskWritable: bool)
      returns (r: Result<()>)
      modifies this
      ensures library == Some(JNull)
      ensures cacheTtl == TtlSeconds(addon.SettingInt("cache_ttl"))
      ensures cacheMetadataTtl == TtlSeconds(addon.SettingInt("cache_metadata_ttl"))
      ensures r.Ok? <==> ParseArgv(argv, urlparse).Ok?
      ensures r.Err? ==> r.exc == ParseArgv(argv, urlparse).exc && invocation == old(invocation) &&
                         cache == old(cache) && cacheDirs == old(cacheDirs)
      ensures r.Ok? ==> invocation == ParseArgv(argv, urlparse).value && cacheDirs == old(cacheDirs) + CacheDirectories(cacheDirExists)
      ensures r.Ok? ==> (cache != null && fresh(cache) &&
        cache.config == Cache.Config(Cache.BucketNames, cacheTtl, cacheMetadataTtl, invocation.pluginHandle, diskWritable) &&
        cache.State() == Cache.Store(map[], window, disk))
    {
      library := Some(JNull);
      cacheTtl := TtlSeconds(addon.SettingInt("cache_ttl"));
      cacheMetadataTtl := TtlSeconds(addon.SettingInt("cache_metadata_ttl"));
      var parsed := ParseArgv(argv, urlparse);
      if parsed.Err? {
        return Err(parsed.exc);
      }
      invocation := parsed.value;
      cacheDirs := cacheDirs + CacheDirectories(cacheDirExists);
      cache := new Cache.Cache(Cache.Config(Cache.BucketNames, cacheTtl, cacheMetadataTtl, invocation.pluginHandle, diskWritable),
                               window, disk);
      r := Ok(());
    }

    /** `library()`: before `init_globals` neither `_library` nor the
        cache exists, and reading either raises `AttributeError`. */
    method GetLibrary(now: int) returns (r: Result<Json>)
      modifies this`library, cache
      ensures old(library).None? ==> r == Err(AttributeError) && library == old(library)
      ensures old(library).Some? && !Truthy(old(library).value) && cache == null ==>
        r == Err(AttributeError) && library == old(library)
      ensures old(library).Some? && Truthy(old(library).value) ==> r == Ok(old(library).value) && library == old(library)
      ensures old(library).Some? && cache != null ==>
        library.Some? && (r, library.value, cache.State()) == old(Library.LoadSpec(library.value, cache.State(), cache.config, now))
    {
      if library.None? {
        return Err(AttributeError);
      }
      if Truthy(library.value) {
        return Ok(library.value);
      }
      if cache == null {
        return Err(AttributeError);
      }
      var got := cache.Get(Cache.CacheLibrary, Library.LibraryKey, now);
      if got.Ok? {
        library := Some(got.value);
        r := got;
      } else if got.exc == CacheMiss {
        library := Some(JObj(map[]));
        r := Ok(JObj(map[]));
      } else {
        r := Err(got.exc);
      }
    }

    /** `save_library()`: before `init_globals` the test of `_library`
        raises `AttributeError`; a None index is not saved. */
    method SaveLibrary(now: int) returns (r: Result<()>)
      modifies cache
      ensures library.None? ==> r == Err(AttributeError)
      ensures library.Some? && cache == null ==> r == (if library.value == JNull then Ok(()) else Err(AttributeError))
      ensures library.Some? && cache != null ==>
        (r, cache.State()) == old(Library.SaveSpec(library.value, cache.State(), cache.config, now))
    {
      if library.None? {
        return Err(AttributeError);
      }
      if library.value == JNull {
        return Ok(());
      }
      if cache == null {
        return Err(AttributeError);
      }
      r := cache.Add(Cache.CacheLibrary, Library.LibraryKey, library.value, Some(Cache.TtlInfinite), true, now);
    }

    /** `get_esn()` */
    function Esn(): string
      reads this, addon
    {
      addon.Setting(Settings.EsnKey)
    }

    /** `set_esn(esn)` */
    method SetEsn(esn: string) returns (written: bool)
      modifies addon`values
      ensures (written, Esn()) == old(Settings.EsnSpec(Esn(), esn))
      ensures addon.values == if written then old(addon.values)[Settings.EsnKey := esn] else old(addon.values)
    {
      written := Settings.SetEsn(addon, esn);
    }
  }
}
