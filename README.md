# A Dafny model of the core of the Kodi Netflix add-on

This project models the logic of the Kodi Netflix add-on (a Python 2 plugin) in Dafny 4.11. It covers:

- the caches: the layered `Cache` class and the older module-level API cache;
- the Shakti API calls and their cache decorations;
- video ids;
- library export tasks and the library index;
- info labels;
- the global settings: ESN, arguments and TTLs;
- persistent storage and cookies;
- the small lookup helpers;
- the playback services: section skipping, bookmarks, the action-manager flag and the controller;
- website parsing;
- the MSL message handling: chunk parsing, the error check, chunk decryption, headers, license results, mastertoken rules and Widevine padding.

There is one Dafny module per Python file, named after it, plus two support modules:

- `Wrappers` holds the `Result` and `Option` types. `Result` carries the exception the Python code raises (`KeyError`, `CacheMiss`, `MastertokenExpired`, ...), so each error path is a value.
- `Json` models the dynamic Python values the code walks (dicts, lists, strings, integers, booleans, `None`). It gives them Python's semantics for subscripts, `.get`, `in`, `len` and truthiness.

Mutable objects are classes whose methods are proved against pure specification functions on their state. The properties of those functions are then proved as lemmas.

The following come in as parameters:

- the clock, as an integer `now` (a real for the mastertoken);
- the Kodi settings;
- window properties and disk files, as maps;
- base64, JSON decoding, ciphers, gzip and URL encoding, as functions.

The model is about the add-on's own rules, not those libraries.

Python 2 integer division (`/` on `int`) is floor division. It is modelled as Dafny's `/` on non-negative values, and where the sign matters the model says so.

Where the code and its documentation disagree, the model follows the code. For example, `Cache.invalidate` clears memory and window properties but keeps the files on disk.

Two inconsistencies of the code itself are resolved by following the evident intent instead:

- `resources/lib/api/shakti.py`, `resources/lib/kodi/infolabels.py` and `resources/lib/kodi/library.py` import the new cache module `resources/lib/cache.py`, but use names it does not define.
  - That module defines the bucket constants `CACHE_COMMON`, `CACHE_GENRES`, `CACHE_METADATA`, `CACHE_INFOLABELS`, `CACHE_ARTINFO` and `CACHE_LIBRARY`, plus `BUCKET_NAMES`, `BUCKET_LOCKED`, `TTL_INFINITE`, the exceptions `CacheMiss` and `UnknownCacheBucketError`, the `Cache` class, `_get_identifier`, `_window_property`, and a `cache_output` that takes the globals object first.
  - It has no module-level `get`, `add`, `invalidate_entry`, `invalidate_cache` or `invalidate_last_location`, and no `CACHE_VIDEO_LIST`, `CACHE_SEASONS` or `CACHE_EPISODES`, all of which `shakti.py` uses.
  - As written, these names raise `AttributeError`: at import for `shakti.py`'s decorations, and in `library()`, `save_library()`, `add_info` and `add_art` when called.
  - All three files are modelled over the new `Cache` class, with the set of bucket names a parameter, as the calls evidently mean.
- In the same way, `parse_info` reads `paths.INFO_MAPPINGS`, `paths.INFO_TRANSFORMATIONS`, `paths.REFERENCE_MAPPINGS` and `paths.resolve_refs`, which `resources/lib/api/paths.py` does not define. These tables are parameters of `InfoLabels.ParseInfo` (the `InfoEnv` record). For the data types of `resources/lib/api/data_types.py`, `resolve_refs` is part of the `Shakti.Remote` record, together with the order in which Python 2 lists a dict's keys.

Where the code is evidently wrong (see "## Findings"), the classes and the functions they are proved against still do what the code does. The corrected behaviour is a separate definition with its own lemmas: `Shakti.IntendedEpisodeMetadataSpec`, `MiscUtils.IntendedProgressPercent`, `MediaDrm.KeyResponseAccepted`, `Library.IntendedCompileTasks`, `ApiCache.IntendedCachedCallSpec`, `SectionSkipping.IntendedSkipSpec`, `FileOps.CheckFolderPath` and the `Shakti.AsIntendedEpisodeList` shape.

## Model

| member | source | states |
|---|---|---|
| Cache.GetIdentifier | resources/lib/cache.py:80-86 | a truthy fixed identifier wins; otherwise the keyword argument is preferred over `args[index]`, but a positional list too short for the index gives no key (the `IndexError` path) even when the keyword is present |
| Cache.EntryFilename | resources/lib/cache.py:239-247 | the entry file is `library.ndb2` exactly for the library bucket; every other bucket gets a file named by its bucket and identifier |
| Cache.LoadBucketSpec | resources/lib/cache.py:191-216 | a locked window property yields an empty bucket and leaves the window alone; otherwise the pickled contents (or an empty bucket for garbage) are loaded and the property is overwritten with this instance's lock marker |
| Cache.Loaded | resources/lib/cache.py:182-189 | after `_get_bucket` the bucket is in memory with its loaded view, already loaded buckets are untouched and the disk is unchanged |
| Cache.AddSpec | resources/lib/cache.py:141-151 | an unknown bucket raises and changes nothing; otherwise the key maps to an entry ending at `now + ttl` (the instance TTL when `ttl` is None or 0), replacing any earlier entry, and the file is written only with `to_disk` |
| Cache.GetSpec | resources/lib/cache.py:131-139 | memory first; on a memory miss the file entry decides, judged on its own end of life; a stale or missing entry is `CacheMiss` and leaves no memory entry; no file is ever created |
| Cache.InvalidateEntrySpec | resources/lib/cache.py:172-180 | only an unknown bucket raises; the key leaves memory, and its file is deleted only when the key was in memory |
| Cache.InvalidateSpec | resources/lib/cache.py:164-170 | every accepted bucket then reads as empty, and the files stay |
| Cache.CommitSpec | resources/lib/cache.py:153-162 | a loaded bucket whose property holds this instance's lock is pickled into it; every other property is left as it was; memory and files are unchanged |
| Cache.LookupSpec | resources/lib/cache.py:59-67 | without a key the call is a miss with no key; a miss always carries the identifier of `_get_identifier` |
| Cache.CachedCallSpec | resources/lib/cache.py:50-78 | at most one call of the wrapped function; a fresh memory entry makes none and returns its content; after a memory miss, a fresh file entry also makes none and returns the file's content; when neither the memory entry nor the file is fresh (`NotFresh`: absent, unreadable or past its end of life) the function is called once and its result returned, and a successful output is stored at `now + ttl`; a raising call stores nothing; with no key the function runs uncached |
| Cache.Cache.constructor | resources/lib/cache.py:118-129 | a new instance has no bucket in memory |
| Cache.Cache.LoadBucket | resources/lib/cache.py:191-204 | the nine-poll loop ends with the result of `LoadBucketSpec` |
| Cache.Cache.GetBucket | resources/lib/cache.py:182-189 | an unknown name raises `UnknownCacheBucketError` and changes nothing; otherwise the new state is `Loaded` and the result is the loaded view |
| Cache.Cache.PurgeEntry | resources/lib/cache.py:277-283 | the result and new state are those of `PurgeSpec`: `KeyError` for an absent key, else the key leaves memory and its file is removed |
| Cache.Cache.Add | resources/lib/cache.py:141-151 | result and new state are those of `AddSpec` |
| Cache.Cache.VerifyTtl | resources/lib/cache.py:268-275 | result and new state are those of `VerifyTtlSpec`: an entry with `eol < now` is purged and `CacheMiss` is raised |
| Cache.Cache.Get | resources/lib/cache.py:131-139 | result and new state are those of `GetSpec` |
| Cache.Cache.InvalidateEntry | resources/lib/cache.py:172-180 | result and new state are those of `InvalidateEntrySpec` |
| Cache.Cache.Invalidate | resources/lib/cache.py:164-170 | the new state is that of `InvalidateSpec` |
| Cache.Cache.Commit | resources/lib/cache.py:153-162 | the new state is that of `CommitSpec` |
| Cache.Cache.Lookup | resources/lib/cache.py:59-67 | result and new state are those of `LookupSpec` |
| Cache.Cache.Complete | resources/lib/cache.py:68-75 | result and new state are those of `CompleteSpec` |
| Cache.Cache.CachedCall | resources/lib/cache.py:57-76 | result, number of calls and new state are those of `CachedCallSpec` |
| Cache.RepeatedCallHits | resources/lib/cache.py:61-72 | after a miss whose call succeeded, any call with the same key until the end of life is answered from memory without calling the function |
| Cache.ExpiredCallRefetches | resources/lib/cache.py:268-275 | once the end of life has passed, the next call runs the function again |
| Cache.LookupByFreshness | resources/lib/cache.py:131-139 | `get` answers from a fresh memory entry, else from a fresh file entry, and misses exactly when neither tier is fresh |
| Cache.FreshFileIsPromoted | resources/lib/cache.py:131-139 | a fresh file entry is a hit after a memory miss and is re-added to memory with the default TTL, whatever end of life the file held |
| Cache.ExpiredEntryIsPurged | resources/lib/cache.py:268-283 | an expired entry, in memory or on disk, is removed from both tiers and `CacheMiss` is raised |
| Cache.InvalidateEntryKeepsFileOnlyEntry | resources/lib/cache.py:277-283 | a key found only on disk survives `invalidate_entry`: the next `get` still answers it from the file |
| Cache.InvalidateKeepsFiles | resources/lib/cache.py:164-170 | after `invalidate` a fresh file entry is still served |
| Cache.LibraryEntriesShareOneFile | resources/lib/cache.py:239-243 | every library identifier maps to the one file `library.ndb2` |
| Cache.EntryFilesAreDistinct | resources/lib/cache.py:244-247 | for buckets and identifiers without a path separator, two entries outside the library get the same `os.path.join` file name exactly when they have the same bucket and identifier, which is what the model's `Path` values assume |
| Cache.PathJoin | resources/lib/cache.py:247 | `os.path.join` on POSIX: an absolute component replaces everything before it |
| Cache.EntryPathShape | resources/lib/cache.py:244-247 | without separators the file name is the cache directory, then the bucket, then the identifier with `.cache` |
| Cache.AbsoluteIdentifiersCollide | resources/lib/cache.py:244-247 | an identifier starting with `/` discards the data path and the bucket, so the same identifier in two buckets names one file |
| Cache.LoadedKeepsViews | resources/lib/cache.py:182-189 | loading a bucket changes how no bucket reads |
| Cache.PurgeTouches | resources/lib/cache.py:277-283 | `_purge_entry` changes only its own key in its own bucket |
| Cache.AddTouches | resources/lib/cache.py:141-151 | `add` changes only its own key in its own bucket |
| Cache.GetTouches | resources/lib/cache.py:131-139 | `get`, with its promotion and purge, changes only its own key in its own bucket |
| Cache.InvalidateEntryTouches | resources/lib/cache.py:172-180 | `invalidate_entry` changes only its own key in its own bucket |
| Cache.LookupTouches | resources/lib/cache.py:59-67 | the lookup half of `cache_output` changes only the decorated key |
| Cache.CompleteTouches | resources/lib/cache.py:68-75 | storing the output changes only the decorated key |
| Cache.TouchesCompose | resources/lib/cache.py:172-180 | two steps that each change only some keys of one bucket together change only the union of those keys |
| Cache.GetLeavesEntryOrNothing | resources/lib/cache.py:131-139 | after `get` the key is in memory when it was answered, and in neither memory nor a readable file when it missed |
| Cache.InvalidatedEntryIsGone | resources/lib/cache.py:172-180 | after `invalidate_entry` on a key that was in memory or had no readable file, the key is in neither tier |
| Cache.AbsentEntryMisses | resources/lib/cache.py:131-139 | a key in neither tier is a `CacheMiss` that changes nothing beyond loading the bucket |
| Cache.CommitThenReload | resources/lib/cache.py:249-256 | what one invocation commits while holding the lock, the next invocation loads |
| Cache.LockedBucketIsDiscarded | resources/lib/cache.py:194-204 | a bucket locked by another invocation is worked on as empty and its changes are never written back |
| ApiCache.Identify | resources/lib/api/cache.py:47-57 | no identifier exactly when there is no truthy fixed identifier and the positional list is too short for the index; otherwise a keyword argument of that name is preferred |
| ApiCache.Loaded | resources/lib/api/cache.py:67-75 | after `get_bucket` the bucket is in memory with the window's contents, or empty when the property does not unpickle; the window is unchanged |
| ApiCache.GetSpec | resources/lib/api/cache.py:97-114 | an unknown bucket raises `UnknownCacheBucketError`; a fresh entry returns its content unchanged; an absent key or one with `eol < now` is `CacheMiss`, and an expired entry is deleted |
| ApiCache.AddSpec | resources/lib/api/cache.py:116-120 | succeeds exactly for an accepted bucket, and then the key maps to an entry ending at `now + CACHE_TTL`, overwriting any earlier one |
| ApiCache.InvalidateEntrySpec | resources/lib/api/cache.py:86-89 | succeeds exactly when the key is present, removing only it; an absent key raises `KeyError` |
| ApiCache.InvalidateCacheSpec | resources/lib/api/cache.py:77-84 | `BUCKETS` is empty afterwards; the window properties of buckets loaded in this process are cleared and all others are untouched |
| ApiCache.CommitSpec | resources/lib/api/cache.py:91-95 | every loaded bucket is written to its window property; other properties keep their value; memory is unchanged |
| ApiCache.CachedCallSpec | resources/lib/api/cache.py:37-64 | at most one call; a fresh hit makes none; an absent or expired entry makes exactly one call, whose result is returned and whose output is added with `CACHE_TTL`; a raising function adds nothing; an undeterminable identifier raises `NameError` without calling the function |
| ApiCache.IntendedCachedCallSpec | resources/lib/api/cache.py:47-57 | under the evidently intended rule an undeterminable identifier runs the function uncached; otherwise it agrees with `CachedCallSpec` |
| ApiCache.KeywordOnlyCallRaises | resources/lib/api/cache.py:52-59 | a call passing the identifying parameter only by keyword raises `NameError` and never reaches the function |
| ApiCache.KeywordOnlyCallRunsUncached | resources/lib/api/cache.py:52-59 | under the intended rule the same call returns what the function returns |
| ApiCache.InvalidateEntryIsNotIdempotent | resources/lib/api/cache.py:86-89 | invalidating a present key succeeds once and raises `KeyError` the second time |
| ApiCache.WipeMissesUnloadedBuckets | resources/lib/api/cache.py:77-84 | a bucket this process never loaded survives `invalidate_cache`, and its fresh entries are still served |
| ApiCache.ApiCache.constructor | resources/lib/api/cache.py:17-27 | the module starts with no bucket loaded |
| ApiCache.ApiCache.GetBucket | resources/lib/api/cache.py:67-75 | an unknown name raises and changes nothing; otherwise the new state is `Loaded` and the result is the bucket's contents |
| ApiCache.ApiCache.Get | resources/lib/api/cache.py:97-114 | result and new state are those of `GetSpec` |
| ApiCache.ApiCache.Add | resources/lib/api/cache.py:116-120 | result and new state are those of `AddSpec` |
| ApiCache.ApiCache.InvalidateEntry | resources/lib/api/cache.py:86-89 | result and new state are those of `InvalidateEntrySpec` |
| ApiCache.ApiCache.InvalidateCache | resources/lib/api/cache.py:77-84 | the loop over `BUCKETS` ends in the state of `InvalidateCacheSpec` |
| ApiCache.ApiCache.Commit | resources/lib/api/cache.py:91-95 | the loop ends in the state of `CommitSpec` |
| ApiCache.ApiCache.CachedCall | resources/lib/api/cache.py:45-63 | result, number of calls and new state are those of `CachedCallSpec` |
| Shakti.LoLoMoOf | resources/lib/api/data_types.py:13-17 | the root lists carry the id that `LoLoMo` reads from the response, and hold the resolved lists as an `OrderedDict` does: each list id once, in the order of its first occurrence, with the value of its last |
| Shakti.RepeatedListIdKeepsLastContext | resources/lib/api/data_types.py:16-17 | a list id resolved first with context `queue` and then with another context keeps only the second, so `list_id_for_type('queue')` finds no list and raises `InvalidVideoListTypeError` |
| Shakti.CachedRequestSpec | resources/lib/api/shakti.py:38-118 | one call of a decorated producer is the cache call of `cache_output`: the remote request is sent exactly as often as the cache calls the function (never on a hit), the log keeps its earlier entries and the last location is untouched |
| Shakti.ListIdFromRoots | resources/lib/api/shakti.py:48-58 | the id of the first root list whose context matches the type; no match raises `InvalidVideoListTypeError`; a non-`LoLoMo` value has no `lists_by_context` |
| Shakti.FromFirst | resources/lib/api/shakti.py:51-55 | `next(...)[0]` of the first match, `StopIteration` turned into `InvalidVideoListTypeError`, other errors passed on |
| Shakti.ListIdForTypeSpec | resources/lib/api/shakti.py:48-58 | `list_id_for_type` sends at most one request (the root lists) and never touches the last location; a fresh memory or file entry under the list type is returned and nothing is sent; otherwise a failed root-lists request propagates its exception, and a successful one gives `ListIdFromRoots` of the roots: the id of the first list of that context, or `InvalidVideoListType` when none has it |
| Shakti.SessionChangeSpec | resources/lib/api/shakti.py:19-32 | `activate_profile`, `logout` and `login` wipe every bucket before the remote call is sent, so the request is logged against an empty cache; the call's outcome is the result |
| Shakti.UpdateMyListSpec | resources/lib/api/shakti.py:145-163 | a non-numeric id raises `ValueError` before any request; otherwise the post is the next request sent; with the wipe setting every bucket is empty afterwards; without it, a successful edit ends in `SelectiveOutcome`: only the four queue keys and the last location change |
| Shakti.PrefixKept | resources/lib/api/shakti.py:158-163 | the selective invalidation only appends to the request log |
| Shakti.SelectiveEditForgetsQueueKeys | resources/lib/api/shakti.py:156-163 | after a successful selective edit the last location is forgotten, the common bucket is the old one minus `'queue'` and `'root_lists'`, the video-list bucket is the old one minus the queue list's id, and every other bucket reads as before |
| Shakti.CachedRequestTouches | resources/lib/api/shakti.py:38-46 | a cached producer call changes only its own key in its own bucket |
| Shakti.ListIdForTypeTouches | resources/lib/api/shakti.py:48-58 | `list_id_for_type` changes only its own key and `root_lists` in the common bucket |
| Shakti.ListEntryGone | resources/lib/api/shakti.py:160-161 | the video-list step removes the queue list's id and changes no other bucket |
| Shakti.CommonKeysGone | resources/lib/api/shakti.py:162-163 | the two common-bucket steps remove `queue` and `root_lists` and change no other bucket |
| Shakti.SelectiveKeysMatchDecorations | resources/lib/api/shakti.py:160-163 | the keys the edit invalidates are exactly those the decorations of `root_lists`, `list_id_for_type('queue')` and `video_list(list_id)` compute, in the buckets they use |
| Shakti.FallbackRejectsSeasonList | resources/lib/api/shakti.py:192-193 | when the refetched metadata holds its seasons as a list, the `.get` chain raises `AttributeError` instead of giving `{}` |
| Shakti.IntendedFallbackGivesEmpty | resources/lib/api/shakti.py:186-193 | the intended fallback gives `{}` on that same input when no season holds the episode |
| Shakti.NoSeasonHasIt | resources/lib/common/kodiops.py:29-44 | a search through seasons none of which holds the episode gives `{}` without `raise_exc` |
| Shakti.EpisodeMetadataSpec | resources/lib/api/shakti.py:182-193 | unless the first attempt raises `KeyError`, its result and session stand and nothing is invalidated; after `KeyError` the show's metadata entry is gone from memory and disk, exactly one more metadata request is logged, no other entry changes, and the result is the `.get` chain applied to the fresh answer |
| Shakti.IntendedEpisodeMetadataSpec | resources/lib/api/shakti.py:182-193 | the same retry, with the result the intended fallback applied to the fresh answer |
| Shakti.MetadataLeavesEntryOrNothing | resources/lib/api/shakti.py:169-180 | after a metadata call the show's entry is in memory or has no readable file |
| Shakti.MetadataRetry | resources/lib/api/shakti.py:189-191 | invalidating that entry makes the next metadata call a miss: one request, answered with the converted reply, which is cached |
| Shakti.MetadataReachedBucket | resources/lib/api/shakti.py:185-188 | a first attempt that raises `KeyError` got past the bucket check |
| Shakti.EpisodeMetadataSendsAtMostTwice | resources/lib/api/shakti.py:182-193 | `episode_metadata` sends at most two requests, both for the show's metadata, after the earlier log |
| Shakti.BuildPaths | resources/lib/api/shakti.py:195-200 | one path per partial path, each the base followed by the partial, in input order |
| Shakti.RateValue | resources/lib/api/shakti.py:120-124 | the rating is clamped into [0, 10] and halved with floor division, so the sent value lies in [0, 5] |
| Shakti.EpisodeBucketKeysAlias | resources/lib/api/shakti.py:80-118 | after a missed `episode(show, id)` whose request succeeds, `movie(id)` and `episodes(other, id)` return that same raw answer without a request until its end of life, since the episodes bucket's keys carry neither the operation nor the show |
| Shakti.SeasonsSpec | resources/lib/api/shakti.py:69-78 | on a miss one request is sent; its error, or the error `SeasonList` raises on the answer, is returned and nothing is cached; otherwise the `SeasonList` is returned and cached under the argument's key |
| Shakti.StringShowIdRaises | resources/lib/api/data_types.py:45-52 | a plain string show id passed to `seasons` raises `AttributeError` in `SeasonList` once the answer holds `videos`, and nothing is cached |
| Shakti.EpisodesMissRaises | resources/lib/api/shakti.py:80-95 | a miss of `episodes(show, season)` sends its request and then raises `TypeError` (or the request's own error) from the three-argument `EpisodeList` call; the season id is not cached and no file is written |
| Shakti.IntendedEpisodesAreCached | resources/lib/api/data_types.py:54-63 | with the two-argument `EpisodeList(videoid, response)` the miss returns the season's episode list, for the season and show asked, with distinct episode ids, and every call keyed on that season id before the end of life returns it without a request |
| Shakti.Api.constructor | resources/lib/api/shakti.py:1-13 | a fresh session has sent nothing and still has its last location |
| Shakti.Api.Call | resources/lib/api/shakti.py:22 | the answer is the remote one and the request is logged with the cache state at that moment |
| Shakti.Api.CachedRequest | resources/lib/api/shakti.py:38-118 | result and new state are those of `CachedRequestSpec` |
| Shakti.Api.RootLists | resources/lib/api/shakti.py:38-46 | result and new state are those of the cached root-lists request |
| Shakti.Api.ListIdForType | resources/lib/api/shakti.py:48-58 | result and new state are those of `ListIdForTypeSpec` |
| Shakti.Api.VideoList | resources/lib/api/shakti.py:60-67 | a cached request keyed on `list_id` in the video-list bucket, whose answer becomes a `VideoList` (`DataTypes.VideoListOf`); a failing constructor raises and caches nothing |
| Shakti.Api.Seasons | resources/lib/api/shakti.py:69-78 | result and new state are those of `SeasonsSpec`: a cached request keyed on the `tvshow_id` argument, whose answer becomes a `SeasonList` |
| Shakti.Api.Episodes | resources/lib/api/shakti.py:80-95 | a cached request keyed on `season_id` (index 1) in the episodes bucket, whose answer meets the three-argument `EpisodeList` call: a miss raises `TypeError` (`EpisodesMissRaises`) |
| Shakti.Api.Episode | resources/lib/api/shakti.py:97-108 | a cached request keyed on `episode_id` (index 1) in the episodes bucket |
| Shakti.Api.Movie | resources/lib/api/shakti.py:110-118 | a cached request keyed on `movie_id` (index 0) in the episodes bucket |
| Shakti.Api.Metadata | resources/lib/api/shakti.py:169-180 | a cached request in the metadata bucket with the metadata TTL, written to disk, returning `['video']` |
| Shakti.Api.ChangeSession | resources/lib/api/shakti.py:19-32 | result and new state are those of `SessionChangeSpec` |
| Shakti.Api.UpdateMyList | resources/lib/api/shakti.py:135-163 | result and new state are those of `UpdateMyListSpec` |
| Shakti.Api.EpisodeMetadata | resources/lib/api/shakti.py:182-193 | result and new state are those of `EpisodeMetadataSpec`, the fallback as written |
| Shakti.Api.Rate | resources/lib/api/shakti.py:120-133 | sends the clamped, halved rating; the result is nothing (`None`), or the error the post raised |
| VideoIds.Make | resources/lib/common/videoid.py:38-48 | a truthy `videoid` gives an untyped id with every typed id dropped; otherwise construction fails with `InvalidVideoId` exactly for the rejected combinations (a movie id with any other id, an episode id without season and show ids, a season id without a show id) and keeps the ids as given |
| VideoIds.New | resources/lib/common/videoid.py:38-48 | the validation loop with its `break` gives the same outcome as `Make` |
| VideoIds.Value | resources/lib/common/videoid.py:61-66 | `value` is never empty, and fails (`StopIteration`) exactly when no id is truthy |
| VideoIds.Mediatype | resources/lib/common/videoid.py:88-97 | `unspecified` for an untyped id; otherwise the first typed id that is not None decides, in the order movie, episode, season, show; with no id at all `next` raises |
| VideoIds.ToPath | resources/lib/common/videoid.py:99-112 | an untyped id gives the one-item path; a typed one starts with `movie` or `show` and has at least two items |
| VideoIds.FromPath | resources/lib/common/videoid.py:50-59 | an empty path, or a bare `movie` or `show`, raises `IndexError` |
| VideoIds.FromPathToPath | resources/lib/common/videoid.py:50-59 | `from_path(to_path(v)) == v` for every constructible id with non-empty ids, typed or untyped, except untyped ids named `movie` or `show` |
| VideoIds.UntypedMovieIdIsLost | resources/lib/common/videoid.py:53-54 | an untyped id whose value is `movie` does not survive the round trip: its path raises `IndexError` |
| VideoIds.Reverse | resources/lib/common/videoid.py:119-120 | the reversed list, element by element |
| VideoIds.ToList | resources/lib/common/videoid.py:114-121 | an untyped id gives its bare string |
| VideoIds.ToListOfEpisode | resources/lib/common/videoid.py:114-121 | an episode id lists show, season, episode in that order |
| VideoIds.ToListOfSeason | resources/lib/common/videoid.py:114-121 | a season id lists show, season |
| VideoIds.ToDict | resources/lib/common/videoid.py:123-136 | defined exactly when `mediatype` is, and holds it; an untyped id adds only `videoid`, a movie only `movieid`; `movieid` appears only for a movie |
| VideoIds.DeriveSeason | resources/lib/common/videoid.py:138-145 | only a show can be narrowed; any other typed id gives `InvalidVideoId` exactly when it has a truthy value, and `StopIteration` otherwise, because the message formats the id through `value`; the result is the show's season and has mediatype season |
| VideoIds.DeriveEpisode | resources/lib/common/videoid.py:147-155 | only a season can be narrowed; any other typed id gives `InvalidVideoId` exactly when it has a truthy value, and `StopIteration` otherwise; the result keeps season and show and has mediatype episode |
| VideoIds.Str | resources/lib/common/videoid.py:168-169 | `str(v)` is defined exactly when both mediatype and value are, and is the mediatype name, `_` and the value |
| VideoIds.ShowStrIsInjective | resources/lib/common/videoid.py:171-176 | two show ids print alike exactly when their show ids are equal, so hashing by the string agrees with `__eq__` for them |
| VideoIds.EmptyMovieDerivesStopIteration | resources/lib/common/videoid.py:168-169 | the movie id parsed from `movie/` has an empty value, so narrowing it to a season raises `StopIteration` while its error message is formatted |
| VideoIds.Drop | resources/lib/common/videoid.py:194 | Python's `items[n:]`, empty past the end |
| VideoIds.Take | resources/lib/common/videoid.py:196 | Python's `items[:n]`, all items past the end |
| VideoIds.InjectVideoId | resources/lib/common/videoid.py:182-204 | a missing path-items kwarg raises; otherwise it succeeds exactly when `from_path` of the items after the offset does, the `videoid` kwarg is that id, the path items become the items before the offset with `inject_remaining_pathitems` and are deleted without it, and every other kwarg is kept |
| Library.Pad2 | resources/lib/kodi/library.py:110 | `{:02d}` of a number below 100 is its two decimal digits, zero-padded |
| Library.TwoDigits | resources/lib/kodi/library.py:110 | a two-digit number prints as its tens and units digits |
| Library.EpisodeFilenameIsInjective | resources/lib/kodi/library.py:110 | two episodes numbered below 100 never share an `S..E..` file name |
| Library.CreateEpisodeTask | resources/lib/kodi/library.py:102-112 | an episode task is in section `shows` under the show title, its file name is `S{season}E{episode}` and its title is `show - filename - episode title` |
| Library.EpisodeTasks | resources/lib/kodi/library.py:96-100 | one task per episode of the season, in order, each for the episode id derived from the season |
| Library.ShowTasks | resources/lib/kodi/library.py:81-86 | one task list per season, in order, each compiled for the season id derived from the show |
| Library.MovieTask | resources/lib/kodi/library.py:76-80 | a movie task uses `title (year)` as title, destination and file name, in section `movies` |
| Library.CompileTasks | resources/lib/kodi/library.py:71-94 | an unspecified mediatype raises `ValueError`; a movie gives the single `MovieTask`; a show gives the `ShowTasks` lists of `metadata['video']['seasons']`, one per season; a season gives a flat list; an episode gives the single episode task looked up in the metadata |
| Library.ExportOfMetadataResultRaises | resources/lib/kodi/library.py:75-79 | on the `'video'` sub-dict that `api.metadata` returns, exporting a movie, a show or an episode raises `KeyError` at the first `metadata['video']` |
| Library.SeasonExportRaises | resources/lib/kodi/library.py:87-90 | exporting a season hands the whole metadata dict to `find_season`, whose iteration yields keys, so any non-empty metadata raises `TypeError` |
| Library.Wrap | resources/lib/kodi/library.py:75-79 | in `{'video': video}`, the `metadata['video'][k]` lookups read `video[k]` |
| Library.IntendedCompileTasks | resources/lib/kodi/library.py:71-94 | the intended rule reads every field from the video dict `api.metadata` returns and looks the season up in its `'seasons'`; every other branch is then as written |
| Library.IntendedMovieExport | resources/lib/kodi/library.py:76-80 | under the intended rule a movie is one task named `title (year)` from the video dict's fields |
| Library.IntendedSeasonExport | resources/lib/kodi/library.py:87-90 | under the intended rule a season export gives the episode tasks of the season in the video dict's `'seasons'` whose id matches |
| Library.PathOf | resources/lib/kodi/library.py:150 | iterating `to_list()` walks the id list, or the characters of a bare untyped id |
| Library.AddPath | resources/lib/kodi/library.py:147-154 | the nested insertion succeeds exactly when every node on the way is a dict (else `TypeError`) and returns a dict |
| Library.AddPathReachesFile | resources/lib/kodi/library.py:147-154 | after the insertion the path resolves to a node whose `'file'` is the exported file |
| Library.AddPathKeepsSiblings | resources/lib/kodi/library.py:150-153 | a sibling node off the path is unchanged |
| Library.LoadSpec | resources/lib/kodi/library.py:31-39 | a truthy memo is returned untouched; otherwise the cache is read, a miss giving `{}`, and the result is memoised |
| Library.EmptyIndexIsReloaded | resources/lib/kodi/library.py:34 | an empty memoised index is reloaded exactly as an unset one, since the test is truthiness |
| Library.SaveThenLoad | resources/lib/kodi/library.py:31-51 | a saved index (infinite TTL, to disk) is what a later process loads |
| Library.AddToLibrarySpec | resources/lib/kodi/library.py:147-155 | after adding, the video's id path leads to its file in the index |
| Library.IsInLibrarySpec | resources/lib/kodi/library.py:67-69 | with an index loaded, true exactly when the id path resolves to a value that is not None |
| Library.AddedVideoIsInLibrary | resources/lib/kodi/library.py:147-155 | a video just added is reported as in the library |
| Library.LibraryIndex.constructor | resources/lib/kodi/library.py:25 | the module global starts as None |
| Library.LibraryIndex.Load | resources/lib/kodi/library.py:31-39 | result, memo and cache state are those of `LoadSpec` |
| Library.LibraryIndex.Save | resources/lib/kodi/library.py:47-51 | result and cache state are those of `SaveSpec`: nothing when unset, else an add with infinite TTL and `to_disk` |
| Library.LibraryIndex.AddToLibrary | resources/lib/kodi/library.py:147-155 | result, memo and cache state are those of `AddToLibrarySpec` |
| Library.LibraryIndex.IsInLibrary | resources/lib/kodi/library.py:67-69 | result, memo and cache state are those of `IsInLibrarySpec` |
| InfoLabels.MediaType | resources/lib/kodi/infolabels.py:53-56 | a summary without a type is a season and `show` becomes `tvshow`; any other type is kept; a summary that is not a dict raises |
| InfoLabels.ShowTitle | resources/lib/kodi/infolabels.py:63-66 | a tvshow carries its own title; a season or episode with a truthy `tvshowid` carries the show title from `raw_data`; anything else carries none |
| InfoLabels.MappedValue | resources/lib/kodi/infolabels.py:69-76 | a mapped value that is a dict or None counts as missing; a plain key reads `item.get(key)` |
| InfoLabels.Mapped | resources/lib/kodi/infolabels.py:68-79 | exactly the mappings whose value is present, each transformed when a transformation exists and kept as is otherwise |
| InfoLabels.TagNames | resources/lib/kodi/infolabels.py:87-90 | every tag definition must be a dict (else `AttributeError`); the result keeps exactly the names that are unicode strings |
| InfoLabels.QualityInfos | resources/lib/kodi/infolabels.py:93-117 | no delivery info gives `{}`; otherwise `hasHD` wins over `hasUltraHD`, which wins over SD, 5.1 audio gives 6 channels, otherwise 2, and the codec follows the Dolby setting |
| InfoLabels.Assemble | resources/lib/kodi/infolabels.py:58-90 | later assignments override earlier ones: tags last, then references, then mappings, then the base labels |
| InfoLabels.ParseInfo | resources/lib/kodi/infolabels.py:49-91 | the quality infos are `get_quality_infos`; tags are strings; a mapping not overridden is present exactly when its value is; `mediatype` and `tvshowtitle` follow `MediaType` and `ShowTitle` |
| InfoLabels.ApplyInfoSpec | resources/lib/kodi/infolabels.py:24-28 | the list item gets the infolabels, becomes playable for episodes and movies, and gains the quality infos as stream infos |
| InfoLabels.ParseArt | resources/lib/kodi/infolabels.py:119-151 | fanart precedence is background image over interesting moment over boxart; thumb and landscape always agree, come from the interesting moment for episodes, from the boxart otherwise; poster and clearlogo appear exactly when truthy |
| InfoLabels.EpisodeType | resources/lib/kodi/infolabels.py:146 | `item.get('summary', {}).get('type') == 'episode'`, failing when the item or summary is not a dict |
| InfoLabels.MissParsesAndStores | resources/lib/kodi/infolabels.py:18-23 | on a miss the item is parsed and the result is added with the metadata TTL and written to disk |
| InfoLabels.HitUsesEntry | resources/lib/kodi/infolabels.py:14-17 | a cached entry is used as it is, whatever item is given |
| InfoLabels.ParsedInfoIsReused | resources/lib/kodi/infolabels.py:14-23 | infolabels parsed on a miss are read back from the cache, without parsing, until the metadata TTL runs out |
| InfoLabels.ParsedArtIsReused | resources/lib/kodi/infolabels.py:33-38 | the same for art |
| InfoLabels.ListItem.constructor | resources/lib/kodi/infolabels.py:10-12 | a fresh list item has no infolabels, art or streams and is not playable |
| InfoLabels.FetchInfo | resources/lib/kodi/infolabels.py:14-23 | result and cache state are those of `FetchInfoSpec` |
| InfoLabels.AddInfo | resources/lib/kodi/infolabels.py:10-29 | the cache changes as in `FetchInfoSpec`, the list item as in `ApplyInfoSpec`; a failure leaves the list item alone |
| InfoLabels.AddArt | resources/lib/kodi/infolabels.py:31-40 | result and cache state are those of `FetchArtSpec`; the list item's art is the result |
| Settings.Lookup | resources/lib/common.py:179-180 | `getSetting` of a missing setting reads as `''`, otherwise as stored |
| Settings.Addon.constructor | resources/lib/common.py:22 | the add-on starts with the given string and integer settings |
| Settings.Addon.SetSetting | resources/lib/common.py:197-198 | `setSetting` stores the value under its key and changes nothing else |
| Settings.EsnSpec | resources/lib/common.py:204-212 | `set_esn` writes, and returns True, exactly when no ESN is stored and the argument is non-empty; otherwise the stored ESN stays |
| Settings.EsnIsWrittenOnce | resources/lib/globals.py:125-133 | once an ESN is written, no later `set_esn` changes it or reports a write |
| Settings.SetEsn | resources/lib/common.py:200-212 | the write and the stored ESN follow `EsnSpec`, and no other setting changes |
| Globals.Tail | resources/lib/globals.py:74-76 | `s[1:]`, empty for an empty string |
| Globals.ParseArgv | resources/lib/globals.py:67-79 | no `argv[0]` raises `IndexError`; a missing `argv[1]` gives handle 0, a non-numeric one raises `ValueError`; `PARAM_STRING` is `argv[2]` without its first character or `''`; `PATH` drops the URL path's first character; `BASE_URL` is `scheme://netloc` |
| Globals.TtlSeconds | resources/lib/globals.py:63-65 | a TTL setting in minutes becomes that many minutes in seconds |
| Globals.CacheDirectories | resources/lib/globals.py:88-98 | when the cache directory is missing, one directory per bucket except the library bucket; otherwise none |
| Globals.GlobalVariables.constructor | resources/lib/globals.py:45-47 | a new instance has no cache, and `_library` is not yet set |
| Globals.GlobalVariables.InitGlobals | resources/lib/globals.py:49-86 | `_library` is set to None first, the TTLs are the settings in seconds, and the invocation, cache directories and a new cache configured with those TTLs and the plugin handle are set exactly when `ParseArgv` succeeds |
| Globals.GlobalVariables.GetLibrary | resources/lib/globals.py:105-113 | before `init_globals` `_library` is unset (`AttributeError`); a truthy memo is returned as is; with no cache an empty memo raises `AttributeError`; otherwise result, memo and cache follow `Library.LoadSpec` |
| Globals.GlobalVariables.SaveLibrary | resources/lib/globals.py:115-119 | before `init_globals` the test of `_library` raises `AttributeError`; a None memo is not saved; otherwise result and cache follow `Library.SaveSpec` |
| Globals.GlobalVariables.SetEsn | resources/lib/globals.py:121-133 | the write and the stored ESN follow `EsnSpec`, and no other setting changes |
| CommonGlobals.Module.constructor | resources/lib/common/globals.py:53-57 | the module reads the given add-on's settings |
| CommonGlobals.Module.InitGlobals | resources/lib/common/globals.py:53-84 | the TTLs are the settings in seconds; the invocation follows `ParseArgv` and is left alone when it fails |
| CommonGlobals.Module.SetEsn | resources/lib/common/globals.py:95-108 | the write and the stored ESN follow `EsnSpec`, and no other setting changes |
| Common.LegacyCommitSpec | resources/lib/common.py:85-92 | the backing file holds the contents; memory and the dirty flag are unchanged |
| Common.LegacyLoadSpec | resources/lib/common.py:101-110 | without a backing file nothing changes, the dirty flag included; a stored file replaces the contents and clears the flag; an unreadable one raises |
| Common.LegacyContentsSpec | resources/lib/common.py:69-76 | a clean storage, or one without a file, answers from memory; the file is never changed by reading |
| Common.LegacySetItemSpec | resources/lib/common.py:63-67 | the key is stored, the contents committed and the storage marked dirty |
| Common.LegacyClearSpec | resources/lib/common.py:94-99 | the contents are emptied and committed |
| Common.LegacySetThenGet | resources/lib/common.py:63-83 | a value just set is what the next read returns, reloaded from the file |
| Common.LegacyClearThenGet | resources/lib/common.py:78-99 | after `clear`, `get` gives the default and `s[key]` raises `KeyError` |
| Common.MissingFileStaysDirty | resources/lib/common.py:101-110 | without a backing file reads answer from memory and leave the storage dirty |
| Common.LegacyStorage.constructor | resources/lib/common.py:52-57 | empty contents, marked dirty |
| Common.LegacyStorage.Commit | resources/lib/common.py:85-92 | the new state is that of `LegacyCommitSpec` |
| Common.LegacyStorage.LoadFromDisk | resources/lib/common.py:101-110 | result and new state are those of `LegacyLoadSpec` |
| Common.LegacyStorage.Contents | resources/lib/common.py:69-76 | result and new state are those of `LegacyContentsSpec` |
| Common.LegacyStorage.Get | resources/lib/common.py:78-83 | result and new state are those of `LegacyGetSpec`: the value, or the default for a missing key |
| Common.LegacyStorage.GetItem | resources/lib/common.py:59-61 | result and new state are those of `LegacyGetItemSpec`: the value, or `KeyError` |
| Common.LegacyStorage.SetItem | resources/lib/common.py:63-67 | the new state is that of `LegacySetItemSpec` |
| Common.LegacyStorage.Clear | resources/lib/common.py:94-99 | the new state is that of `LegacyClearSpec` |
| Common.FindEpisode | resources/lib/common.py:295-306 | the first episode across the seasons in order whose `str(id)` matches, or `{}`; it agrees with `KodiOps.FindEpisode` without `raise_exc` |
| Common.AsciiOnly | resources/lib/common.py:243 | `encode('ascii', 'ignore')` keeps exactly the ASCII characters and leaves an ASCII string alone |
| Common.CheckFolderPath | resources/lib/common.py:236-253 | a byte string holding a byte from 128 up raises `UnicodeDecodeError` (the `unicode_literals` separator test decodes it as ASCII), and nothing else fails; an ASCII byte string behaves like `FileOps.CheckFolderPath`; otherwise the path is kept as a prefix and grows by at most one character, and a unicode path is left alone exactly when its ASCII characters end in each separator they contain |
| Common.AsciiPathsAgree | resources/lib/common.py:236-253 | on ASCII paths both branches agree with the later `fileops.check_folder_path` |
| Common.NonAsciiBytePathRaises | resources/lib/common.py:248-249 | the UTF-8 byte string of `/home/josé` raises `UnicodeDecodeError` before any separator is tested |
| Common.UnicodeTailMissesSeparator | resources/lib/common.py:242-245 | the unicode path `a/é` gets no trailing `/`, although the byte rule would append one |
| Common.SetCredentialsSpec | resources/lib/common.py:191-198 | with both values present both are stored encrypted; otherwise nothing changes; no other setting is touched |
| Common.GetCredentialsSpec | resources/lib/common.py:174-189 | an email containing `@` is plaintext: returned as is and re-saved encrypted; otherwise nothing is written, a missing email or password gives empty strings, and both are decrypted |
| Common.StoredCredentialsReadBack | resources/lib/common.py:174-198 | credentials stored by `set_credentials` read back as given |
| Common.PlaintextCredentialsAreMigrated | resources/lib/common.py:182-184 | plaintext credentials are returned once and then read back from their encrypted form |
| Common.SetCredentials | resources/lib/common.py:191-198 | the settings become those of `SetCredentialsSpec` |
| Common.GetCredentials | resources/lib/common.py:174-189 | result and settings are those of `GetCredentialsSpec` |
| Storage.CommitSpec | resources/lib/common/storage.py:57-63 | a writable file receives the contents; an unwritable one raises `IOError` and changes nothing; memory and the dirty flag are unchanged |
| Storage.LoadSpec | resources/lib/common/storage.py:72-80 | a missing file (`IOError`) keeps the contents but still clears the dirty flag; a stored file replaces the contents; a corrupt file raises `ValueError` before the flag is cleared |
| Storage.ContentsSpec | resources/lib/common/storage.py:41-48 | a clean storage answers from memory; a successful read leaves it clean; the file is never changed by reading |
| Storage.SetItemSpec | resources/lib/common/storage.py:36-39 | the key is stored in memory even when the commit fails; the storage is marked dirty and the file holds the contents only when the commit succeeds |
| Storage.ClearSpec | resources/lib/common/storage.py:65-70 | the contents are emptied and, when the commit succeeds, so is the file |
| Storage.SetThenGet | resources/lib/common/storage.py:33-55 | after `s[k] = v` with a faithful disk, both `get(k)` and `s[k]` return `v` |
| Storage.ClearThenGet | resources/lib/common/storage.py:50-70 | after a `clear` that reached the disk, every key reads as its default, whatever the dirty flag was |
| Storage.GetGivesDefaultForMissingKeys | resources/lib/common/storage.py:33-55 | `get` gives the stored value or the default, and `s[key]` raises `KeyError` exactly for a missing key |
| Storage.PersistentStorage.constructor | resources/lib/common/storage.py:22-27 | empty contents, marked dirty |
| Storage.PersistentStorage.Commit | resources/lib/common/storage.py:57-63 | result and new state are those of `CommitSpec` |
| Storage.PersistentStorage.LoadFromDisk | resources/lib/common/storage.py:72-80 | result and new state are those of `LoadSpec` |
| Storage.PersistentStorage.Contents | resources/lib/common/storage.py:41-48 | result and new state are those of `ContentsSpec` |
| Storage.PersistentStorage.Get | resources/lib/common/storage.py:50-55 | result and new state are those of `GetSpec` |
| Storage.PersistentStorage.GetItem | resources/lib/common/storage.py:33-34 | result and new state are those of `GetItemSpec` |
| Storage.PersistentStorage.SetItem | resources/lib/common/storage.py:36-39 | result and new state are those of `SetItemSpec` |
| Storage.PersistentStorage.Clear | resources/lib/common/storage.py:65-70 | result and new state are those of `ClearSpec` |
| Storage.PersistentStorage.Destroy | resources/lib/common/storage.py:29-31 | destroying the instance commits the contents |
| Cookies.EarliestExpiration | resources/lib/services/cookies.py:67-73 | the minimum expiry over the cookies that have one, capped by the sentinel, and attained by one of them unless it is the sentinel |
| Cookies.ExpiredIff | resources/lib/services/cookies.py:67-74 | a jar is expired exactly when `now` is past some cookie's expiry (equality is not expired) or past the sentinel |
| Cookies.NoExpiryNeverExpires | resources/lib/services/cookies.py:69 | a jar none of whose cookies has expired, in particular one with no expiring cookie, is never expired before the sentinel |
| Cookies.Expired | resources/lib/services/cookies.py:67-74 | the running-minimum loop answers `ExpiredAt` |
| Cookies.LoadFromFileSpec | resources/lib/services/cookies.py:57-65 | the file's jar, or `MissingCookiesError` when there is none |
| Cookies.LoadSpec | resources/lib/services/cookies.py:45-55 | a non-empty jar in memory wins over the file; an expired jar raises `CookiesExpiredError` and is not stored; a successful load is stored in memory; files never change |
| Cookies.SaveSpec | resources/lib/services/cookies.py:25-34 | the jar is stored in memory even when the file write fails |
| Cookies.DeleteSpec | resources/lib/services/cookies.py:36-43 | `KeyError` when the jar is not in memory; otherwise it leaves memory and disk; other accounts are untouched |
| Cookies.SaveThenLoad | resources/lib/services/cookies.py:25-55 | a saved, unexpired, non-empty jar is what the next load returns |
| Cookies.LoadIsStable | resources/lib/services/cookies.py:45-55 | a jar loaded once is loaded again from memory, even with its file gone, while it has not expired |
| Cookies.DeleteThenLoad | resources/lib/services/cookies.py:36-65 | after `delete`, a load raises `MissingCookiesError` |
| Cookies.CookieJars.constructor | resources/lib/services/cookies.py:15 | no jar in memory |
| Cookies.CookieJars.Save | resources/lib/services/cookies.py:25-34 | the new state is that of `SaveSpec` |
| Cookies.CookieJars.Delete | resources/lib/services/cookies.py:36-43 | result and new state are those of `DeleteSpec` |
| Cookies.CookieJars.LoadFromFile | resources/lib/services/cookies.py:57-65 | the result is that of `LoadFromFileSpec` |
| Cookies.CookieJars.Load | resources/lib/services/cookies.py:45-55 | result and new state are those of `LoadSpec` |
| KodiOps.Items | resources/lib/common/kodiops.py:17 | iterating a list yields its items; anything the lookups cannot walk gives `TypeError` |
| KodiOps.FindSeason | resources/lib/common/kodiops.py:12-25 | a season returned (other than the `{}` fallback) is one of `seasons` whose id prints as `season_id`; when every season has an id and none matches, `KeyError` or `{}` as `raise_exc` says |
| KodiOps.FindSeasonFindsFirst | resources/lib/common/kodiops.py:17-19 | the first matching season is the one returned |
| KodiOps.FindInSeason | resources/lib/common/kodiops.py:35-37 | an episode found is one of the season's with a matching id; none found when no id matches |
| KodiOps.FindEpisode | resources/lib/common/kodiops.py:29-43 | an episode returned belongs to one of the seasons and has a matching id; with no seasons, `KeyError` or `{}` |
| KodiOps.FindEpisodeSearchesSeasonsInOrder | resources/lib/common/kodiops.py:34-37 | the match in the earliest season holding one is returned |
| KodiOps.LocalStringSource | resources/lib/common/kodiops.py:84-86 | ids below 30000 are Kodi's own strings, the rest the add-on's |
| MiscUtils.Find | resources/lib/common/misc_utils.py:21-30 | the loop returns what `find_season` returns over the iterated items, and `TypeError` for a search space it cannot iterate |
| MiscUtils.Strip | resources/lib/common/misc_utils.py:124-130 | the result has no whitespace at either end, is no longer than the input, and an already stripped string is kept |
| MiscUtils.StripIsInside | resources/lib/common/misc_utils.py:124-130 | stripping only removes characters |
| MiscUtils.ParseInt | resources/lib/common/misc_utils.py:124-130 | `int(string)` succeeds exactly when the stripped string is an optional sign followed by one or more ASCII digits, fails only with `ValueError`, and reads a string of digits as its decimal value |
| MiscUtils.DigitsOfNat | resources/lib/common/misc_utils.py:124-130 | reading the decimal digits of a natural gives it back |
| MiscUtils.ParseIntOfStr | resources/lib/common/misc_utils.py:124-130 | `int(unicode(i)) == i` for every integer |
| MiscUtils.IsNumeric | resources/lib/common/misc_utils.py:124-130 | a string is numeric exactly when `int()` accepts it; a numeric string holds a digit, and the empty string is not numeric |
| MiscUtils.PrintedIntsAreNumeric | resources/lib/common/misc_utils.py:124-130 | every printed integer is numeric |
| MiscUtils.DigitFreeIsNotNumeric | resources/lib/common/misc_utils.py:124-130 | a string without digits is not numeric |
| MiscUtils.Join | resources/lib/common/misc_utils.py:105 | `'/'.join` of nothing is empty and of one segment is that segment |
| MiscUtils.Split | resources/lib/common/misc_utils.py:105 | `split('/')` always gives at least one segment |
| MiscUtils.SplitJoin | resources/lib/common/misc_utils.py:105 | splitting the join of slash-free segments gives the segments back |
| MiscUtils.ExpandMode | resources/lib/common/misc_utils.py:112-113 | `[mode]` exactly for a truthy mode, else `[]` |
| MiscUtils.ExpandVideoId | resources/lib/common/misc_utils.py:116-117 | no video id adds no segment; a video id adds its path, which fails exactly when a part of it is not text |
| MiscUtils.EncodeParams | resources/lib/common/misc_utils.py:120-121 | no parameters give `''`; otherwise `?` followed by the encoded parameters |
| MiscUtils.BuildUrl | resources/lib/common/misc_utils.py:98-109 | `ValueError` when neither path items nor a video id is given; otherwise the URL is the base, `/`, the joined mode, path items and video id path, `/` and the query |
| MiscUtils.UrlPathSplitsIntoSegments | resources/lib/common/misc_utils.py:98-109 | the path part of a built URL splits back into the mode, path items and video id segments |
| MiscUtils.ProgressIsAlwaysZero | resources/lib/common/misc_utils.py:165 | under Python 2 integer division the progress shown is 0 for every task |
| MiscUtils.HalfwayShowsZero | resources/lib/common/misc_utils.py:165 | halfway through two tasks the dialog shows 0 where 50 was meant |
| MiscUtils.IntendedProgressPercent | resources/lib/common/misc_utils.py:165 | the intended percentage lies in 0..99 and is positive once a task is done (for at most 100 tasks) |
| MiscUtils.IntendedProgressIsMonotone | resources/lib/common/misc_utils.py:165 | the intended percentage never goes down as tasks advance |
| MiscUtils.Failures | resources/lib/common/misc_utils.py:170-176 | at most one error per task |
| MiscUtils.ExecuteTasks | resources/lib/common/misc_utils.py:153-178 | the loop returns what `RunFrom` computes from the first task; the k-th progress update shows `ProgressPercent(k, len(tasks))` as written (always 0) and task k's title; updates stop at a task whose `.get` raises (the error result) or after the canceled task |
| MiscUtils.UncanceledReportsEveryFailure | resources/lib/common/misc_utils.py:162-178 | without a cancel, every failing task is reported once, in order |
| MiscUtils.CancelStopsAtTask | resources/lib/common/misc_utils.py:168-169 | a cancel at task `k` reports exactly the failures of the tasks before it |
| FileOps.Ending | resources/lib/common/fileops.py:15-19 | at most one separator is appended; the backslash test runs second, so a path lacking a trailing backslash gets one even when it also lacks a trailing slash |
| FileOps.CheckFolderPath | resources/lib/common/fileops.py:10-20 | the path is kept as a prefix and grows by at most one character; a path without separators is unchanged; a path with one ends in a separator afterwards |
| FileOps.SingleSeparatorIsIdempotent | resources/lib/common/fileops.py:10-20 | for a path using only one kind of separator, checking twice is checking once |
| FileOps.MixedSeparatorsNeverSettle | resources/lib/common/fileops.py:10-20 | a path with both separators is changed by every call: it alternates between a trailing slash and a trailing backslash |
| FileOps.MixedPathExample | resources/lib/common/fileops.py:10-20 | `a/b\c` becomes `a/b\c\` and then `a/b\c\/` |
| DataTypes.LoLoMoId | resources/lib/api/data_types.py:13-15 | `data['lolomo'][1]` succeeds exactly when `lolomo` is present and is a list or a string of at least two items; for a list it is the second item (for a string, its second character) |
| DataTypes.ListsByContext | resources/lib/api/data_types.py:19-31 | the generator runs to the end exactly when every list has a `context`; the result then holds exactly the lists whose `context` matches (membership for a list of contexts, equality otherwise), and no more than the input |
| DataTypes.SingleListByContext | resources/lib/api/data_types.py:19-31 | one list is yielded exactly when its context matches |
| DataTypes.ListsByContextOfAppend | resources/lib/api/data_types.py:19-31 | the lists are yielded in the order of `self.lists`, each as often as it occurs: filtering two runs one after the other is filtering each and concatenating |
| DataTypes.FirstIsHeadOfFilter | resources/lib/api/data_types.py:19-31 | taking the first matching list is taking the head of `lists_by_context` |
| DataTypes.IndexId | resources/lib/api/data_types.py:50 | a subscript by an id that may be None: None is never a key, `KeyError` on a dict and `TypeError` otherwise |
| DataTypes.ShowRecord | resources/lib/api/data_types.py:52 | `data['videos'][tvshowid]` succeeds exactly when the show id is set and present, and is that record |
| DataTypes.Dedup | resources/lib/api/data_types.py:16-17 | the keys in order of first occurrence: distinct, and exactly the keys given |
| DataTypes.Assign | resources/lib/api/data_types.py:16-17 | assigning a key of an ordered dict puts that pair in and keeps every pair of another key |
| DataTypes.AssignKeys | resources/lib/api/data_types.py:16-17 | an assigned key keeps its place when present and is appended otherwise |
| DataTypes.OrderedDict | resources/lib/api/data_types.py:16-17 | `OrderedDict(pairs)`: the keys are those of the pairs in order of first occurrence, each once, and each key has the value of its last pair |
| DataTypes.RepeatedKeyKeepsLastValue | resources/lib/api/data_types.py:16-17 | a key given twice is kept once, with its second value |
| DataTypes.VideoListOf | resources/lib/api/data_types.py:37-41 | a missing `lists` raises as the subscript does, a `lists` that is no dict raises `AttributeError`; a list id is one of the keys of `lists` and the videos have distinct ids |
| DataTypes.VideoListIdIsTheRequestedList | resources/lib/api/data_types.py:39 | with the dict's own key order, an empty `lists` raises `IndexError` and a `lists` holding only the requested list gives that list's id |
| DataTypes.SeasonListOf | resources/lib/api/data_types.py:45-52 | a missing `videos` raises first, then a string argument raises `AttributeError`; a season list belongs to the VideoId given, carries the show record and has distinct season ids |
| DataTypes.EpisodeListOf | resources/lib/api/data_types.py:56-63 | an episode list is built from `seasons[seasonid]['episodes']` of the response, belongs to the VideoId given, carries the show record and has distinct episode ids |
| Profiles.ProfileStrings | resources/lib/services/msl/profiles.py:18-21 | one string per level of every tail |
| Profiles.LevelCountPrefix | resources/lib/services/msl/profiles.py:18-21 | the levels of the earlier tails and of tail `t` fit in the total |
| Profiles.ProfileStringAt | resources/lib/services/msl/profiles.py:18-21 | the string at the position of level `l` of tail `t` is `base + level + tail[1]`: tails in the outer loop, levels in the inner |
| Profiles.GroupSizes | resources/lib/services/msl/profiles.py:40-58 | the HEVC group has 24 profiles, HDR 12 and Dolby Vision 12 |
| Profiles.AsList | resources/lib/services/msl/profiles.py:77 | one setting name becomes a one-element list; a list is kept |
| Profiles.AdditionalProfiles | resources/lib/services/msl/profiles.py:76-80 | the whole group when every listed setting is on, nothing as soon as one is off |
| Profiles.OneSetting | resources/lib/services/msl/profiles.py:76-80 | a single setting switches its group |
| Profiles.BothSettings | resources/lib/services/msl/profiles.py:76-80 | a group under two settings needs both |
| Profiles.EnabledProfiles | resources/lib/services/msl/profiles.py:62-73 | the base profiles come first, then each group in order whose settings are on; HDR and Dolby Vision also need HEVC |
| Profiles.NoHevcNoHdr | resources/lib/services/msl/profiles.py:62-73 | with HEVC off, no HEVC, HDR or Dolby Vision profile is requested whatever their own settings say |
| Profiles.AllEnabled | resources/lib/services/msl/profiles.py:24-73 | with every setting on, all six groups are requested, 61 profiles in all |
| Markers.OffsetMarkers | resources/lib/playback/markers.py:10-16 | exactly the two offset markers whose value is present and not `None`, with their values; metadata that is not a dict raises `AttributeError` |
| Markers.Seconds | resources/lib/playback/markers.py:23-25 | `int(ms / 1000)` is the floor of the milliseconds over 1000; a boolean counts as 0; any other value raises `TypeError` |
| Markers.Section | resources/lib/playback/markers.py:22-29 | a section is kept exactly when none of its values is `None` and one is positive, and is then its start and end in seconds |
| Markers.SectionMarkers | resources/lib/playback/markers.py:19-30 | the result covers only skippable sections, each section that passes the filter, with its converted markers; every section must be present in `creditMarkers` |
| Markers.SectionExamples | resources/lib/playback/markers.py:19-30 | an all-zero credit section is dropped; a recap of 1500 to 61999 ms becomes 1 to 61 s |
| SectionSkipping.InitializeSpec | resources/lib/services/playback/section_skipping.py:31-34 | succeeds exactly when `data` is a dict holding `timeline_markers`, keeping those markers and the two settings |
| SectionSkipping.DurationSplit | resources/lib/services/playback/section_skipping.py:72-75 | the dialog's minutes and seconds add up to the duration, with seconds in 0..59 |
| SectionSkipping.NotificationText | resources/lib/services/playback/section_skipping.py:58-59 | the notification text is the label followed by `...` exactly when the label is ASCII; any other label raises `UnicodeDecodeError` |
| SectionSkipping.SkipSpec | resources/lib/services/playback/section_skipping.py:47-82 | auto-skip notifies and seeks to the end, pausing around the seek when asked, and raises `UnicodeDecodeError` before either for a label outside ASCII; otherwise one skip dialog whose minutes and seconds add up to the section's length and whose target is its end |
| SectionSkipping.IntendedSkipSpec | resources/lib/services/playback/section_skipping.py:47-82 | under the intended rule auto-skip notifies with any label and seeks; asking is as written |
| SectionSkipping.IntendedSkipAgreesOnAscii | resources/lib/services/playback/section_skipping.py:55-68 | the intended and the written skip agree exactly when asking or when the label is ASCII |
| SectionSkipping.IntendedAutoSkipSeeksToEnd | resources/lib/services/playback/section_skipping.py:55-68 | under the intended rule auto-skip always notifies first and seeks to the section's end |
| SectionSkipping.CheckSectionSpec | resources/lib/services/playback/section_skipping.py:40-45 | for integer markers, a section fires exactly when the elapsed time lies within its start and end inclusive; firing acts and deletes that section's marker and nothing else, unless auto-skip raises `UnicodeDecodeError` on a non-ASCII label, which keeps the marker and acts on nothing; not firing does nothing |
| SectionSkipping.FiresAtMostOnce | resources/lib/services/playback/section_skipping.py:40-45 | once a section has fired, later ticks leave it alone |
| SectionSkipping.CheckAllKeepsUnvisitedMarkers | resources/lib/services/playback/section_skipping.py:36-38 | the markers of sections that are not checked keep their values |
| SectionSkipping.TickSpec | resources/lib/services/playback/section_skipping.py:36-38 | a tick checks every skippable section at the player's elapsed seconds; a state without `elapsed_seconds` raises `KeyError` and changes nothing |
| SectionSkipping.TickExample | resources/lib/services/playback/section_skipping.py:36-68 | at 120 s, with an ASCII label, the credits of 100 to 130 s are auto-skipped to 130 s and only the recap marker remains |
| SectionSkipping.NonAsciiLabelStopsAutoSkip | resources/lib/services/playback/section_skipping.py:55-68 | the same tick with a non-ASCII credits label raises `UnicodeDecodeError`, seeks nowhere and keeps both markers |
| SectionSkipping.SectionSkipper.constructor | resources/lib/services/playback/section_skipping.py:20-24 | no enabled flag, empty markers, no auto-skip and no pause |
| SectionSkipping.SectionSkipper.Enabled | resources/lib/playback/action_manager.py:15-26 | result and new state are those of `ActionManager.EnabledSpec` under the class's own setting |
| SectionSkipping.SectionSkipper.SetEnabled | resources/lib/playback/action_manager.py:28-30 | only the flag changes |
| SectionSkipping.SectionSkipper.InitializeHook | resources/lib/services/playback/section_skipping.py:31-34 | the fields become those of `InitializeSpec`, or stay as they were on failure |
| SectionSkipping.SectionSkipper.Initialize | resources/lib/playback/action_manager.py:32-41 | the new state is that of `ActionManager.InitializeSpec` |
| SectionSkipping.SectionSkipper.CheckSection | resources/lib/services/playback/section_skipping.py:40-82 | result, markers and effects are those of `CheckSectionSpec` |
| SectionSkipping.SectionSkipper.TickHook | resources/lib/services/playback/section_skipping.py:36-38 | result, markers and effects are those of `TickSpec` |
| SectionSkipping.SectionSkipper.OnTick | resources/lib/playback/action_manager.py:51-55 | the tick runs exactly when the manager is enabled, as `ActionManager.CallIfEnabledSpec` states |
| SectionSkipping.SectionSkipper.OnPlaybackStarted | resources/lib/playback/action_manager.py:43-49 | only the enabled flag is loaded |
| SectionSkipping.SectionSkipper.OnPlaybackStopped | resources/lib/playback/action_manager.py:57-62 | nothing happens besides resetting the flag, as `ActionManager.StoppedSpec` states |
| Bookmarks.InitializeSpec | resources/lib/services/playback/bookmarks.py:28-32 | succeeds exactly when `data` holds `dbinfo`; markers default to `{}`; progress and elapsed time restart at 0 |
| Bookmarks.LibraryId | resources/lib/services/playback/bookmarks.py:48-61 | `dbinfo['dbtype']` and `dbinfo['dbid']`, failing when either is missing |
| Bookmarks.SaveBookmarkSpec | resources/lib/services/playback/bookmarks.py:44-49 | the library item gets `resume.position` set to the elapsed seconds |
| Bookmarks.TickSpec | resources/lib/services/playback/bookmarks.py:38-42 | progress and elapsed time are taken from the player state; a bookmark is saved exactly when the elapsed seconds are a multiple of 5; `dbinfo` and markers are kept |
| Bookmarks.WatchedToEndSpec | resources/lib/services/playback/bookmarks.py:51-56 | with a watched-to-end offset, whether the elapsed time reached it; without one, whether progress reached 90 |
| Bookmarks.MarkAsWatchedSpec | resources/lib/services/playback/bookmarks.py:58-63 | the playcount (0 by default) goes up by one and the resume position is reset to 0 |
| Bookmarks.StoppedSpec | resources/lib/services/playback/bookmarks.py:34-36 | at most one update, issued exactly when the item was watched to the end, and it is the mark-as-watched update |
| Bookmarks.SavedPositionIsElapsed | resources/lib/services/playback/bookmarks.py:38-49 | a saved bookmark points at the tick's elapsed seconds, for the item's library id |
| Bookmarks.FinishedItemIsMarked | resources/lib/services/playback/bookmarks.py:34-63 | an item stopped at its watched-to-end offset, or past 90 percent without one, gets its playcount raised and its resume point cleared |
| Bookmarks.BookmarkManager.constructor | resources/lib/services/playback/bookmarks.py:17-22 | no enabled flag; `dbinfo` and markers `None`; progress and elapsed time 0 |
| Bookmarks.BookmarkManager.Enabled | resources/lib/playback/action_manager.py:15-26 | result and new state are those of `ActionManager.EnabledSpec` under the class's own setting |
| Bookmarks.BookmarkManager.SetEnabled | resources/lib/playback/action_manager.py:28-30 | only the flag changes |
| Bookmarks.BookmarkManager.InitializeHook | resources/lib/services/playback/bookmarks.py:28-32 | the fields become those of `InitializeSpec`, or stay as they were on failure |
| Bookmarks.BookmarkManager.Initialize | resources/lib/playback/action_manager.py:32-41 | the new state is that of `ActionManager.InitializeSpec` |
| Bookmarks.BookmarkManager.TickHook | resources/lib/services/playback/bookmarks.py:38-49 | result, fields and updates are those of `TickSpec` |
| Bookmarks.BookmarkManager.OnTick | resources/lib/playback/action_manager.py:51-55 | the tick runs exactly when the manager is enabled, as `ActionManager.CallIfEnabledSpec` states |
| Bookmarks.BookmarkManager.OnPlaybackStarted | resources/lib/playback/action_manager.py:43-49 | only the enabled flag is loaded |
| Bookmarks.BookmarkManager.OnPlaybackStopped | resources/lib/playback/action_manager.py:57-62 | the watched check runs when enabled and the flag is reset, as `ActionManager.StoppedSpec` states |
| ActionManager.Atomic | resources/lib/playback/action_manager.py:64-66 | a hook that raises before changing any field leaves the fields and emits nothing |
| ActionManager.EnabledSpec | resources/lib/playback/action_manager.py:15-26 | the setting is read only while the flag is `None`, and what is answered is kept |
| ActionManager.EnabledIsLoadedOnce | resources/lib/playback/action_manager.py:15-26 | once loaded, the flag no longer follows the setting |
| ActionManager.InitializeSpec | resources/lib/playback/action_manager.py:32-41 | afterwards the flag is set; a disabled manager is left alone; an enabled one whose hook raises is disabled with its fields unchanged |
| ActionManager.CallIfEnabledSpec | resources/lib/playback/action_manager.py:64-66 | the hook runs exactly when the (loaded) flag is true; otherwise nothing changes besides loading the flag |
| ActionManager.StartedSpec | resources/lib/playback/action_manager.py:43-49 | the fields are kept and the flag is loaded |
| ActionManager.StoppedSpec | resources/lib/playback/action_manager.py:57-62 | the hook runs as for any call; the flag is reset to `None` only when the hook does not raise |
| ActionManager.FailedInitializeDisables | resources/lib/playback/action_manager.py:32-66 | a manager whose initialization raised ignores the ticks of that playback, and reads its setting again after the stop |
| Controller.NotifyOne | resources/lib/playback/controller.py:78-86 | a notification reaches a manager of the same kind; one carrying `None` data calls the method without an argument, which raises `TypeError` |
| Controller.NotifyEach | resources/lib/playback/controller.py:81-86 | every manager is kept in place |
| Controller.NotifyAllInOrder | resources/lib/playback/controller.py:81-86 | when no manager raises, each is notified once, in list order, and the effects are theirs in that order |
| Controller.NotifyAllStopsAtFirstFailure | resources/lib/playback/controller.py:81-86 | the first manager that raises ends the loop: the ones before it are notified, the ones after it untouched |
| Controller.Notify | resources/lib/playback/controller.py:82-86 | result, state and effects are those of `NotifyOne` |
| Controller.PlayerStateSpec | resources/lib/playback/controller.py:88-110 | `IOError` from the JSON-RPC call gives `{}`; other exceptions propagate; otherwise the state gains `elapsed_seconds = hours * 3600 + minutes * 60 + seconds` |
| Controller.ElapsedSecondsDetermineTime | resources/lib/playback/controller.py:105-108 | for minutes and seconds below 60, the elapsed seconds give the hours, minutes and seconds back |
| Controller.PlaybackController.constructor | resources/lib/playback/controller.py:22-26 | not tracking, no active player, the given managers |
| Controller.PlaybackController.NotifyAt | resources/lib/playback/controller.py:82-86 | only the `i`th manager changes, as `NotifyOne` says |
| Controller.PlaybackController.NotifyAll | resources/lib/playback/controller.py:78-86 | result, managers and effects are those of `NotifyAllSpec` |
| Controller.PlaybackController.InitializePlayback | resources/lib/playback/controller.py:32-40 | tracking starts and every manager is initialized in order |
| Controller.PlaybackController.OnPlaybackStarted | resources/lib/playback/controller.py:68-71 | a missing `player.playerid` raises before anything changes; otherwise it becomes the active player and the managers get the player state, unless reading it raised |
| Controller.PlaybackController.OnPlaybackStopped | resources/lib/playback/controller.py:73-76 | tracking ends, the active player is cleared, and every manager is told in order |
| Controller.PlaybackController.OnNotification | resources/lib/playback/controller.py:42-56 | without tracking, or for other methods, nothing changes; `Player.OnStop` ends tracking and gives the result, managers and effects of `NotifyAllSpec` for the stop; `Player.OnAVStart` keeps tracking and behaves as `_on_playback_started`: a missing player id raises and changes nothing, otherwise the id is recorded and the managers get the player state through `NotifyAllSpec`, unless reading it raised |
| Controller.PlaybackController.OnPlaybackTick | resources/lib/playback/controller.py:58-66 | without tracking, or with an empty player state, nothing happens; otherwise the managers get the tick in order |
| MslHandler.StrSplit | resources/lib/services/msl/msl_handler.py:219-221 | `split` gives at least one piece, and the first piece is a prefix of the string |
| MslHandler.SplitThenJoin | resources/lib/services/msl/msl_handler.py:219-221 | joining the pieces with the separator gives the string back |
| MslHandler.FirstPieceEndsAtFirstOccurrence | resources/lib/services/msl/msl_handler.py:219 | the first piece ends at the first occurrence of the separator, and there is a single piece exactly when the separator does not occur |
| MslHandler.SignatureRun | resources/lib/services/msl/msl_handler.py:220 | the longest leading run of characters from `[0-9A-Za-z=/+]` |
| MslHandler.SignatureMatch | resources/lib/services/msl/msl_handler.py:220 | a match of the signature pattern starts with `,"signature":"` and lies within the text |
| MslHandler.SignatureSplit | resources/lib/services/msl/msl_handler.py:220-221 | `re.split` always gives at least one piece |
| MslHandler.Payloads | resources/lib/services/msl/msl_handler.py:222 | one payload per piece but the last, each the piece with `}` appended |
| MslHandler.ParseChunks | resources/lib/services/msl/msl_handler.py:218-223 | a message without `}}` raises `IndexError`; otherwise the header is a prefix of the message ending in `}}` and every payload ends in `}` |
| MslHandler.HeaderEndsAtFirstClose | resources/lib/services/msl/msl_handler.py:218-223 | parsing fails exactly when `}}` does not occur, and the header ends at its first occurrence |
| MslHandler.ParseChunked | resources/lib/services/msl/msl_handler.py:218-223 | a message built from a header and signed chunks parses back into that header and the chunk bodies, each closed by `}` |
| MslHandler.SplitChunks | resources/lib/services/msl/msl_handler.py:220-221 | splitting encoded chunks at their signatures gives their bodies and a trailing empty piece |
| MslHandler.B64 | resources/lib/services/msl/msl_handler.py:231 | only strings are decoded; anything else raises `TypeError` |
| MslHandler.ErrorDetails | resources/lib/services/msl/msl_handler.py:205-215 | with `errordata`, the decoded `errormsg`; otherwise the result's `errorDisplayMessage`, or `''` |
| MslHandler.ErrorDetailsOutcomes | resources/lib/services/msl/msl_handler.py:205-215 | for a dict response: the `errormsg` decoded from `errordata`; without `errordata`, the result's `errorDisplayMessage`, or `''` when it has none; `KeyError` when neither `errordata` nor `result` is present |
| MslHandler.RaiseIfError | resources/lib/services/msl/msl_handler.py:199-202 | a response passes exactly when it has no `errordata` and a truthy `success`, and is returned unchanged; otherwise `MSLError` with the error details, or `KeyError` when `success` is missing |
| MslHandler.RaiseIfErrorIsIdempotent | resources/lib/services/msl/msl_handler.py:199-202 | a response that passed the check passes it again unchanged |
| MslHandler.PlaintextData | resources/lib/services/msl/msl_handler.py:238-246 | a plaintext that is not a dict raises `AttributeError` |
| MslHandler.GunzipOnlyForGzip | resources/lib/services/msl/msl_handler.py:241-246 | only data marked `GZIP` is decompressed; other data is only base64-decoded |
| MslHandler.FirstFailingChunk | resources/lib/services/msl/msl_handler.py:228-247 | the chunks are assembled exactly when every chunk gives its data, and the first failing chunk decides the exception |
| MslHandler.ConcatOfAppend | resources/lib/services/msl/msl_handler.py:247 | the data of two runs of chunks is the concatenation of their data |
| MslHandler.DecryptChunksSpec | resources/lib/services/msl/msl_handler.py:226-251 | a failing chunk raises its exception; otherwise the answer is decoded from the `payload.data` of the second message of the assembled data |
| MslHandler.DecryptChunks | resources/lib/services/msl/msl_handler.py:226-251 | the accumulating loop gives `DecryptChunksSpec` |
| Msl.ParseChunkedMslResponse | resources/lib/services/msl/MSL.py:215-223 | the same chunks as `MslHandler.ParseChunks`, which it repeats |
| Msl.LicenseResult | resources/lib/services/msl/MSL.py:152-176 | `False` when the post failed or the response is plain JSON; other JSON errors propagate; a decrypted answer gives `result.licenses[0].data` exactly when `success` is `True`, and `False` otherwise |
| Msl.SuccessMustBeTrue | resources/lib/services/msl/MSL.py:170-175 | `success` of 1 passes the `_raise_if_error` check but gives no license, since it `is` not `True` |
| Msl.BaseHeader | resources/lib/services/msl/MSL.py:282-300 | the header names the ESN as sender, the handshake flag, the message id and the fixed timestamp, and lists the compression algorithm only when one is given |
| Msl.HeaderSpec | resources/lib/services/msl/MSL.py:272-319 | key request data exactly for a key request; email and password auth data exactly when neither a key request nor a user token applies, and only then can reading the credentials fail |
| Msl.ContextsSpec | resources/lib/services/msl/MSL.py:204-209 | on success both contexts come from the first viewable; a failure keeps the DRM context; a context changes only when there is a viewable |
| Msl.MissingDrmContextSplitsContexts | resources/lib/services/msl/MSL.py:206-208 | a viewable without `drmContextId` raises after the playback context was replaced, leaving the two contexts from different manifests |
| Msl.Handler.constructor | resources/lib/services/msl/MSL.py:44-50 | the class attributes' initial contexts, message id and tokens |
| Msl.Handler.GenerateMslHeader | resources/lib/services/msl/MSL.py:272-319 | the draw from 0 to 2**52 becomes the current message id and the header is `HeaderSpec`'s |
| Msl.Handler.TransformToDash | resources/lib/services/msl/MSL.py:204-209 | result and contexts are those of `ContextsSpec` |
| DefaultCrypto.RestorePadding | resources/lib/services/msl/default_crypto.py:125-132 | a length of 1 modulo 4 raises `ValueError`; otherwise the payload followed by `=` up to a multiple of four |
| DefaultCrypto.Base64KeyDecode | resources/lib/services/msl/default_crypto.py:125-133 | the URL-safe decoding of the padded payload, or `ValueError` |
| DefaultCrypto.StripPadding | resources/lib/services/msl/default_crypto.py:125-133 | the longest prefix without trailing `=` |
| DefaultCrypto.RestoresStrippedPadding | resources/lib/services/msl/default_crypto.py:125-133 | restoring the padding of stripped, well-padded base64 gives it back |
| DefaultCrypto.StripsRestoredPadding | resources/lib/services/msl/default_crypto.py:125-133 | stripping restored padding gives the unpadded key back |
| DefaultCrypto.PyInt | resources/lib/services/msl/default_crypto.py:113 | `int()` of a number is itself, of a string its parse, and of a list, dict or `None` a `TypeError` |
| DefaultCrypto.MastertokenSpec | resources/lib/services/msl/default_crypto.py:110-118 | a token is accepted exactly when at least ten hours remain before its expiration; otherwise `MastertokenExpired`; the sequence number defaults to 0 |
| DefaultCrypto.AcceptedEarlier | resources/lib/services/msl/default_crypto.py:110-118 | a token accepted now was accepted at any earlier time |
| DefaultCrypto.LoadSpec | resources/lib/services/msl/default_crypto.py:29-38 | loaded keys are non-empty, the RSA key is imported, and the mastertoken is accepted; data that is not a dict raises `TypeError` |
| DefaultCrypto.EmptyKeyIsRejected | resources/lib/services/msl/default_crypto.py:34-35 | an empty encryption key is never loaded |
| DefaultCrypto.MslCrypto.constructor | resources/lib/services/msl/default_crypto.py:27-44 | either the loaded keys, or no keys and a newly generated RSA key |
| DefaultCrypto.MslCrypto.SetMastertoken | resources/lib/services/msl/default_crypto.py:110-118 | an expired token raises and changes nothing; an accepted one is stored with its sequence number; the keys-and-mastertoken invariant `Valid` is kept |
| MediaDrm.PadLength | resources/lib/services/msl/MSLMediaDrm.py:128 | between 1 and 16 bytes, reaching a multiple of 16 |
| MediaDrm.Pad | resources/lib/services/msl/MSLMediaDrm.py:127-129 | the data followed by `pad` bytes of value `pad`, up to a multiple of 16 |
| MediaDrm.Unpad | resources/lib/services/msl/MSLMediaDrm.py:113-119 | nothing for an empty decryption; otherwise the data without as many trailing bytes as the last byte says, and empty when that is 0 or the whole length |
| MediaDrm.UnpadInvertsPad | resources/lib/services/msl/MSLMediaDrm.py:113-129 | removing the padding undoes adding it |
| MediaDrm.Encrypt | resources/lib/services/msl/MSLMediaDrm.py:123-146 | an envelope exactly when the session encrypts to something, holding the ciphertext of the padded data, the key id, the IV, version 1 and the fixed hash |
| MediaDrm.DecryptInvertsEncrypt | resources/lib/services/msl/MSLMediaDrm.py:110-146 | with a session whose decryption inverts its encryption, decrypting an envelope gives back the data |
| MediaDrm.ProvideKeyResponseAsWritten | resources/lib/services/msl/MSLMediaDrm.py:47-58 | as written, success means non-empty data and any key set id that is not `None` |
| MediaDrm.FailedKeyResponseCountsAsSuccess | resources/lib/services/msl/MSLMediaDrm.py:53-58 | an empty key set id, which the logging treats as a failure, still counts as success |
| MediaDrm.KeyResponseAccepted | resources/lib/services/msl/MSLMediaDrm.py:47-58 | success means non-empty data and a non-empty key set id |
| MediaDrm.AcceptedIsStricter | resources/lib/services/msl/MSLMediaDrm.py:47-58 | the intended check accepts less, and differs exactly on an empty key set id |
| MediaDrm.ParseKeyResponseSpec | resources/lib/services/msl/MSLMediaDrm.py:100-108 | a missing key response raises and changes nothing; one refused by the check as written keeps the key ids; an accepted one, including an empty key set id, replaces the key id and then the HMAC key id |
| MediaDrm.EmptyKeySetIdInstallsKeys | resources/lib/services/msl/MSLMediaDrm.py:104-108 | a session answer of an empty key set id, which the intended check refuses, still installs the new key ids |
| MediaDrm.FromDictSpec | resources/lib/services/msl/MSLMediaDrm.py:69-86 | without a session, no handshake and nothing changes; otherwise a handshake is needed exactly when the saved ids do not all decode or the session does not restore them, and restored ids are loaded |
| MediaDrm.MediaDrmCrypto.constructor | resources/lib/services/msl/MSLMediaDrm.py:13-18 | no key ids |
| MediaDrm.MediaDrmCrypto.ProvideKeyResponse | resources/lib/services/msl/MSLMediaDrm.py:47-58 | empty data is refused and keeps the key set id; otherwise the session's answer is stored and the result is `ProvideKeyResponseAsWritten`, that is `keySetId != None` |
| MediaDrm.MediaDrmCrypto.ParseKeyResponse | resources/lib/services/msl/MSLMediaDrm.py:100-108 | result and key ids are those of `ParseKeyResponseSpec` |
| MediaDrm.MediaDrmCrypto.FromDict | resources/lib/services/msl/MSLMediaDrm.py:69-86 | result and key ids are those of `FromDictSpec` |
| Website.StoreItems | resources/lib/api/website.py:99-105 | the loop fails exactly when some path raises something other than `KeyError` or `AttributeError`, with that exception; otherwise no key is lost |
| Website.StoreItemsStep | resources/lib/api/website.py:99-105 | one pass stores a found path under its last segment and skips a missing one |
| Website.StoredUnderLastSegment | resources/lib/api/website.py:99-105 | with distinct last segments, each found path ends up under its last segment, and a missing one leaves that key as it was |
| Website.KeepsOtherKeys | resources/lib/api/website.py:99-105 | a key that is no item's last segment keeps its value |
| Website.AssertValidAuthUrl | resources/lib/api/website.py:110-114 | the user data passes unchanged exactly when its `authURL` (`''` when missing) has length 42; otherwise `InvalidAuthURLError`, or `TypeError` for a value without a length |
| Website.EmptyPageIsRejected | resources/lib/api/website.py:94-114 | a page without `reactContext` yields only the default `gpsModel` and is rejected for its missing authURL |
| Website.NothingFound | resources/lib/api/website.py:99-105 | over an empty context every path is skipped |
| Website.ApiItems | resources/lib/api/website.py:52-55 | exactly the last segments of the items naming `serverDefs` |
| Website.ApiData | resources/lib/api/website.py:50-55 | defined exactly when every key is in the user data, with the user data's values for exactly those keys; otherwise `KeyError` |
| Website.GenerateEsn | resources/lib/api/website.py:117-142 | off Android, the user data's `esn`, or `''` |
| Website.ExtractSessionData | resources/lib/api/website.py:42-63 | a session is returned exactly when profiles, user data and API data are found and the membership is `CURRENT_MEMBER`; it then holds a 42-character authURL, the ESN and the API data of that user data |
| Website.ExtractUserdata | resources/lib/api/website.py:94-107 | the loop over `PAGE_ITEMS` followed by the authURL check gives `StoreItems` then `AssertValidAuthUrl` |
| Website.StoreAll | resources/lib/api/website.py:99-105 | the loop, run item by item over any item list, ends with the user data or the escaping exception that `StoreItems` gives |

## Left out

- File, pickle and window-property I/O: disks and Kodi window properties are maps; a failed read is a miss and a failed write an `IOError`, as the code treats them.
- The sleeps and polling of the cross-process bucket lock (`xbmc.sleep`): only the lock marker and the retry rule are kept.
- Wall-clock time: `now` is an integer parameter, so the float results of `time()` and the float remaining lifetime of a mastertoken are only as precise as that parameter; `strp` and `_update_running` are not modelled.
- Floating-point percentages: player percentages are JSON integers here.
- Networking: `nfsession.py`, `MSLHandler._post`, `session.post`, the key handshake, manifest and license requests, request data building and compression, the `MSLHandler` constructor (which reads `msl_data.json`), `load_manifest`, and `convert_to_dash` with the saving of `manifest.json`.
- AES, RSA, HMAC, Widevine `CryptoSession`, base64, zlib and JSON decoding are opaque functions; the `encrypt`/`decrypt`/`sign`/`key_request_data`/`parse_key_response` of `default_crypto.py`, and `sign`, `verify`, `toDict`, `get_key_request`, `__getKeyRequest` and the UTF-8 decode of `MSLMediaDrm.py` are left out for that reason.
- `encrypt_credential` and `decrypt_credential` are parameters of the credential functions.
- `extract_json` (a regular expression and `unicode_escape` decoding) and the Android `subprocess` ESN of `generate_esn`: the page JSON is a parameter and the ESN is taken from the user data.
- `extract_profiles` and `_get_avatar`: the profiles are a parameter of `extract_session_data`.
- `resources/lib/common/pathops.py` is not part of this model; `get_path` is modelled as nested subscripts.
- Dialogs, notifications and log calls, which become effect values or are dropped; Kodi's JSON decoding of notification data (`json.loads(unicode(data, ...))`), which is a parameter.
- `RuntimeError` handling in the controller, which only logs.
- The iteration order of `SKIPPABLE_SECTIONS` (a Python 2 dict): the sections are checked in the order credit, recap.
- The library functions `export_item`, `remove_item`, `update_item` and `get_item`, and the info-label functions `add_info_for_playback`, `add_info_from_netflix` and `add_info_from_library`: file-system and JSON-RPC effects.
- `StreamContinuityManager` and other playback services outside the two managers modelled.
- `Json.AsInt`: Python arithmetic on floats and on large longs is not modelled; only integers and booleans are numbers.
- Cache.EntryFilesAreDistinct: the disk is keyed by `(bucket, identifier)` pairs, which matches the real file names only for identifiers without `/` (an absolute identifier collides across buckets, see `Cache.AbsoluteIdentifiersCollide`); names that reach the same file through `..` are not modelled, since the file system's path resolution is outside the model.
- Cookies.DeleteSpec: the cookie file is always removed; a failing `os.remove`, which the source only logs and which leaves the file in place, is not modelled.
- Msl.LicenseResult: the truthiness of the `requests` response object is folded into the optional response text.
- MiscUtils.ParseInt: only ASCII digits and ASCII whitespace are accepted; `int()` on a unicode string also accepts the other Unicode decimal digits and whitespace (`u'\u0661\u0662'` is 12), which the model rejects, since Unicode character classes are outside the model.
- Shakti.RateValue: only integer ratings are modelled; a float rating, which Python 2 would halve without flooring, is not.
- FileOps.CheckFolderPath: the path is taken as a unicode string. A byte string with a byte from 128 up would raise `UnicodeDecodeError` at the first separator test, as `Common.CheckFolderPath` models for the older copy; this is not modelled here.
- Shakti.Api.Seasons: a VideoId argument whose `str` raises (no mediatype or no truthy value) is not accepted, although Python would raise while hashing it as the cache key after loading the bucket. A VideoId is keyed by its `str`, which agrees with `__eq__` for show ids (`VideoIds.ShowStrIsInjective`), not for season or episode ids of different shows, which Python keeps apart in memory but stores in one file.
- DataTypes.VideoListOf: the order of a Python 2 dict's keys is a parameter; the list id is proved to be a key of `lists`, and the requested list, only for an order that lists each key once (`KeyOrder`).
- The transport of a VideoId argument through `make_call` to the session service is not modelled: the path request carries the argument's key.
- Json.Str: `str()` of a list or a dict is only its opening bracket, so a container where the code expects an id or a title gives a different string than Python would. No stated property depends on that text.

## Findings

| source | as written | input that shows it | evidently intended | confidence | as-written member | corrected member |
|---|---|---|---|---|---|---|
| resources/lib/api/cache.py:52-59 | the default of `kwargs.get` is evaluated eagerly, so `args[index]` raises `IndexError` when the identifying parameter is passed only by keyword; the handler only logs, and the later `get(bucket, identifier)` raises `NameError` | a decorated call with no positional arguments and the identifying parameter as a keyword | use the keyword value, or run the function uncached when no identifier can be found | not executed | ApiCache.KeywordOnlyCallRaises | ApiCache.KeywordOnlyCallRunsUncached |
| resources/lib/api/shakti.py:192-193 | the fallback calls `.get` on `metadata['seasons']`, which is a list of seasons | metadata whose `seasons` is a list and which lacks the episode | search the refetched seasons and give `{}` when the episode is missing | not executed | Shakti.FallbackRejectsSeasonList | Shakti.IntendedFallbackGivesEmpty |
| resources/lib/common/misc_utils.py:165 | `task_num / len(tasks)` is integer division under Python 2, so the percentage is always 0 | task 1 of 2 shows 0 | multiply before dividing: 50 | not executed | MiscUtils.HalfwayShowsZero | MiscUtils.IntendedProgressIsMonotone |
| resources/lib/kodi/library.py:87-90 | a season export passes the whole metadata dict to `find_season`, which iterates its keys and subscripts a string | any season export of a show with non-empty metadata | look the season up in the `'seasons'` list of the video dict `api.metadata` returns, the list the show branch means to iterate | not executed | Library.SeasonExportRaises | Library.IntendedSeasonExport |
| resources/lib/kodi/library.py:75-79 | `api.metadata` already returns the response's `'video'` part, yet the movie, show and episode branches read `metadata['video']` from it and raise `KeyError` | any movie export whose metadata has a title and a year | read `metadata['title']`, `metadata['year']` and `metadata['seasons']` directly | not executed | Library.ExportOfMetadataResultRaises | Library.IntendedMovieExport |
| resources/lib/common.py:242-245 | the unicode branch drops non-ASCII characters before testing the last character | `u'a/é'` is returned without a trailing `/` | test the path's own last character | not executed | Common.UnicodeTailMissesSeparator | FileOps.CheckFolderPath |
| resources/lib/services/msl/MSLMediaDrm.py:53-58 | success is `keySetId != None`, so the empty key set id that the logging reports as a failure counts as success | `ProvideKeyResponse` returning an empty key set id for non-empty data | success only for a non-empty key set id | not executed | MediaDrm.FailedKeyResponseCountsAsSuccess | MediaDrm.AcceptedIsStricter |
| resources/lib/api/shakti.py:85-87 | `episodes` calls `EpisodeList(tvshow_id, season_id, response)`, but the constructor takes `(videoid, path_response)`, so every miss raises `TypeError` after the request and nothing is cached | any `episodes(show, season)` call whose key is not cached | pass the season's VideoId and the response, as `SeasonList` is called | not executed | Shakti.EpisodesMissRaises | Shakti.IntendedEpisodesAreCached |
| resources/lib/services/playback/section_skipping.py:58-59 | under `unicode_literals` the notification formats the label's UTF-8 bytes into a unicode string, which decodes them as ASCII and raises for any other character, so auto-skip neither seeks nor drops the marker, and raises again on every tick inside the window | auto-skip enabled and a localized section label holding a non-ASCII character | format the label itself, then seek to the section's end | not executed | SectionSkipping.NonAsciiLabelStopsAutoSkip | SectionSkipping.IntendedAutoSkipSeeksToEnd |
