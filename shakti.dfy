/** The Shakti API functions of resources/lib/api/shakti.py: the cached
    producers with the keys their decorations declare, the session changes
    that wipe the cache, the "my list" edit with its cascading
    invalidation, and the bounded retry of episode metadata.

    Every remote call goes through `Remote.call` and is recorded in the
    session's `sent` log together with the cache state at that moment, so
    the order of cache operations and remote calls can be stated. */
module Shakti {
  import opened Wrappers
  import opened Json
  import Cache
  import ApiCache
  import DataTypes
  import VideoIds
  import KodiOps
  import MiscUtils

  /** What the decorated functions return and the cache holds */
  datatype Data =
    | RootLists(lolomo: DataTypes.LoLoMo)
    | ListId(id: string)
    | Videos(videoList: DataTypes.VideoList)
    | Seasons(seasonList: DataTypes.SeasonList)
    | Episodes(episodeList: DataTypes.EpisodeList)
    | Response(json: Json)

  /** The calls made through `common.make_call` */
  datatype Request =
    | ActivateProfile(profileId: string)
    | Logout
    | Login
    | RootListsRequest
    | PathRequest(operation: string, keys: seq<string>)
    | MetadataRequest(videoId: string)
    | MyListUpdate(operation: string, id: int)
    | Rating(ratedId: string, rating: int)

  /** A remote call and the cache state when it was made */
  datatype Sent = Sent(request: Request, store: Cache.Store<Data>)

  datatype Session = Session(store: Cache.Store<Data>, lastLocation: bool, sent: seq<Sent>)

  /** The Netflix session service: the answer to each request; the
      reference resolution `paths.resolve_refs(references, data)`, which
      resources/lib/api/paths.py does not define, applied to the root lists
      (`resolveLists`) and to the references a data type names
      (`resolveRefs`); and the order in which Python 2 lists the keys of a
      dict (`dictKeys`, its hash order). */
  datatype Remote = Remote(
    call: Request -> Result<Json>,
    resolveLists: Json -> Result<seq<(string, Json)>>,
    resolveRefs: (Json, Json) -> Result<seq<(string, Json)>>,
    dictKeys: map<string, Json> -> seq<string>)

  /** How a producer turns the answer into its output: the data type it
      constructs, the raw answer, or the answer's `'video'` part.
      `AsEpisodeList` is the call `EpisodeList(tvshow_id, season_id, response)`
      as written, `AsIntendedEpisodeList` the two-argument call the
      constructor takes. */
  datatype Shape =
    | AsLoLoMo
    | AsVideoList
    | AsSeasonList(videoid: DataTypes.Arg)
    | AsEpisodeList
    | AsIntendedEpisodeList(season: VideoIds.VideoId)
    | AsResponse
    | AsVideo

  const QueueList: string := "queue"
  const RootListsKey: string := "root_lists"

  // The decorations of the cached producers

  const RootListsDecoration := Cache.Decoration(Cache.CacheCommon, 0, "videoid", Some(RootListsKey), None, false)
  const ListTypeDecoration := Cache.Decorate(Cache.CacheCommon, 0, "list_type")
  const VideoListDecoration := Cache.Decorate(ApiCache.ApiCacheVideoList, 0, "list_id")
  const SeasonsDecoration := Cache.Decorate(ApiCache.ApiCacheSeasons, 0, "tvshow_id")
  const EpisodesDecoration := Cache.Decorate(ApiCache.ApiCacheEpisodes, 1, "season_id")
  const EpisodeDecoration := Cache.Decorate(ApiCache.ApiCacheEpisodes, 1, "episode_id")
  const MovieDecoration := Cache.Decorate(ApiCache.ApiCacheEpisodes, 0, "movie_id")

  function MetadataDecoration(c: Cache.Config): Cache.Decoration {
    Cache.Decoration(ApiCache.ApiCacheMetadata, 0, "video_id", None, Some(c.metadataTtl), true)
  }

  /** `LoLoMo(response)`: the id, then the resolved lists in an
      `OrderedDict`, so a list id resolved twice is kept once, at its first
      place and with its last value */
  function LoLoMoOf(response: Json, resolve: Json -> Result<seq<(string, Json)>>): (r: Result<DataTypes.LoLoMo>)
    ensures r.Ok? ==> DataTypes.LoLoMoId(response) == Ok(r.value.id) && resolve(response).Ok?
    ensures r.Ok? ==> DataTypes.Distinct(DataTypes.Keys(r.value.lists))
    ensures r.Ok? ==> DataTypes.Keys(r.value.lists) == DataTypes.Dedup(DataTypes.Keys(resolve(response).value))
    ensures r.Ok? ==> forall x :: x in r.value.lists ==> DataTypes.LastValue(resolve(response).value, x.0) == Some(x.1)
  {
    var id :- DataTypes.LoLoMoId(response);
    var lists :- resolve(response);
    Ok(DataTypes.LoLoMo(id, DataTypes.OrderedDict(lists)))
  }

  function Convert(remote: Remote, shape: Shape, answer: Json): Result<Data> {
    match shape
    case AsLoLoMo =>
      var lolomo :- LoLoMoOf(answer, remote.resolveLists);
      Ok(RootLists(lolomo))
    case AsVideoList =>
      var list :- DataTypes.VideoListOf(answer, remote.dictKeys, remote.resolveRefs);
      Ok(Videos(list))
    case AsSeasonList(videoid) =>
      var seasons :- DataTypes.SeasonListOf(videoid, answer, remote.resolveRefs);
      Ok(Seasons(seasons))
    case AsEpisodeList => Err(TypeError)
    case AsIntendedEpisodeList(season) =>
      var episodes :- DataTypes.EpisodeListOf(season, answer, remote.resolveRefs);
      Ok(Episodes(episodes))
    case AsResponse => Ok(Response(answer))
    case AsVideo =>
      var video :- Index(answer, "video");
      Ok(Response(video))
  }

  /** The body of a decorated producer: one remote call */
  function Produce(remote: Remote, req: Request, shape: Shape): Result<Data> {
    var answer :- remote.call(req);
    Convert(remote, shape, answer)
  }

  function WithStore(s: Session, store: Cache.Store<Data>): Session {
    Session(store, s.lastLocation, s.sent)
  }

  /** One call of a decorated producer: the cache call of `cache_output`,
      whose function sends `req`. */
  function CachedRequestSpec(s: Session, c: Cache.Config, remote: Remote, d: Cache.Decoration,
                             args: Cache.Args, req: Request, shape: Shape, now: int): (r: (Result<Data>, Session))
    ensures var call := Cache.CachedCallSpec(s.store, c, d, args, (_: Cache.Args) => Produce(remote, req, shape), now);
            && r.0 == call.result && r.1.store == call.store
            && r.1.lastLocation == s.lastLocation
            && |r.1.sent| == |s.sent| + call.calls && r.1.sent[..|s.sent|] == s.sent
            && (call.calls == 1 ==> r.1.sent[|s.sent|].request == req)
  {
    var l := Cache.LookupSpec(s.store, c, d, args, now);
    match l.0
    case Hit(v) => (Ok(v), WithStore(s, l.1))
    case Raised(e) => (Err(e), WithStore(s, l.1))
    case Miss(key) =>
      var out := Produce(remote, req, shape);
      var done := Cache.CompleteSpec(l.1, c, d, key, out, now);
      (done.0, Session(done.1, s.lastLocation, s.sent + [Sent(req, l.1)]))
  }

  function RootListsSpec(s: Session, c: Cache.Config, remote: Remote, now: int): (Result<Data>, Session) {
    CachedRequestSpec(s, c, remote, RootListsDecoration, Cache.Args([], map[]), RootListsRequest, AsLoLoMo, now)
  }

  /** The list id `list_id_for_type` derives from the root lists: the id of
      the first list whose context is `listType` */
  function ListIdFromRoots(roots: Data, listType: string): (r: Result<Data>)
    ensures !roots.RootLists? ==> r == Err(AttributeError)
    ensures roots.RootLists? && DataTypes.ListsByContext(roots.lolomo.lists, JStr(listType)).Ok? ==>
      var all := DataTypes.ListsByContext(roots.lolomo.lists, JStr(listType)).value;
      r == (if all == [] then Err(InvalidVideoListType) else Ok(ListId(all[0].0)))
    ensures r.Ok? ==> r.value.ListId?
  {
    match roots
    case RootLists(lolomo) =>
      if DataTypes.ListsByContext(lolomo.lists, JStr(listType)).Ok? then
        DataTypes.FirstIsHeadOfFilter(lolomo.lists, JStr(listType));
        FromFirst(DataTypes.FirstByContext(lolomo.lists, JStr(listType)))
      else FromFirst(DataTypes.FirstByContext(lolomo.lists, JStr(listType)))
    case _ => Err(AttributeError)
  }

  /** A list id that the resolver yields twice keeps the context of its
      last occurrence: a stale `queue` context is not matched. */
  lemma RepeatedListIdKeepsLastContext()
    ensures var queue := JObj(map["context" := JStr(QueueList)]);
            var other := JObj(map["context" := JStr("x")]);
            ListIdFromRoots(RootLists(DataTypes.LoLoMo(JStr("l"), DataTypes.OrderedDict([("x", queue), ("x", other)]))),
                            QueueList)
            == Err(InvalidVideoListType)
  {
    var queue := JObj(map["context" := JStr(QueueList)]);
    var other := JObj(map["context" := JStr("x")]);
    DataTypes.RepeatedKeyKeepsLastValue(queue, other);
    var lists := [("x", other)];
    assert lists[1..] == [];
    assert DataTypes.FirstByContext(lists, JStr(QueueList)) == Ok(None);
  }

  /** `next(...)[0]`, with `StopIteration` turned into `InvalidVideoListTypeError` */
  function FromFirst(first: Result<Option<(string, Json)>>): (r: Result<Data>)
    ensures first.Ok? && first.value.Some? ==> r == Ok(ListId(first.value.value.0))
    ensures first == Ok(None) ==> r == Err(InvalidVideoListType)
    ensures first.Err? ==> r == Err(first.exc)
  {
    match first
    case Err(e) => Err(e)
    case Ok(None) => Err(InvalidVideoListType)
    case Ok(Some(item)) => Ok(ListId(item.0))
  }

  /** `list_id_for_type`: cached under the list type; on a miss its body
      calls the cached `root_lists` first. */
  function ListIdForTypeSpec(s: Session, c: Cache.Config, remote: Remote, listType: string, now: int)
    : (r: (Result<Data>, Session))
    ensures |s.sent| <= |r.1.sent| <= |s.sent| + 1 && r.1.sent[..|s.sent|] == s.sent
    ensures r.1.lastLocation == s.lastLocation
    ensures Cache.CacheCommon in c.bucketNames && listType in Cache.View(s.store, c, Cache.CacheCommon) &&
            !Cache.Expired(Cache.View(s.store, c, Cache.CacheCommon)[listType], now) ==>
      r.0 == Ok(Cache.View(s.store, c, Cache.CacheCommon)[listType].content) && r.1.sent == s.sent
    ensures Cache.CacheCommon in c.bucketNames && listType !in Cache.View(s.store, c, Cache.CacheCommon) &&
            !Cache.NotFresh(s.store, c, Cache.CacheCommon, listType, now) ==>
      r.0 == Ok(Cache.DiskEntry(s.store, Cache.CacheCommon, listType).value.content) && r.1.sent == s.sent
    ensures Cache.CacheCommon in c.bucketNames && Cache.NotFresh(s.store, c, Cache.CacheCommon, listType, now) ==>
      var roots := RootListsSpec(WithStore(s, Cache.LookupSpec(s.store, c, ListTypeDecoration, Cache.Args([listType], map[]), now).1),
                                 c, remote, now).0;
      && (roots.Err? ==> r.0 == Err(roots.exc))
      && (roots.Ok? ==> r.0 == ListIdFromRoots(roots.value, listType))
  {
    Cache.LookupByFreshness(s.store, c, ListTypeDecoration, Cache.Args([listType], map[]), now);
    var l := Cache.LookupSpec(s.store, c, ListTypeDecoration, Cache.Args([listType], map[]), now);
    match l.0
    case Hit(v) => (Ok(v), WithStore(s, l.1))
    case Raised(e) => (Err(e), WithStore(s, l.1))
    case Miss(key) =>
      var roots := RootListsSpec(WithStore(s, l.1), c, remote, now);
      var out := if roots.0.Err? then Err(roots.0.exc) else ListIdFromRoots(roots.0.value, listType);
      var done := Cache.CompleteSpec(roots.1.store, c, ListTypeDecoration, key, out, now);
      (done.0, WithStore(roots.1, done.1))
  }

  /** The store and log after one remote call made outside the cache */
  function Send(s: Session, req: Request): Session {
    Session(s.store, s.lastLocation, s.sent + [Sent(req, s.store)])
  }

  /** `activate_profile`, `logout` and `login`: wipe, then call */
  function SessionChangeSpec(s: Session, c: Cache.Config, remote: Remote, req: Request): (r: (Result<()>, Session))
    ensures r.1.sent == s.sent + [Sent(req, r.1.store)]
    ensures forall b :: b in c.bucketNames ==> Cache.View(r.1.store, c, b) == map[]
    ensures r.1.store.disk == s.store.disk && r.1.lastLocation == s.lastLocation
    ensures r.0.Ok? <==> remote.call(req).Ok?
  {
    var wiped := WithStore(s, Cache.InvalidateSpec(s.store, c));
    var answer := remote.call(req);
    (if answer.Err? then Err(answer.exc) else Ok(()), Send(wiped, req))
  }

  /** `invalidate_entry(CACHE_VIDEO_LIST, list_id)`. A cached value that is
      not a list id can never be a key of the bucket: the bucket is only
      loaded. */
  function InvalidateListEntry(store: Cache.Store<Data>, c: Cache.Config, listId: Data): (r: (Result<()>, Cache.Store<Data>)) {
    if listId.ListId? then Cache.InvalidateEntrySpec(store, c, ApiCache.ApiCacheVideoList, listId.id)
    else if ApiCache.ApiCacheVideoList !in c.bucketNames then (Err(UnknownCacheBucket), store)
    else (Ok(()), Cache.Loaded(store, c, ApiCache.ApiCacheVideoList))
  }

  /** The selective branch of `_update_my_list`: forget the last location,
      then the queue list's video list, the queue list id and the root lists */
  function SelectiveInvalidationSpec(s: Session, c: Cache.Config, remote: Remote, now: int): (r: (Result<()>, Session)) {
    var forgot := Session(s.store, false, s.sent);
    var queue := ListIdForTypeSpec(forgot, c, remote, QueueList, now);
    if queue.0.Err? then (Err(queue.0.exc), queue.1)
    else
      var list := InvalidateListEntry(queue.1.store, c, queue.0.value);
      if list.0.Err? then (list.0, WithStore(queue.1, list.1))
      else
        var q := Cache.InvalidateEntrySpec(list.1, c, Cache.CacheCommon, QueueList);
        if q.0.Err? then (q.0, WithStore(queue.1, q.1))
        else
          var roots := Cache.InvalidateEntrySpec(q.1, c, Cache.CacheCommon, RootListsKey);
          (roots.0, WithStore(queue.1, roots.1))
  }

  /** `_update_my_list`: `int(video_id)` before the post; after a
      successful post, wipe everything or invalidate selectively. */
  function UpdateMyListSpec(s: Session, c: Cache.Config, remote: Remote, wipeAll: bool,
                            videoId: string, operation: string, now: int): (r: (Result<()>, Session))
    ensures MiscUtils.ParseInt(videoId).Err? ==> r == (Err(ValueError), s)
    ensures MiscUtils.ParseInt(videoId).Ok? ==>
      |r.1.sent| > |s.sent| && r.1.sent[|s.sent|] == Sent(MyListUpdate(operation, MiscUtils.ParseInt(videoId).value), s.store)
    ensures r.0.Ok? && wipeAll ==> forall b :: b in c.bucketNames ==> Cache.View(r.1.store, c, b) == map[]
    ensures r.0.Ok? && !wipeAll && MiscUtils.ParseInt(videoId).Ok? ==>
      var posted := Send(s, MyListUpdate(operation, MiscUtils.ParseInt(videoId).value));
      SelectiveOutcome(s.store, r.1, c, ListIdForTypeSpec(Session(s.store, false, posted.sent), c, remote, QueueList, now).0)
  {
    var id := MiscUtils.ParseInt(videoId);
    if id.Err? then (Err(id.exc), s)
    else
      var req := MyListUpdate(operation, id.value);
      var posted := Send(s, req);
      var answer := remote.call(req);
      if answer.Err? then (Err(answer.exc), posted)
      else if wipeAll then (Ok(()), WithStore(posted, Cache.InvalidateSpec(s.store, c)))
      else
        var r := SelectiveInvalidationSpec(posted, c, remote, now);
        PrefixKept(posted, c, remote, now);
        assert r.1.sent[|s.sent|] == r.1.sent[..|posted.sent|][|s.sent|] == posted.sent[|s.sent|];
        if r.0.Ok? then SelectiveEditForgetsQueueKeys(posted, c, remote, now); r else r
  }

  lemma PrefixKept(s: Session, c: Cache.Config, remote: Remote, now: int)
    ensures var r := SelectiveInvalidationSpec(s, c, remote, now).1;
            |r.sent| >= |s.sent| && r.sent[..|s.sent|] == s.sent
  {
    var forgot := Session(s.store, false, s.sent);
    var queue := ListIdForTypeSpec(forgot, c, remote, QueueList, now);
    assert SelectiveInvalidationSpec(s, c, remote, now).1.sent == queue.1.sent;
  }

  /** The video-list keys the selective branch removes: the queue list's
      id, when the list-type lookup gave one */
  function QueueIds(queue: Result<Data>): set<string> {
    if queue.Ok? && queue.value.ListId? then {queue.value.id} else {}
  }

  /** The session after a selective my-list edit, against the store before
      it and the answer of the queue list-type lookup: the last location is
      forgotten, `queue` and `root_lists` are gone from the common bucket,
      the queue list's id is gone from the video-list bucket, and every
      other entry of every bucket reads as before. */
  ghost predicate SelectiveOutcome(before: Cache.Store<Data>, after: Session, c: Cache.Config, queue: Result<Data>) {
    && !after.lastLocation
    && (forall b | b != Cache.CacheCommon && b != ApiCache.ApiCacheVideoList ::
          Cache.View(after.store, c, b) == Cache.View(before, c, b))
    && Cache.View(after.store, c, Cache.CacheCommon) == Cache.View(before, c, Cache.CacheCommon) - {QueueList, RootListsKey}
    && Cache.View(after.store, c, ApiCache.ApiCacheVideoList)
       == Cache.View(before, c, ApiCache.ApiCacheVideoList) - QueueIds(queue)
  }

  /** A cached request can change only its own key in its own bucket. */
  lemma CachedRequestTouches(s: Session, c: Cache.Config, remote: Remote, d: Cache.Decoration,
                             args: Cache.Args, req: Request, shape: Shape, now: int)
    requires Cache.GetIdentifier(d, args).Some?
    ensures Cache.OnlyTouches(s.store, CachedRequestSpec(s, c, remote, d, args, req, shape, now).1.store,
                              c, d.bucket, {Cache.GetIdentifier(d, args).value})
  {
    var id := Cache.GetIdentifier(d, args).value;
    var l := Cache.LookupSpec(s.store, c, d, args, now);
    Cache.LookupTouches(s.store, c, d, args, now);
    if l.0.Miss? {
      var out := Produce(remote, req, shape);
      Cache.CompleteTouches(l.1, c, d, id, out, now);
      Cache.TouchesCompose(s.store, l.1, Cache.CompleteSpec(l.1, c, d, Some(id), out, now).1, c, d.bucket, {id}, {id});
      assert {id} + {id} == {id};
    }
  }

  /** `list_id_for_type` can change only its own key and `root_lists` in
      the common bucket. */
  lemma ListIdForTypeTouches(s: Session, c: Cache.Config, remote: Remote, listType: string, now: int)
    ensures Cache.OnlyTouches(s.store, ListIdForTypeSpec(s, c, remote, listType, now).1.store,
                              c, Cache.CacheCommon, {listType, RootListsKey})
  {
    var args := Cache.Args([listType], map[]);
    var l := Cache.LookupSpec(s.store, c, ListTypeDecoration, args, now);
    Cache.LookupTouches(s.store, c, ListTypeDecoration, args, now);
    if l.0.Miss? {
      var roots := RootListsSpec(WithStore(s, l.1), c, remote, now);
      CachedRequestTouches(WithStore(s, l.1), c, remote, RootListsDecoration, Cache.Args([], map[]),
                           RootListsRequest, AsLoLoMo, now);
      var out := if roots.0.Err? then Err(roots.0.exc) else ListIdFromRoots(roots.0.value, listType);
      Cache.CompleteTouches(roots.1.store, c, ListTypeDecoration, listType, out, now);
      Cache.TouchesCompose(s.store, l.1, roots.1.store, c, Cache.CacheCommon, {listType}, {RootListsKey});
      Cache.TouchesCompose(s.store, roots.1.store, Cache.CompleteSpec(roots.1.store, c, ListTypeDecoration, Some(listType), out, now).1,
                           c, Cache.CacheCommon, {listType} + {RootListsKey}, {listType});
      assert {listType} + {RootListsKey} + {listType} == {listType, RootListsKey};
    } else {
      Cache.TouchesCompose(s.store, l.1, l.1, c, Cache.CacheCommon, {listType}, {RootListsKey});
      assert {listType} + {RootListsKey} == {listType, RootListsKey};
    }
  }

  /** After a selective my-list edit that succeeds, exactly the keys that
      the decorations of `root_lists`, `list_id_for_type('queue')` and
      `video_list(queue id)` use are gone from memory, and nothing else in
      the cache reads differently. */
  lemma SelectiveEditForgetsQueueKeys(s: Session, c: Cache.Config, remote: Remote, now: int)
    requires SelectiveInvalidationSpec(s, c, remote, now).0.Ok?
    ensures SelectiveOutcome(s.store, SelectiveInvalidationSpec(s, c, remote, now).1, c,
                             ListIdForTypeSpec(Session(s.store, false, s.sent), c, remote, QueueList, now).0)
  {
    var forgot := Session(s.store, false, s.sent);
    var queue := ListIdForTypeSpec(forgot, c, remote, QueueList, now);
    var list := InvalidateListEntry(queue.1.store, c, queue.0.value);
    ListIdForTypeTouches(forgot, c, remote, QueueList, now);
    ListEntryGone(queue.1.store, c, queue.0.value);
    CommonKeysGone(list.1, c);
    var common0 := Cache.View(s.store, c, Cache.CacheCommon);
    var common1 := Cache.View(queue.1.store, c, Cache.CacheCommon);
    assert common1 - {QueueList, RootListsKey} == common0 - {QueueList, RootListsKey};
  }

  /** The video-list step of the selective branch removes the queue
      list's id and changes no other bucket. */
  lemma ListEntryGone(st: Cache.Store<Data>, c: Cache.Config, listId: Data)
    requires InvalidateListEntry(st, c, listId).0.Ok?
    ensures var r := InvalidateListEntry(st, c, listId).1;
            && Cache.View(r, c, ApiCache.ApiCacheVideoList) == Cache.View(st, c, ApiCache.ApiCacheVideoList) - QueueIds(Ok(listId))
            && forall x | x != ApiCache.ApiCacheVideoList :: Cache.View(r, c, x) == Cache.View(st, c, x)
  {
    if listId.ListId? {
      Cache.InvalidateEntryTouches(st, c, ApiCache.ApiCacheVideoList, listId.id);
    } else {
      Cache.LoadedKeepsViews(st, c, ApiCache.ApiCacheVideoList);
    }
  }

  /** The two common-bucket steps of the selective branch remove `queue`
      and `root_lists` and change no other bucket. */
  lemma CommonKeysGone(st: Cache.Store<Data>, c: Cache.Config)
    requires Cache.CacheCommon in c.bucketNames
    ensures var q := Cache.InvalidateEntrySpec(st, c, Cache.CacheCommon, QueueList).1;
            var r := Cache.InvalidateEntrySpec(q, c, Cache.CacheCommon, RootListsKey).1;
            && Cache.View(r, c, Cache.CacheCommon) == Cache.View(st, c, Cache.CacheCommon) - {QueueList, RootListsKey}
            && forall x | x != Cache.CacheCommon :: Cache.View(r, c, x) == Cache.View(st, c, x)
  {
    var q := Cache.InvalidateEntrySpec(st, c, Cache.CacheCommon, QueueList).1;
    Cache.InvalidateEntryTouches(st, c, Cache.CacheCommon, QueueList);
    Cache.InvalidateEntryTouches(q, c, Cache.CacheCommon, RootListsKey);
    var common := Cache.View(st, c, Cache.CacheCommon);
    assert (common - {QueueList}) - {RootListsKey} == common - {QueueList, RootListsKey};
  }

  /** The keys the selective branch invalidates are the ones the decorations
      produce for the calls it wants to forget. */
  lemma SelectiveKeysMatchDecorations(listId: string)
    ensures Cache.GetIdentifier(RootListsDecoration, Cache.Args([], map[])) == Some(RootListsKey)
    ensures Cache.GetIdentifier(ListTypeDecoration, Cache.Args([QueueList], map[])) == Some(QueueList)
    ensures Cache.GetIdentifier(VideoListDecoration, Cache.Args([listId], map[])) == Some(listId)
    ensures ListTypeDecoration.bucket == RootListsDecoration.bucket == Cache.CacheCommon
    ensures VideoListDecoration.bucket == ApiCache.ApiCacheVideoList
  {
  }

  function MetadataSpec(s: Session, c: Cache.Config, remote: Remote, videoId: string, now: int): (Result<Data>, Session) {
    CachedRequestSpec(s, c, remote, MetadataDecoration(c), Cache.Args([videoId], map[]),
                      MetadataRequest(videoId), AsVideo, now)
  }

  /** The `try` body of `episode_metadata`:
      `find_episode(episodeid, metadata(tvshowid)['seasons'])` */
  function FirstAttempt(metadata: Result<Data>, episodeId: string): Result<Json> {
    var data :- metadata;
    if !data.Response? then Err(TypeError)
    else
      var seasons :- Index(data.json, "seasons");
      var items :- KodiOps.Items(seasons);
      KodiOps.FindEpisode(episodeId, items, true)
  }

  /** The fallback chain as written:
      `.get('seasons', {}).get(seasonid, {}).get('episodes', {}).get(episodeid, {})` */
  function Fallback(metadata: Result<Data>, seasonId: string, episodeId: string): Result<Json> {
    var data :- metadata;
    if !data.Response? then Err(AttributeError)
    else
      var seasons :- Get(data.json, "seasons", JObj(map[]));
      var season :- Get(seasons, seasonId, JObj(map[]));
      var episodes :- Get(season, "episodes", JObj(map[]));
      Get(episodes, episodeId, JObj(map[]))
  }

  /** The metadata holds its seasons in a list (that is what `find_episode`
      iterates), and a list has no `get`: whenever the refetched metadata
      has seasons, the fallback raises instead of giving `{}`. */
  lemma FallbackRejectsSeasonList(seasons: seq<Json>, seasonId: string, episodeId: string)
    ensures Fallback(Ok(Response(JObj(map["seasons" := JList(seasons)]))), seasonId, episodeId) == Err(AttributeError)
  {
  }

  /** The fallback the comment describes: the episode if the refetched
      metadata has it, else `{}` */
  function IntendedFallback(metadata: Result<Data>, episodeId: string): Result<Json> {
    var data :- metadata;
    if !data.Response? then Err(AttributeError)
    else
      var seasons :- Get(data.json, "seasons", JObj(map[]));
      var items :- KodiOps.Items(seasons);
      KodiOps.FindEpisode(episodeId, items, false)
  }

  /** The intended fallback never raises `KeyError` for a missing episode:
      on the same input it gives `{}`. */
  lemma IntendedFallbackGivesEmpty(seasons: seq<Json>, episodeId: string)
    requires forall k | 0 <= k < |seasons| :: KodiOps.EpisodesOf(seasons[k]).Ok? &&
               KodiOps.FindInSeason(episodeId, KodiOps.EpisodesOf(seasons[k]).value) == Ok(None)
    ensures IntendedFallback(Ok(Response(JObj(map["seasons" := JList(seasons)]))), episodeId) == Ok(JObj(map[]))
  {
    NoSeasonHasIt(episodeId, seasons);
  }

  lemma {:induction false} NoSeasonHasIt(episodeId: string, seasons: seq<Json>)
    requires forall k | 0 <= k < |seasons| :: KodiOps.EpisodesOf(seasons[k]).Ok? &&
               KodiOps.FindInSeason(episodeId, KodiOps.EpisodesOf(seasons[k]).value) == Ok(None)
    ensures KodiOps.FindEpisode(episodeId, seasons, false) == Ok(JObj(map[]))
    decreases |seasons|
  {
    if |seasons| > 0 {
      assert KodiOps.EpisodesOf(seasons[0]).Ok?;
      NoSeasonHasIt(episodeId, seasons[1..]);
    }
  }

  /** What the retry of `episode_metadata` does to the session left by the
      first metadata call: it invalidates the show's metadata entry, so that
      the one metadata request it logs is made with the entry in neither
      tier, and it changes no other entry; an answer that converts is
      cached under the show's id. */
  ghost predicate Retried(first: Session, after: Session, c: Cache.Config, remote: Remote, tvshowId: string) {
    var inv := Cache.InvalidateEntrySpec(first.store, c, ApiCache.ApiCacheMetadata, tvshowId).1;
    var refetched := Produce(remote, MetadataRequest(tvshowId), AsVideo);
    && tvshowId !in Cache.View(inv, c, ApiCache.ApiCacheMetadata)
    && Cache.DiskEntry(inv, ApiCache.ApiCacheMetadata, tvshowId).None?
    && after.sent == first.sent + [Sent(MetadataRequest(tvshowId), inv)]
    && after.lastLocation == first.lastLocation
    && Cache.OnlyTouches(first.store, after.store, c, ApiCache.ApiCacheMetadata, {tvshowId})
    && (refetched.Ok? ==>
          tvshowId in Cache.View(after.store, c, ApiCache.ApiCacheMetadata) &&
          Cache.View(after.store, c, ApiCache.ApiCacheMetadata)[tvshowId].content == refetched.value)
  }

  /** After a metadata call, the show's entry is in memory or has no file. */
  lemma MetadataLeavesEntryOrNothing(s: Session, c: Cache.Config, remote: Remote, videoId: string, now: int)
    requires ApiCache.ApiCacheMetadata in c.bucketNames
    ensures var m := MetadataSpec(s, c, remote, videoId, now).1.store;
            videoId in Cache.View(m, c, ApiCache.ApiCacheMetadata) || Cache.DiskEntry(m, ApiCache.ApiCacheMetadata, videoId).None?
  {
    Cache.GetLeavesEntryOrNothing(s.store, c, ApiCache.ApiCacheMetadata, videoId, now);
  }

  /** The retry: invalidating an entry that is in memory or has no file
      makes the next metadata call a miss, so it sends exactly one request
      and answers with the converted reply. */
  lemma MetadataRetry(s: Session, c: Cache.Config, remote: Remote, tvshowId: string, now: int)
    requires ApiCache.ApiCacheMetadata in c.bucketNames
    requires tvshowId in Cache.View(s.store, c, ApiCache.ApiCacheMetadata) ||
             Cache.DiskEntry(s.store, ApiCache.ApiCacheMetadata, tvshowId).None?
    ensures var inv := Cache.InvalidateEntrySpec(s.store, c, ApiCache.ApiCacheMetadata, tvshowId).1;
            var m2 := MetadataSpec(WithStore(s, inv), c, remote, tvshowId, now);
            m2.0 == Produce(remote, MetadataRequest(tvshowId), AsVideo) && Retried(s, m2.1, c, remote, tvshowId)
  {
    var b := ApiCache.ApiCacheMetadata;
    var inv := Cache.InvalidateEntrySpec(s.store, c, b, tvshowId).1;
    Cache.InvalidatedEntryIsGone(s.store, c, b, tvshowId);
    Cache.AbsentEntryMisses(inv, c, b, tvshowId, now);
    Cache.InvalidateEntryTouches(s.store, c, b, tvshowId);
    var args := Cache.Args([tvshowId], map[]);
    CachedRequestTouches(WithStore(s, inv), c, remote, MetadataDecoration(c), args, MetadataRequest(tvshowId), AsVideo, now);
    var m2 := MetadataSpec(WithStore(s, inv), c, remote, tvshowId, now);
    Cache.TouchesCompose(s.store, inv, m2.1.store, c, b, {tvshowId}, {tvshowId});
    assert {tvshowId} + {tvshowId} == {tvshowId};
  }

  /** `episode_metadata` as written: on `KeyError`, invalidate the show's
      metadata entry, fetch once more and use the fallback chain on the
      fresh answer; otherwise the first attempt stands and nothing is
      invalidated. */
  function EpisodeMetadataSpec(s: Session, c: Cache.Config, remote: Remote,
                               tvshowId: string, seasonId: string, episodeId: string, now: int)
    : (r: (Result<Json>, Session))
    ensures var m := MetadataSpec(s, c, remote, tvshowId, now);
            FirstAttempt(m.0, episodeId) != Err(KeyError) ==> r == (FirstAttempt(m.0, episodeId), m.1)
    ensures var m := MetadataSpec(s, c, remote, tvshowId, now);
            FirstAttempt(m.0, episodeId) == Err(KeyError) ==>
              && r.0 == Fallback(Produce(remote, MetadataRequest(tvshowId), AsVideo), seasonId, episodeId)
              && Retried(m.1, r.1, c, remote, tvshowId)
  {
    var m := MetadataSpec(s, c, remote, tvshowId, now);
    var first := FirstAttempt(m.0, episodeId);
    if first != Err(KeyError) then (first, m.1)
    else
      MetadataReachedBucket(s, c, remote, tvshowId, episodeId, now);
      MetadataLeavesEntryOrNothing(s, c, remote, tvshowId, now);
      MetadataRetry(m.1, c, remote, tvshowId, now);
      var inv := Cache.InvalidateEntrySpec(m.1.store, c, ApiCache.ApiCacheMetadata, tvshowId);
      var m2 := MetadataSpec(WithStore(m.1, inv.1), c, remote, tvshowId, now);
      (Fallback(m2.0, seasonId, episodeId), m2.1)
  }

  /** `episode_metadata` with the intended fallback: the same retry, with
      `{}` instead of `AttributeError` when the fresh answer lacks the
      episode. */
  function IntendedEpisodeMetadataSpec(s: Session, c: Cache.Config, remote: Remote,
                                       tvshowId: string, seasonId: string, episodeId: string, now: int)
    : (r: (Result<Json>, Session))
    ensures var m := MetadataSpec(s, c, remote, tvshowId, now);
            FirstAttempt(m.0, episodeId) != Err(KeyError) ==> r == (FirstAttempt(m.0, episodeId), m.1)
    ensures var m := MetadataSpec(s, c, remote, tvshowId, now);
            FirstAttempt(m.0, episodeId) == Err(KeyError) ==>
              && r.0 == IntendedFallback(Produce(remote, MetadataRequest(tvshowId), AsVideo), episodeId)
              && Retried(m.1, r.1, c, remote, tvshowId)
  {
    var m := MetadataSpec(s, c, remote, tvshowId, now);
    var first := FirstAttempt(m.0, episodeId);
    if first != Err(KeyError) then (first, m.1)
    else
      MetadataReachedBucket(s, c, remote, tvshowId, episodeId, now);
      MetadataLeavesEntryOrNothing(s, c, remote, tvshowId, now);
      MetadataRetry(m.1, c, remote, tvshowId, now);
      var inv := Cache.InvalidateEntrySpec(m.1.store, c, ApiCache.ApiCacheMetadata, tvshowId);
      var m2 := MetadataSpec(WithStore(m.1, inv.1), c, remote, tvshowId, now);
      (IntendedFallback(m2.0, episodeId), m2.1)
  }

  /** A first attempt that raises `KeyError` got past the bucket check. */
  lemma MetadataReachedBucket(s: Session, c: Cache.Config, remote: Remote, tvshowId: string, episodeId: string, now: int)
    requires FirstAttempt(MetadataSpec(s, c, remote, tvshowId, now).0, episodeId) == Err(KeyError)
    ensures ApiCache.ApiCacheMetadata in c.bucketNames
  {
  }

  /** Either way, metadata is requested at most twice, and only for the show. */
  lemma EpisodeMetadataSendsAtMostTwice(s: Session, c: Cache.Config, remote: Remote,
                                        tvshowId: string, seasonId: string, episodeId: string, now: int)
    ensures var r := EpisodeMetadataSpec(s, c, remote, tvshowId, seasonId, episodeId, now).1;
            && |s.sent| <= |r.sent| <= |s.sent| + 2 && r.sent[..|s.sent|] == s.sent
            && forall k | |s.sent| <= k < |r.sent| :: r.sent[k].request == MetadataRequest(tvshowId)
  {
    var m := MetadataSpec(s, c, remote, tvshowId, now);
    MetadataSends(s, c, remote, tvshowId, now);
    var r := EpisodeMetadataSpec(s, c, remote, tvshowId, seasonId, episodeId, now).1;
    if FirstAttempt(m.0, episodeId) == Err(KeyError) {
      assert r.sent == m.1.sent + [Sent(MetadataRequest(tvshowId), Cache.InvalidateEntrySpec(m.1.store, c, ApiCache.ApiCacheMetadata, tvshowId).1)];
      SentTwice(s.sent, m.1.sent, r.sent, MetadataRequest(tvshowId));
      assert r.sent[..|s.sent|] == m.1.sent[..|s.sent|];
    }
  }

  /** A metadata call sends at most the one metadata request. */
  lemma MetadataSends(s: Session, c: Cache.Config, remote: Remote, videoId: string, now: int)
    ensures var m := MetadataSpec(s, c, remote, videoId, now);
            && |s.sent| <= |m.1.sent| <= |s.sent| + 1 && m.1.sent[..|s.sent|] == s.sent
            && forall k | |s.sent| <= k < |m.1.sent| :: m.1.sent[k].request == MetadataRequest(videoId)
  {
  }

  /** Two calls that each send only `req` together send only `req`. */
  lemma SentTwice(before: seq<Sent>, middle: seq<Sent>, after: seq<Sent>, req: Request)
    requires |before| <= |middle| <= |after| && middle[..|before|] == before && after[..|middle|] == middle
    requires forall k | |before| <= k < |middle| :: middle[k].request == req
    requires forall k | |middle| <= k < |after| :: after[k].request == req
    ensures forall k | |before| <= k < |after| :: after[k].request == req
  {
    forall k | |before| <= k < |middle|
      ensures after[k].request == req
    {
      assert after[k] == after[..|middle|][k];
    }
  }

  /** `build_paths`: one path per partial path, the base path followed by
      the partial path, in order */
  function BuildPaths(base: seq<Json>, partials: seq<seq<Json>>): (paths: seq<seq<Json>>)
    ensures |paths| == |partials|
    ensures forall k | 0 <= k < |paths| :: paths[k] == base + partials[k]
  {
    if partials == [] then [] else [base + partials[0]] + BuildPaths(base, partials[1..])
  }

  /** `rate`: Kodi's 0..10 rating clamped and halved (integer division) */
  function RateValue(rating: int): (v: int)
    ensures 0 <= v <= 5
    ensures 0 <= rating <= 10 ==> v * 2 <= rating <= v * 2 + 1
    ensures rating <= 0 ==> v == 0
    ensures rating >= 10 ==> v == 5
  {
    var clamped := if rating < 0 then 0 else if rating > 10 then 10 else rating;
    clamped / 2
  }

  /** The cache key of a `seasons` argument: a string is its own key; a
      VideoId is hashed and named on disk through its `__str__` */
  function ArgKey(a: DataTypes.Arg): (r: Result<string>)
    ensures a.StringArg? ==> r == Ok(a.s)
    ensures a.VideoIdArg? ==> r == VideoIds.Str(a.v)
  {
    match a
    case StringArg(id) => Ok(id)
    case VideoIdArg(v) => VideoIds.Str(v)
  }

  /** `seasons(tvshow_id)`: the cached path request, whose answer becomes a
      `SeasonList` */
  function SeasonsSpec(s: Session, c: Cache.Config, remote: Remote, tvshowId: DataTypes.Arg, now: int)
    : (r: (Result<Data>, Session))
    requires ArgKey(tvshowId).Ok?
    ensures var key := ArgKey(tvshowId).value;
            ApiCache.ApiCacheSeasons in c.bucketNames && Cache.NotFresh(s.store, c, ApiCache.ApiCacheSeasons, key, now) ==>
      && |r.1.sent| == |s.sent| + 1
      && var answer := remote.call(PathRequest("seasons", [key]));
         && ApiCache.ApiCacheSeasons in r.1.store.buckets
         && (answer.Err? ==> r.0 == Err(answer.exc) && key !in r.1.store.buckets[ApiCache.ApiCacheSeasons])
         && (answer.Ok? ==>
               var list := DataTypes.SeasonListOf(tvshowId, answer.value, remote.resolveRefs);
               && (list.Err? ==> r.0 == Err(list.exc) && key !in r.1.store.buckets[ApiCache.ApiCacheSeasons])
               && (list.Ok? ==>
                     && r.0 == Ok(Seasons(list.value))
                     && key in r.1.store.buckets[ApiCache.ApiCacheSeasons]
                     && r.1.store.buckets[ApiCache.ApiCacheSeasons][key].content == Seasons(list.value)))
  {
    var key := ArgKey(tvshowId).value;
    CachedRequestSpec(s, c, remote, SeasonsDecoration, Cache.Args([key], map[]), PathRequest("seasons", [key]),
                      AsSeasonList(tvshowId), now)
  }

  /** A string passed to `seasons` reaches `SeasonList`, whose `videoid.tvshowid` raises `AttributeError` once
      the response holds `videos`: nothing is cached. */
  lemma StringShowIdRaises(s: Session, c: Cache.Config, remote: Remote, tvshowId: string, now: int)
    requires ApiCache.ApiCacheSeasons in c.bucketNames && Cache.NotFresh(s.store, c, ApiCache.ApiCacheSeasons, tvshowId, now)
    requires remote.call(PathRequest("seasons", [tvshowId])).Ok?
    requires Index(remote.call(PathRequest("seasons", [tvshowId])).value, "videos").Ok?
    ensures var r := SeasonsSpec(s, c, remote, DataTypes.StringArg(tvshowId), now);
            r.0 == Err(AttributeError) && tvshowId !in r.1.store.buckets[ApiCache.ApiCacheSeasons]
  {
  }

  /** `episodes(tvshow_id, season_id)` calls `EpisodeList` with three
      arguments where its constructor takes two: on a miss the request is
      sent, `TypeError` is raised and nothing is cached. */
  lemma EpisodesMissRaises(s: Session, c: Cache.Config, remote: Remote, show: string, season: string, now: int)
    requires ApiCache.ApiCacheEpisodes in c.bucketNames
    requires Cache.NotFresh(s.store, c, ApiCache.ApiCacheEpisodes, season, now)
    ensures var r := CachedRequestSpec(s, c, remote, EpisodesDecoration, Cache.Args([show, season], map[]),
                                       PathRequest("episodes", [show, season]), AsEpisodeList, now);
            var answer := remote.call(PathRequest("episodes", [show, season]));
            && r.0 == Err(if answer.Err? then answer.exc else TypeError)
            && r.1.sent == s.sent + [r.1.sent[|s.sent|]] && r.1.sent[|s.sent|].request == PathRequest("episodes", [show, season])
            && season !in r.1.store.buckets[ApiCache.ApiCacheEpisodes]
            && r.1.store.disk.Keys <= s.store.disk.Keys
  {
    var r := CachedRequestSpec(s, c, remote, EpisodesDecoration, Cache.Args([show, season], map[]),
                               PathRequest("episodes", [show, season]), AsEpisodeList, now);
    assert r.1.sent == r.1.sent[..|s.sent|] + [r.1.sent[|s.sent|]];
  }

  /** The season id `episodes` evidently means to hand `EpisodeList` */
  function SeasonVideoId(show: string, season: string): VideoIds.VideoId {
    VideoIds.VideoId(None, VideoIds.IdValues(None, None, Some(season), Some(show)))
  }

  /** `episodes` as intended, with `EpisodeList(videoid, response)`: a miss
      whose answer holds the season caches its episode list, and every call
      keyed on the same season id until the end of life is answered from
      it without a request. */
  lemma IntendedEpisodesAreCached(s: Session, c: Cache.Config, remote: Remote, show: string, season: string,
                                  now: int, otherShow: string, later: int)
    requires ApiCache.ApiCacheEpisodes in c.bucketNames
    requires Cache.NotFresh(s.store, c, ApiCache.ApiCacheEpisodes, season, now)
    requires remote.call(PathRequest("episodes", [show, season])).Ok?
    requires DataTypes.EpisodeListOf(SeasonVideoId(show, season), remote.call(PathRequest("episodes", [show, season])).value,
                                     remote.resolveRefs).Ok?
    requires later <= now + c.ttl
    ensures var first := CachedRequestSpec(s, c, remote, EpisodesDecoration, Cache.Args([show, season], map[]),
                                           PathRequest("episodes", [show, season]),
                                           AsIntendedEpisodeList(SeasonVideoId(show, season)), now);
            var again := CachedRequestSpec(first.1, c, remote, EpisodesDecoration, Cache.Args([otherShow, season], map[]),
                                           PathRequest("episodes", [otherShow, season]),
                                           AsIntendedEpisodeList(SeasonVideoId(otherShow, season)), later);
            && first.0.Ok? && first.0.value.Episodes?
            && VideoIds.SeasonId(first.0.value.episodeList.videoid) == Some(season)
            && VideoIds.TvShowId(first.0.value.episodeList.videoid) == Some(show)
            && DataTypes.Distinct(DataTypes.Keys(first.0.value.episodeList.episodes))
            && again.0 == first.0 && again.1.sent == first.1.sent
  {
    var args := Cache.Args([show, season], map[]);
    var req := PathRequest("episodes", [show, season]);
    var shape := AsIntendedEpisodeList(SeasonVideoId(show, season));
    var producer := (_: Cache.Args) => Produce(remote, req, shape);
    var other := (_: Cache.Args) => Produce(remote, PathRequest("episodes", [otherShow, season]),
                                            AsIntendedEpisodeList(SeasonVideoId(otherShow, season)));
    Cache.RepeatedCallHits(s.store, c, EpisodesDecoration, args, producer, now,
                           EpisodesDecoration, Cache.Args([otherShow, season], map[]), other, later);
  }

  /** `episode` and `movie` key into the same bucket by the id alone, and so
      does `episodes` by its season id: an episode's answer cached by
      `episode(show, id)` is what `movie(id)` and `episodes(other, id)`
      return, without a request, until its end of life. */
  lemma EpisodeBucketKeysAlias(s: Session, c: Cache.Config, remote: Remote, show: string, id: string,
                               now: int, other: string, later: int)
    requires ApiCache.ApiCacheEpisodes in c.bucketNames
    requires Cache.NotFresh(s.store, c, ApiCache.ApiCacheEpisodes, id, now)
    requires remote.call(PathRequest("episode", [show, id])).Ok?
    requires later <= now + c.ttl
    ensures var first := CachedRequestSpec(s, c, remote, EpisodeDecoration, Cache.Args([show, id], map[]),
                                           PathRequest("episode", [show, id]), AsResponse, now);
            var movie := CachedRequestSpec(first.1, c, remote, MovieDecoration, Cache.Args([id], map[]),
                                           PathRequest("movie", [id]), AsResponse, later);
            var episodes := CachedRequestSpec(first.1, c, remote, EpisodesDecoration, Cache.Args([other, id], map[]),
                                              PathRequest("episodes", [other, id]), AsEpisodeList, later);
            && first.0 == Ok(Response(remote.call(PathRequest("episode", [show, id])).value))
            && movie.0 == first.0 && movie.1.sent == first.1.sent
            && episodes.0 == first.0 && episodes.1.sent == first.1.sent
  {
    var args := Cache.Args([show, id], map[]);
    var producer := (_: Cache.Args) => Produce(remote, PathRequest("episode", [show, id]), AsResponse);
    var movieProducer := (_: Cache.Args) => Produce(remote, PathRequest("movie", [id]), AsResponse);
    var episodesProducer := (_: Cache.Args) => Produce(remote, PathRequest("episodes", [other, id]), AsEpisodeList);
    Cache.RepeatedCallHits(s.store, c, EpisodeDecoration, args, producer, now,
                           MovieDecoration, Cache.Args([id], map[]), movieProducer, later);
    Cache.RepeatedCallHits(s.store, c, EpisodeDecoration, args, producer, now,
                           EpisodesDecoration, Cache.Args([other, id], map[]), episodesProducer, later);
  }

  /** The API functions over one cache instance and the remote service */
  class Api {
    const cache: Cache.Cache<Data>
    const remote: Remote
    /** The `invalidate_cache_on_mylist_modify` setting */
    const wipeOnMyListEdit: bool
    var lastLocation: bool
    var sent: seq<Sent>

    function State(): Session
      reads this, cache
    {
      Session(cache.State(), lastLocation, sent)
    }

    constructor(cache: Cache.Cache<Data>, remote: Remote, wipeOnMyListEdit: bool)
      ensures this.cache == cache && this.remote == remote && this.wipeOnMyListEdit == wipeOnMyListEdit
      ensures lastLocation && sent == []
    {
      this.cache := cache;
      this.remote := remote;
      this.wipeOnMyListEdit := wipeOnMyListEdit;
      this.lastLocation := true;
      this.sent := [];
    }

    /** `common.make_call` */
    method Call(req: Request) returns (r: Result<Json>)
      modifies this`sent
      ensures r == remote.call(req) && sent == old(sent) + [Sent(req, cache.State())]
    {
      sent := sent + [Sent(req, cache.State())];
      r := remote.call(req);
    }

    method CachedRequest(d: Cache.Decoration, args: Cache.Args, req: Request, shape: Shape, now: int)
      returns (r: Result<Data>)
      modifies this`sent, cache
      ensures (r, State()) == old(CachedRequestSpec(State(), cache.config, remote, d, args, req, shape, now))
    {
      var lookup := cache.Lookup(d, args, now);
      match lookup
      case Hit(v) =>
        r := Ok(v);
      case Raised(e) =>
        r := Err(e);
      case Miss(key) =>
        var answer := Call(req);
        var out := if answer.Err? then Err(answer.exc) else Convert(remote, shape, answer.value);
        r := cache.Complete(d, key, out, now);
    }

    method RootLists(now: int) returns (r: Result<Data>)
      modifies this`sent, cache
      ensures (r, State()) == old(RootListsSpec(State(), cache.config, remote, now))
    {
      r := CachedRequest(RootListsDecoration, Cache.Args([], map[]), RootListsRequest, AsLoLoMo, now);
    }

    method ListIdForType(listType: string, now: int) returns (r: Result<Data>)
      modifies this`sent, cache
      ensures (r, State()) == old(ListIdForTypeSpec(State(), cache.config, remote, listType, now))
    {
      var lookup := cache.Lookup(ListTypeDecoration, Cache.Args([listType], map[]), now);
      match lookup
      case Hit(v) =>
        r := Ok(v);
      case Raised(e) =>
        r := Err(e);
      case Miss(key) =>
        var roots := RootLists(now);
        var out := if roots.Err? then Err(roots.exc) else ListIdFromRoots(roots.value, listType);
        r := cache.Complete(ListTypeDecoration, key, out, now);
    }

    method VideoList(listId: string, now: int) returns (r: Result<Data>)
      modifies this`sent, cache
      ensures (r, State()) == old(CachedRequestSpec(State(), cache.config, remote, VideoListDecoration,
                                   Cache.Args([listId], map[]), PathRequest("video_list", [listId]), AsVideoList, now))
    {
      r := CachedRequest(VideoListDecoration, Cache.Args([listId], map[]), PathRequest("video_list", [listId]), AsVideoList, now);
    }

    /** `seasons(tvshow_id)`, keyed by the argument's string */
    method Seasons(tvshowId: DataTypes.Arg, now: int) returns (r: Result<Data>)
      requires ArgKey(tvshowId).Ok?
      modifies this`sent, cache
      ensures (r, State()) == old(SeasonsSpec(State(), cache.config, remote, tvshowId, now))
    {
      var key := ArgKey(tvshowId).value;
      r := CachedRequest(SeasonsDecoration, Cache.Args([key], map[]), PathRequest("seasons", [key]),
                         AsSeasonList(tvshowId), now);
    }

    method Episodes(tvshowId: string, seasonId: string, now: int) returns (r: Result<Data>)
      modifies this`sent, cache
      ensures (r, State()) == old(CachedRequestSpec(State(), cache.config, remote, EpisodesDecoration,
                                   Cache.Args([tvshowId, seasonId], map[]), PathRequest("episodes", [tvshowId, seasonId]), AsEpisodeList, now))
    {
      r := CachedRequest(EpisodesDecoration, Cache.Args([tvshowId, seasonId], map[]),
                         PathRequest("episodes", [tvshowId, seasonId]), AsEpisodeList, now);
    }

    method Episode(tvshowId: string, episodeId: string, now: int) returns (r: Result<Data>)
      modifies this`sent, cache
      ensures (r, State()) == old(CachedRequestSpec(State(), cache.config, remote, EpisodeDecoration,
                                   Cache.Args([tvshowId, episodeId], map[]), PathRequest("episode", [tvshowId, episodeId]), AsResponse, now))
    {
      r := CachedRequest(EpisodeDecoration, Cache.Args([tvshowId, episodeId], map[]),
                         PathRequest("episode", [tvshowId, episodeId]), AsResponse, now);
    }

    method Movie(movieId: string, now: int) returns (r: Result<Data>)
      modifies this`sent, cache
      ensures (r, State()) == old(CachedRequestSpec(State(), cache.config, remote, MovieDecoration,
                                   Cache.Args([movieId], map[]), PathRequest("movie", [movieId]), AsResponse, now))
    {
      r := CachedRequest(MovieDecoration, Cache.Args([movieId], map[]), PathRequest("movie", [movieId]), AsResponse, now);
    }

    method Metadata(videoId: string, now: int) returns (r: Result<Data>)
      modifies this`sent, cache
      ensures (r, State()) == old(MetadataSpec(State(), cache.config, remote, videoId, now))
    {
      r := CachedRequest(MetadataDecoration(cache.config), Cache.Args([videoId], map[]),
                         MetadataRequest(videoId), AsVideo, now);
    }

    /** `activate_profile`, `logout` and `login` */
    method ChangeSession(req: Request) returns (r: Result<()>)
      modifies this`sent, cache
      ensures (r, State()) == old(SessionChangeSpec(State(), cache.config, remote, req))
    {
      cache.Invalidate();
      var answer := Call(req);
      r := if answer.Err? then Err(answer.exc) else Ok(());
    }

    method UpdateMyList(videoId: string, operation: string, now: int) returns (r: Result<()>)
      modifies this, cache
      ensures (r, State()) == old(UpdateMyListSpec(State(), cache.config, remote, wipeOnMyListEdit, videoId, operation, now))
    {
      var id := MiscUtils.ParseInt(videoId);
      if id.Err? {
        return Err(id.exc);
      }
      var answer := Call(MyListUpdate(operation, id.value));
      if answer.Err? {
        return Err(answer.exc);
      }
      if wipeOnMyListEdit {
        cache.Invalidate();
        return Ok(());
      }
      lastLocation := false;
      var queue := ListIdForType(QueueList, now);
      if queue.Err? {
        return Err(queue.exc);
      }
      if queue.value.ListId? {
        r := cache.InvalidateEntry(ApiCache.ApiCacheVideoList, queue.value.id);
      } else {
        var bucket := cache.GetBucket(ApiCache.ApiCacheVideoList);
        r := if bucket.Err? then Err(bucket.exc) else Ok(());
      }
      if r.Err? {
        return;
      }
      r := cache.InvalidateEntry(Cache.CacheCommon, QueueList);
      if r.Err? {
        return;
      }
      r := cache.InvalidateEntry(Cache.CacheCommon, RootListsKey);
    }

    /** `episode_metadata`, with its fallback chain as written */
    method EpisodeMetadata(tvshowId: string, seasonId: string, episodeId: string, now: int) returns (r: Result<Json>)
      modifies this`sent, cache
      ensures (r, State()) == old(EpisodeMetadataSpec(State(), cache.config, remote, tvshowId, seasonId, episodeId, now))
    {
      var m := Metadata(tvshowId, now);
      r := FirstAttempt(m, episodeId);
      if r != Err(KeyError) {
        return;
      }
      var _ := cache.InvalidateEntry(ApiCache.ApiCacheMetadata, tvshowId);
      var m2 := Metadata(tvshowId, now);
      r := Fallback(m2, seasonId, episodeId);
    }

    /** `rate`: posts the clamped, halved rating. The function returns
        nothing, so its caller sees only whether the post raised. */
    method Rate(videoId: string, rating: int) returns (r: Result<()>)
      modifies this`sent
      ensures var answer := remote.call(Rating(videoId, RateValue(rating)));
              r == if answer.Err? then Err(answer.exc) else Ok(())
      ensures sent == old(sent) + [Sent(Rating(videoId, RateValue(rating)), cache.State())]
    {
      var answer := Call(Rating(videoId, RateValue(rating)));
      r := if answer.Err? then Err(answer.exc) else Ok(());
    }
  }
}
