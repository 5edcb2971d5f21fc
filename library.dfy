/** The Kodi library index of resources/lib/kodi/library.py: export tasks
    compiled from a video's metadata, and the nested index of exported
    files (show, season, episode, then `'file'`) kept in the library bucket
    of the cache and memoised in a module global. */
module Library {
  import opened Wrappers
  import opened Json
  import Cache
  import KodiOps
  import VideoIds

  const FolderMovies: string := "movies"
  const FolderTv: string := "shows"
  const LibraryKey: string := "library"

  /** One export task. The dict the code builds has exactly these five keys. */
  datatype Task = Task(title: string, section: string, videoid: VideoIds.VideoId,
                       destination: string, filename: string)

  /** What `compile_tasks` returns: a flat task list, or one list per season
      for a show */
  datatype Compiled = Flat(tasks: seq<Task>) | PerSeason(lists: seq<seq<Task>>)

  /** `'{:02d}'.format(n)`: at least two digits, zero-padded */
  function Pad2(n: int): (s: string)
    ensures 0 <= n < 100 ==> s == ['0' + (n / 10) as char, '0' + (n % 10) as char]
  {
    if 0 <= n < 10 then "0" + NatToString(n)
    else
      if 10 <= n < 100 then TwoDigits(n); Str(JInt(n)) else Str(JInt(n))
  }

  lemma TwoDigits(n: int)
    requires 10 <= n < 100
    ensures NatToString(n) == ['0' + (n / 10) as char, '0' + (n % 10) as char]
  {
    assert NatToString(n / 10) == ['0' + (n / 10) as char];
  }

  /** The `d` format accepts integers (and booleans, which are integers);
      anything else raises `ValueError`. */
  function FormatSeq(j: Json): Result<string> {
    match j
    case JInt(i) => Ok(Pad2(i))
    case JBool(b) => Ok(Pad2(if b then 1 else 0))
    case _ => Err(ValueError)
  }

  /** `'S{:02d}E{:02d}'` */
  function EpisodeFilename(seasonSeq: int, episodeSeq: int): string {
    "S" + Pad2(seasonSeq) + "E" + Pad2(episodeSeq)
  }

  /** Two episodes numbered below 100 never share a file name. */
  lemma EpisodeFilenameIsInjective(s1: int, e1: int, s2: int, e2: int)
    requires 0 <= s1 < 100 && 0 <= e1 < 100 && 0 <= s2 < 100 && 0 <= e2 < 100
    requires EpisodeFilename(s1, e1) == EpisodeFilename(s2, e2)
    ensures s1 == s2 && e1 == e2
  {
    var f1, f2 := EpisodeFilename(s1, e1), EpisodeFilename(s2, e2);
    assert f1[1] == f2[1] && f1[2] == f2[2] && f1[4] == f2[4] && f1[5] == f2[5];
    assert s1 == (s1 / 10) * 10 + s1 % 10 && s2 == (s2 / 10) * 10 + s2 % 10;
    assert e1 == (e1 / 10) * 10 + e1 % 10 && e2 == (e2 / 10) * 10 + e2 % 10;
  }

  /** A string the code joins or formats into a name */
  function Text(j: Json): Result<string> {
    if j.JStr? then Ok(j.s) else Err(TypeError)
  }

  /** `metadata['video'][key]` */
  function VideoField(metadata: Json, key: string): Result<Json> {
    var video :- Index(metadata, "video");
    Index(video, key)
  }

  /** `find_season(id, seasons)` with an id that may be None (it then
      matches no season) */
  function LookupSeason(seasonId: Option<string>, seasons: Json): Result<Json> {
    var items :- KodiOps.Items(seasons);
    match seasonId
    case Some(id) => KodiOps.FindSeason(id, items, true)
    case None => Err(KeyError)
  }

  function LookupEpisode(episodeId: Option<string>, seasons: Json): Result<Json> {
    var items :- KodiOps.Items(seasons);
    match episodeId
    case Some(id) => KodiOps.FindEpisode(id, items, true)
    case None => Err(KeyError)
  }

  /** `_create_episode_task`: a falsy season or episode is looked up by the
      video id in the show's metadata. */
  function CreateEpisodeTask(v: VideoIds.VideoId, metadata: Json, season: Json, episode: Json): (r: Result<Task>)
    ensures r.Ok? ==> r.value.section == FolderTv && r.value.videoid == v
    ensures r.Ok? ==> VideoField(metadata, "title") == Ok(JStr(r.value.destination))
    ensures r.Ok? ==> exists s, e :: r.value.filename == EpisodeFilename(s, e)
    ensures r.Ok? ==> exists t :: r.value.title == r.value.destination + " - " + r.value.filename + " - " + t
  {
    var show :- VideoField(metadata, "title");
    var season :- if Truthy(season) then Ok(season)
                  else var seasons :- VideoField(metadata, "seasons"); LookupSeason(v.ids.season, seasons);
    var episode :- if Truthy(episode) then Ok(episode)
                   else var seasons :- VideoField(metadata, "seasons"); LookupEpisode(v.ids.episode, seasons);
    var title :- Index(episode, "title");
    var seasonSeq :- Index(season, "seq");
    var episodeSeq :- Index(episode, "seq");
    var s :- FormatSeq(seasonSeq);
    var e :- FormatSeq(episodeSeq);
    var showName :- Text(show);
    var episodeTitle :- Text(title);
    var filename := "S" + s + "E" + e;
    assert filename == EpisodeFilename(SeqNumber(seasonSeq), SeqNumber(episodeSeq));
    Ok(Task(showName + " - " + filename + " - " + episodeTitle, FolderTv, v, showName, filename))
  }

  /** The number a `d` format prints */
  function SeqNumber(j: Json): int {
    match j
    case JInt(i) => i
    case JBool(b) => if b then 1 else 0
    case _ => 0
  }

  /** An id from the metadata, in the form the video id keeps it */
  function IdOf(item: Json): Result<string> {
    var id :- Index(item, "id");
    Ok(Str(id))
  }

  /** `_compile_season_tasks`: one episode task per episode of the season,
      in order */
  function SeasonTasks(v: VideoIds.VideoId, metadata: Json, season: Json): (r: Result<seq<Task>>) {
    var episodes :- Index(season, "episodes");
    var items :- KodiOps.Items(episodes);
    EpisodeTasks(v, metadata, season, items)
  }

  function EpisodeTasks(v: VideoIds.VideoId, metadata: Json, season: Json, episodes: seq<Json>)
    : (r: Result<seq<Task>>)
    ensures r.Ok? ==> |r.value| == |episodes|
    ensures r.Ok? ==> forall k | 0 <= k < |r.value| :: r.value[k].section == FolderTv
    ensures r.Ok? ==> forall k | 0 <= k < |r.value| ::
      IdOf(episodes[k]).Ok? && VideoIds.DeriveEpisode(v, IdOf(episodes[k]).value) == Ok(r.value[k].videoid)
    decreases |episodes|
  {
    if episodes == [] then Ok([])
    else
      var id :- IdOf(episodes[0]);
      var derived :- VideoIds.DeriveEpisode(v, id);
      var task :- CreateEpisodeTask(derived, metadata, season, episodes[0]);
      var rest :- EpisodeTasks(v, metadata, season, episodes[1..]);
      EpisodeTasksCons(v, episodes, task, rest);
      Ok([task] + rest)
  }

  /** The task of the first episode before the tasks of the others */
  lemma EpisodeTasksCons(v: VideoIds.VideoId, episodes: seq<Json>, task: Task, rest: seq<Task>)
    requires |episodes| > 0 && |rest| == |episodes| - 1
    requires task.section == FolderTv
    requires IdOf(episodes[0]).Ok? && VideoIds.DeriveEpisode(v, IdOf(episodes[0]).value) == Ok(task.videoid)
    requires forall k | 0 <= k < |rest| :: rest[k].section == FolderTv
    requires forall k | 0 <= k < |rest| ::
      IdOf(episodes[1..][k]).Ok? && VideoIds.DeriveEpisode(v, IdOf(episodes[1..][k]).value) == Ok(rest[k].videoid)
    ensures var tasks := [task] + rest;
            && (forall k | 0 <= k < |tasks| :: tasks[k].section == FolderTv)
            && (forall k | 0 <= k < |tasks| ::
                  IdOf(episodes[k]).Ok? && VideoIds.DeriveEpisode(v, IdOf(episodes[k]).value) == Ok(tasks[k].videoid))
  {
    var tasks := [task] + rest;
    forall k | 1 <= k < |tasks|
      ensures IdOf(episodes[k]).Ok? && VideoIds.DeriveEpisode(v, IdOf(episodes[k]).value) == Ok(tasks[k].videoid)
    {
      assert tasks[k] == rest[k - 1] && episodes[k] == episodes[1..][k - 1];
    }
  }

  /** The show branch: one task list per season, in order */
  function ShowTasks(v: VideoIds.VideoId, metadata: Json, seasons: seq<Json>): (r: Result<seq<seq<Task>>>)
    ensures r.Ok? ==> |r.value| == |seasons|
    ensures r.Ok? ==> forall k | 0 <= k < |seasons| ::
      IdOf(seasons[k]).Ok? && VideoIds.DeriveSeason(v, IdOf(seasons[k]).value).Ok? &&
      SeasonTasks(VideoIds.DeriveSeason(v, IdOf(seasons[k]).value).value, metadata, seasons[k]) == Ok(r.value[k])
    decreases |seasons|
  {
    if seasons == [] then Ok([])
    else
      var id :- IdOf(seasons[0]);
      var derived :- VideoIds.DeriveSeason(v, id);
      var tasks :- SeasonTasks(derived, metadata, seasons[0]);
      var rest :- ShowTasks(v, metadata, seasons[1..]);
      assert forall k | 1 <= k < |seasons| :: seasons[1..][k - 1] == seasons[k];
      Ok([tasks] + rest)
  }

  /** The movie branch: `'{title} ({year})'` names the task, its folder and
      its file */
  function MovieTask(v: VideoIds.VideoId, metadata: Json): (r: Result<Task>)
    ensures r.Ok? ==> r.value.section == FolderMovies && r.value.videoid == v
    ensures r.Ok? ==> r.value.title == r.value.destination == r.value.filename
    ensures r.Ok? ==> (VideoField(metadata, "title").Ok? && VideoField(metadata, "year").Ok? &&
      r.value.title == Str(VideoField(metadata, "title").value) + " (" + Str(VideoField(metadata, "year").value) + ")")
  {
    var title :- VideoField(metadata, "title");
    var year :- VideoField(metadata, "year");
    var name := Str(title) + " (" + Str(year) + ")";
    Ok(Task(name, FolderMovies, v, name, name))
  }

  /** `compile_tasks` as written, over the value `metadata` it gets from
      `api.metadata`. The season branch passes the whole metadata dict to
      `find_season`, which iterates its keys. */
  function CompileTasks(v: VideoIds.VideoId, metadata: Json): (r: Result<Compiled>)
    ensures VideoIds.Mediatype(v).Err? ==> r.Err?
    ensures VideoIds.Mediatype(v) == Ok(VideoIds.Unspecified) ==> r == Err(ValueError)
    ensures VideoIds.Mediatype(v) == Ok(VideoIds.MovieType) ==>
      r.Ok? ==> r.value.Flat? && |r.value.tasks| == 1 && MovieTask(v, metadata) == Ok(r.value.tasks[0])
    ensures VideoIds.Mediatype(v) == Ok(VideoIds.ShowType) ==>
      r.Ok? ==> r.value.PerSeason? && VideoField(metadata, "seasons").Ok? &&
                KodiOps.Items(VideoField(metadata, "seasons").value).Ok? &&
                ShowTasks(v, metadata, KodiOps.Items(VideoField(metadata, "seasons").value).value) == Ok(r.value.lists)
    ensures VideoIds.Mediatype(v) == Ok(VideoIds.SeasonType) ==> r.Ok? ==> r.value.Flat?
    ensures VideoIds.Mediatype(v) == Ok(VideoIds.EpisodeType) ==>
      r.Ok? ==> r.value.Flat? && |r.value.tasks| == 1 &&
                CreateEpisodeTask(v, metadata, JNull, JNull) == Ok(r.value.tasks[0])
  {
    var m :- VideoIds.Mediatype(v);
    match m
    case MovieType =>
      var task :- MovieTask(v, metadata);
      Ok(Flat([task]))
    case ShowType =>
      var seasons :- VideoField(metadata, "seasons");
      var items :- KodiOps.Items(seasons);
      var lists :- ShowTasks(v, metadata, items);
      Ok(PerSeason(lists))
    case SeasonType =>
      var season :- LookupSeason(v.ids.season, metadata);
      var tasks :- SeasonTasks(v, metadata, season);
      Ok(Flat(tasks))
    case EpisodeType =>
      var task :- CreateEpisodeTask(v, metadata, JNull, JNull);
      Ok(Flat([task]))
    case Unspecified => Err(ValueError)
  }

  /** `api.metadata` already returns the `'video'` part of the response, so
      the `metadata['video']` the movie, show and episode branches read
      first is missing: each of them raises `KeyError`. */
  lemma ExportOfMetadataResultRaises(v: VideoIds.VideoId, video: map<string, Json>)
    requires VideoIds.Mediatype(v) in {Ok(VideoIds.MovieType), Ok(VideoIds.ShowType), Ok(VideoIds.EpisodeType)}
    requires "video" !in video
    ensures CompileTasks(v, JObj(video)) == Err(KeyError)
  {
  }

  /** A season export never gets past the season lookup: the keys of the
      metadata are strings, and a string rejects `['id']`. */
  lemma SeasonExportRaises(v: VideoIds.VideoId, fields: map<string, Json>)
    requires VideoIds.Mediatype(v) == Ok(VideoIds.SeasonType) && v.ids.season.Some?
    requires fields != map[]
    ensures CompileTasks(v, JObj(fields)) == Err(TypeError)
  {
  }

  /** The dict whose `'video'` is `video`: reading `metadata['video'][k]`
      from it is reading `video[k]`. */
  function Wrap(video: Json): (metadata: Json)
    ensures forall k :: VideoField(metadata, k) == Index(video, k)
  {
    JObj(map["video" := video])
  }

  /** `compile_tasks` as it is evidently meant, over the video dict that
      `api.metadata` returns: every field is read from that dict, and a
      season is looked up among its `'seasons'`. Stated through `Wrap`,
      so the branches that need no other change are `CompileTasks`'. */
  function IntendedCompileTasks(v: VideoIds.VideoId, video: Json): (r: Result<Compiled>)
    ensures VideoIds.Mediatype(v) != Ok(VideoIds.SeasonType) ==> r == CompileTasks(v, Wrap(video))
    ensures VideoIds.Mediatype(v) == Ok(VideoIds.SeasonType) ==>
      r == (var season :- (var seasons :- Index(video, "seasons"); LookupSeason(v.ids.season, seasons));
            var tasks :- SeasonTasks(v, Wrap(video), season);
            Ok(Flat(tasks)))
  {
    var m :- VideoIds.Mediatype(v);
    if m == VideoIds.SeasonType then
      var seasons :- Index(video, "seasons");
      var season :- LookupSeason(v.ids.season, seasons);
      var tasks :- SeasonTasks(v, Wrap(video), season);
      Ok(Flat(tasks))
    else CompileTasks(v, Wrap(video))
  }

  /** Under the intended reading a movie is exported as one task named
      `title (year)` from the video dict's own fields. */
  lemma IntendedMovieExport(v: VideoIds.VideoId, video: map<string, Json>)
    requires VideoIds.Mediatype(v) == Ok(VideoIds.MovieType)
    requires "title" in video && "year" in video
    ensures var name := Str(video["title"]) + " (" + Str(video["year"]) + ")";
            IntendedCompileTasks(v, JObj(video)) == Ok(Flat([Task(name, FolderMovies, v, name, name)]))
  {
    assert VideoField(Wrap(JObj(video)), "title") == Ok(video["title"]);
    assert VideoField(Wrap(JObj(video)), "year") == Ok(video["year"]);
  }

  /** With the intended lookup, a season whose id matches the first season
      of the video dict is exported episode by episode. */
  lemma IntendedSeasonExport(v: VideoIds.VideoId, video: Json, first: Json, others: seq<Json>)
    requires VideoIds.Mediatype(v) == Ok(VideoIds.SeasonType) && v.ids.season.Some?
    requires Index(video, "seasons") == Ok(JList([first] + others))
    requires KodiOps.HasId(first, v.ids.season.value)
    ensures IntendedCompileTasks(v, video) ==
      (var tasks :- SeasonTasks(v, Wrap(video), first); Ok(Flat(tasks)))
  {
  }

  // The library index

  /** The keys `_add_to_library` walks: `to_list()` gives the ids, or the
      bare untyped id, whose characters the loop then visits one by one. */
  function PathOf(listed: VideoIds.Listed): (path: seq<string>)
    ensures listed.Parts? ==> path == listed.ids
    ensures listed.Bare? ==> |path| == |listed.id| && forall k | 0 <= k < |path| :: path[k] == [listed.id[k]]
  {
    match listed
    case Parts(ids) => ids
    case Bare(id) => seq(|id|, k requires 0 <= k < |id| => [id[k]])
  }

  /** Whether every node met along `path` is a dict, the ones that do not
      exist yet counting as the dicts the walk creates */
  predicate Walkable(node: Json, path: seq<string>)
    decreases |path|
  {
    node.JObj? && (path != [] && path[0] in node.fields ==> Walkable(node.fields[path[0]], path[1..]))
  }

  /** `_add_to_library`'s walk: create each missing node along `path`, then
      set `'file'` at the end. A node that exists but is not a dict rejects
      the membership test or the subscript with `TypeError`. Nodes are only
      created after the last existing one, so a failing walk changes
      nothing. */
  function AddPath(node: Json, path: seq<string>, file: string): (r: Result<Json>)
    ensures r.Ok? <==> Walkable(node, path)
    ensures r.Err? ==> r.exc == TypeError
    ensures r.Ok? ==> r.value.JObj?
    decreases |path|
  {
    if !node.JObj? then Err(TypeError)
    else if path == [] then Ok(JObj(node.fields["file" := JStr(file)]))
    else
      var child := if path[0] in node.fields then node.fields[path[0]] else JObj(map[]);
      var sub :- AddPath(child, path[1..], file);
      Ok(JObj(node.fields[path[0] := sub]))
  }

  /** After the walk, the path leads to a node whose `'file'` is the
      exported file. */
  lemma {:induction false} AddPathReachesFile(node: Json, path: seq<string>, file: string)
    requires AddPath(node, path, file).Ok?
    ensures var leaf := GetPath(AddPath(node, path, file).value, path);
            leaf.Ok? && Index(leaf.value, "file") == Ok(JStr(file))
    decreases |path|
  {
    if path != [] {
      var child := if path[0] in node.fields then node.fields[path[0]] else JObj(map[]);
      AddPathReachesFile(child, path[1..], file);
    }
  }

  /** The walk leaves every sibling of the nodes on the path untouched: a
      key that leaves the path at depth `i` leads where it led before. */
  lemma {:induction false} AddPathKeepsSiblings(node: Json, path: seq<string>, file: string, i: nat, key: string)
    requires AddPath(node, path, file).Ok?
    requires i < |path| && key != path[i]
    requires GetPath(node, path[..i] + [key]).Ok?
    ensures GetPath(AddPath(node, path, file).value, path[..i] + [key]) == GetPath(node, path[..i] + [key])
    decreases |path|
  {
    var r := AddPath(node, path, file).value;
    if i == 0 {
      assert path[..0] + [key] == [key];
      assert [key][1..] == [];
    } else {
      var child := node.fields[path[0]];
      assert (path[..i] + [key])[0] == path[0];
      assert (path[..i] + [key])[1..] == path[1..][..i - 1] + [key];
      AddPathKeepsSiblings(child, path[1..], file, i - 1, key);
    }
  }

  /** The library value of `_library()`: the memo when it is truthy;
      otherwise the cached index, or `{}` on a cache miss. `None` is `JNull`. */
  function LoadSpec(memo: Json, s: Cache.Store<Json>, c: Cache.Config, now: int)
    : (r: (Result<Json>, Json, Cache.Store<Json>))
    ensures Truthy(memo) ==> r == (Ok(memo), memo, s)
    ensures r.0.Ok? ==> r.1 == r.0.value
    ensures r.0.Err? ==> r.1 == memo && r.0.exc == UnknownCacheBucket
  {
    if Truthy(memo) then (Ok(memo), memo, s)
    else
      var got := Cache.GetSpec(s, c, Cache.CacheLibrary, LibraryKey, now);
      if got.0.Ok? then (got.0, got.0.value, got.1)
      else if got.0.exc == CacheMiss then (Ok(JObj(map[])), JObj(map[]), got.1)
      else (Err(got.0.exc), memo, got.1)
  }

  /** The memo test is truthiness: an empty index is looked up again each
      time, exactly as if nothing had been memoised. */
  lemma EmptyIndexIsReloaded(s: Cache.Store<Json>, c: Cache.Config, now: int)
    ensures LoadSpec(JObj(map[]), s, c, now).0 == LoadSpec(JNull, s, c, now).0
    ensures LoadSpec(JObj(map[]), s, c, now).2 == LoadSpec(JNull, s, c, now).2
  {
  }

  /** `save_library`: nothing to save before the first load; otherwise the
      index is added for good and written to disk. */
  function SaveSpec(memo: Json, s: Cache.Store<Json>, c: Cache.Config, now: int): (Result<()>, Cache.Store<Json>) {
    if memo == JNull then (Ok(()), s)
    else Cache.AddSpec(s, c, Cache.CacheLibrary, LibraryKey, memo, Some(Cache.TtlInfinite), true, now)
  }

  /** A saved index is what a later process (nothing memoised) loads. */
  lemma SaveThenLoad(memo: Json, s: Cache.Store<Json>, c: Cache.Config, now: int, later: int)
    requires memo != JNull && Cache.CacheLibrary in c.bucketNames
    requires later <= now + Cache.TtlInfinite
    ensures LoadSpec(JNull, SaveSpec(memo, s, c, now).1, c, later).0 == Ok(memo)
  {
    var saved := SaveSpec(memo, s, c, now).1;
    assert Cache.View(saved, c, Cache.CacheLibrary) == saved.buckets[Cache.CacheLibrary];
  }

  /** `_add_to_library`: load, walk, save */
  function AddToLibrarySpec(memo: Json, s: Cache.Store<Json>, c: Cache.Config,
                            v: VideoIds.VideoId, file: string, now: int)
    : (r: (Result<()>, Json, Cache.Store<Json>))
    ensures r.0.Ok? ==> r.1.JObj? && var leaf := GetPath(r.1, PathOf(VideoIds.ToList(v)));
              leaf.Ok? && Index(leaf.value, "file") == Ok(JStr(file))
  {
    var loaded := LoadSpec(memo, s, c, now);
    if loaded.0.Err? then (Err(loaded.0.exc), loaded.1, loaded.2)
    else
      var walked := AddPath(loaded.0.value, PathOf(VideoIds.ToList(v)), file);
      if walked.Err? then (Err(walked.exc), loaded.1, loaded.2)
      else
        AddPathReachesFile(loaded.0.value, PathOf(VideoIds.ToList(v)), file);
        var saved := SaveSpec(walked.value, loaded.2, c, now);
        (saved.0, walked.value, saved.1)
  }

  /** `is_in_library`: the video's path resolves to a value in the index */
  function IsInLibrarySpec(memo: Json, s: Cache.Store<Json>, c: Cache.Config, v: VideoIds.VideoId, now: int)
    : (r: (Result<bool>, Json, Cache.Store<Json>))
    ensures Truthy(memo) ==> r.0 == Ok(GetPath(memo, PathOf(VideoIds.ToList(v))).Ok? &&
                                       GetPath(memo, PathOf(VideoIds.ToList(v))).value != JNull)
  {
    var loaded := LoadSpec(memo, s, c, now);
    if loaded.0.Err? then (Err(loaded.0.exc), loaded.1, loaded.2)
    else
      var found := GetPath(loaded.0.value, PathOf(VideoIds.ToList(v)));
      (Ok(found.Ok? && found.value != JNull), loaded.1, loaded.2)
  }

  /** A video just added is in the library. */
  lemma AddedVideoIsInLibrary(memo: Json, s: Cache.Store<Json>, c: Cache.Config,
                              v: VideoIds.VideoId, file: string, now: int, later: int)
    requires AddToLibrarySpec(memo, s, c, v, file, now).0.Ok?
    ensures var added := AddToLibrarySpec(memo, s, c, v, file, now);
            IsInLibrarySpec(added.1, added.2, c, v, later).0 == Ok(true)
  {
    var added := AddToLibrarySpec(memo, s, c, v, file, now);
    assert "file" in GetPath(added.1, PathOf(VideoIds.ToList(v))).value.fields;
    assert Truthy(added.1) by {
      if PathOf(VideoIds.ToList(v)) == [] {
        assert "file" in added.1.fields;
      } else {
        assert PathOf(VideoIds.ToList(v))[0] in added.1.fields;
      }
    }
  }

  /** The module-level memo `__LIBRARY__` over the add-on's cache */
  class LibraryIndex {
    const cache: Cache.Cache<Json>
    /** `__LIBRARY__`, `JNull` standing for None */
    var memo: Json

    constructor(cache: Cache.Cache<Json>)
      ensures this.cache == cache && memo == JNull
    {
      this.cache := cache;
      memo := JNull;
    }

    /** `_library()` */
    method Load(now: int) returns (r: Result<Json>)
      modifies this`memo, cache
      ensures (r, memo, cache.State()) == old(LoadSpec(memo, cache.State(), cache.config, now))
    {
      if Truthy(memo) {
        return Ok(memo);
      }
      var got := cache.Get(Cache.CacheLibrary, LibraryKey, now);
      if got.Ok? {
        memo := got.value;
        r := got;
      } else if got.exc == CacheMiss {
        memo := JObj(map[]);
        r := Ok(memo);
      } else {
        r := Err(got.exc);
      }
    }

    /** `save_library()` */
    method Save(now: int) returns (r: Result<()>)
      modifies cache
      ensures (r, cache.State()) == old(SaveSpec(memo, cache.State(), cache.config, now))
    {
      r := Ok(());
      if memo != JNull {
        r := cache.Add(Cache.CacheLibrary, LibraryKey, memo, Some(Cache.TtlInfinite), true, now);
      }
    }

    /** `_add_to_library(videoid, export_filename)` */
    method AddToLibrary(v: VideoIds.VideoId, file: string, now: int) returns (r: Result<()>)
      modifies this`memo, cache
      ensures (r, memo, cache.State()) == old(AddToLibrarySpec(memo, cache.State(), cache.config, v, file, now))
    {
      var loaded := Load(now);
      if loaded.Err? {
        return Err(loaded.exc);
      }
      var walked := AddPath(loaded.value, PathOf(VideoIds.ToList(v)), file);
      if walked.Err? {
        return Err(walked.exc);
      }
      memo := walked.value;
      r := Save(now);
    }

    /** `is_in_library(videoid)` */
    method IsInLibrary(v: VideoIds.VideoId, now: int) returns (r: Result<bool>)
      modifies this`memo, cache
      ensures (r, memo, cache.State()) == old(IsInLibrarySpec(memo, cache.State(), cache.config, v, now))
    {
      var loaded := Load(now);
      if loaded.Err? {
        return Err(loaded.exc);
      }
      var found := GetPath(loaded.value, PathOf(VideoIds.ToList(v)));
      r := Ok(found.Ok? && found.value != JNull);
    }
  }
}
