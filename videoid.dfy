/** `VideoId` of resources/lib/common/videoid.py: a tagged identifier of a
    movie, show, season or episode, or an untyped id, with its path form.

    Id values are optional strings: the code tells `None` apart from an
    empty (falsy) string in several places, so the model does too. */
module VideoIds {
  import opened Wrappers

  const Movie := "movie"
  const Show := "show"
  const Season := "season"
  const Episode := "episode"

  datatype MediaType = MovieType | EpisodeType | SeasonType | ShowType | Unspecified

  /** The typed ids in the order of `id_values`: movie, episode, season, show */
  datatype IdValues = IdValues(movie: Option<string>, episode: Option<string>,
                               season: Option<string>, show: Option<string>)

  const NoIds := IdValues(None, None, None, None)

  datatype VideoId = VideoId(videoid: Option<string>, ids: IdValues)

  predicate Truthy(v: Option<string>) {
    v.Some? && v.value != ""
  }

  /** The combinations the constructor's validation loop rejects. The loop
      stops at the first of movie, episode and season that is truthy: a
      movie id admits no other id; an episode id needs a season and a show
      id; a season id needs a show id. A show id alone, or no id at all, is
      never checked. */
  predicate Rejected(ids: IdValues) {
    if Truthy(ids.movie) then !(ids.episode.None? && ids.season.None? && ids.show.None?)
    else if Truthy(ids.episode) then ids.season.None? || ids.show.None?
    else if Truthy(ids.season) then ids.show.None?
    else false
  }

  /** `VideoId(movieid, episodeid, seasonid, tvshowid, videoid)`: a truthy
      `videoid` makes an untyped id and every typed id is dropped. */
  function Make(movie: Option<string>, episode: Option<string>, season: Option<string>,
                show: Option<string>, videoid: Option<string>): (r: Result<VideoId>)
    ensures Truthy(videoid) ==> r == Ok(VideoId(videoid, NoIds))
    ensures !Truthy(videoid) ==>
      (r.Err? <==> Rejected(IdValues(movie, episode, season, show)))
    ensures r.Err? ==> r.exc == InvalidVideoId
    ensures r.Ok? && !Truthy(videoid) ==> r.value == VideoId(None, IdValues(movie, episode, season, show))
  {
    if Truthy(videoid) then Ok(VideoId(videoid, NoIds))
    else
      var ids := IdValues(movie, episode, season, show);
      if Rejected(ids) then Err(InvalidVideoId) else Ok(VideoId(None, ids))
  }

  function IdAt(ids: IdValues, index: nat): Option<string>
    requires index < 4
  {
    if index == 0 then ids.movie else if index == 1 then ids.episode
    else if index == 2 then ids.season else ids.show
  }

  /** `_validate(index)`: Ok(true) when the id at `index` is truthy and the
      ids from there on are consistent, Ok(false) when the rule does not
      apply, InvalidVideoId otherwise. */
  function ValidateAt(ids: IdValues, index: nat): Result<bool>
    requires index < 3
  {
    if Truthy(IdAt(ids, index)) then
      var consistent :=
        if index == 0 then ids.episode.None? && ids.season.None? && ids.show.None?
        else forall k | index <= k < 4 :: IdAt(ids, k).Some?;
      if consistent then Ok(true) else Err(InvalidVideoId)
    else Ok(false)
  }

  /** The constructor as the code runs it: the validation loop with `break`. */
  method New(movie: Option<string>, episode: Option<string>, season: Option<string>,
             show: Option<string>, videoid: Option<string>) returns (r: Result<VideoId>)
    ensures r == Make(movie, episode, season, show, videoid)
  {
    if Truthy(videoid) {
      return Ok(VideoId(videoid, NoIds));
    }
    var ids := IdValues(movie, episode, season, show);
    var index := 0;
    while index < 3
      invariant 0 <= index <= 3
      invariant forall k | 0 <= k < index :: !Truthy(IdAt(ids, k))
    {
      var applies := ValidateAt(ids, index);
      if applies.Err? {
        assert IdAt(ids, 0) == ids.movie && IdAt(ids, 1) == ids.episode;
        assert IdAt(ids, 2) == ids.season && IdAt(ids, 3) == ids.show;
        return Err(InvalidVideoId);
      }
      if applies.value {
        assert IdAt(ids, 0) == ids.movie && IdAt(ids, 1) == ids.episode;
        assert IdAt(ids, 2) == ids.season && IdAt(ids, 3) == ids.show;
        return Ok(VideoId(None, ids));
      }
      index := index + 1;
    }
    assert IdAt(ids, 0) == ids.movie && IdAt(ids, 1) == ids.episode && IdAt(ids, 2) == ids.season;
    r := Ok(VideoId(None, ids));
  }

  /** `value`: the untyped id, else the first truthy typed id */
  function Value(v: VideoId): (r: Result<string>)
    ensures r.Ok? ==> r.value != ""
    ensures r.Err? <==> !Truthy(v.videoid) && !Truthy(v.ids.movie) && !Truthy(v.ids.episode) &&
                        !Truthy(v.ids.season) && !Truthy(v.ids.show)
  {
    if Truthy(v.videoid) then Ok(v.videoid.value)
    else if Truthy(v.ids.movie) then Ok(v.ids.movie.value)
    else if Truthy(v.ids.episode) then Ok(v.ids.episode.value)
    else if Truthy(v.ids.season) then Ok(v.ids.season.value)
    else if Truthy(v.ids.show) then Ok(v.ids.show.value)
    else Err(Foreign("StopIteration"))
  }

  function MovieId(v: VideoId): Option<string> {
    if Truthy(v.videoid) then None else v.ids.movie
  }

  function EpisodeId(v: VideoId): Option<string> {
    if Truthy(v.videoid) then None else v.ids.episode
  }

  function SeasonId(v: VideoId): Option<string> {
    if Truthy(v.videoid) then None else v.ids.season
  }

  function TvShowId(v: VideoId): Option<string> {
    if Truthy(v.videoid) then None else v.ids.show
  }

  /** `mediatype`: the position of the first typed id that is not None
      (an empty string counts), `unspecified` for an untyped id; with no
      id at all `next` raises StopIteration. */
  function Mediatype(v: VideoId): (r: Result<MediaType>)
    ensures Truthy(v.videoid) ==> r == Ok(Unspecified)
    ensures r == Ok(MovieType) <==> !Truthy(v.videoid) && v.ids.movie.Some?
    ensures r == Ok(EpisodeType) <==> !Truthy(v.videoid) && v.ids.movie.None? && v.ids.episode.Some?
    ensures r == Ok(SeasonType) <==>
      !Truthy(v.videoid) && v.ids.movie.None? && v.ids.episode.None? && v.ids.season.Some?
    ensures r == Ok(ShowType) <==> !Truthy(v.videoid) && v.ids == IdValues(None, None, None, v.ids.show) && v.ids.show.Some?
    ensures r.Err? <==> !Truthy(v.videoid) && v.ids == NoIds
  {
    if Truthy(v.videoid) then Ok(Unspecified)
    else if v.ids.movie.Some? then Ok(MovieType)
    else if v.ids.episode.Some? then Ok(EpisodeType)
    else if v.ids.season.Some? then Ok(SeasonType)
    else if v.ids.show.Some? then Ok(ShowType)
    else Err(Foreign("StopIteration"))
  }

  /** `to_path`. A show path carries the show id even when it is None. */
  function ToPath(v: VideoId): (r: seq<Option<string>>)
    ensures Truthy(v.videoid) ==> r == [v.videoid]
    ensures !Truthy(v.videoid) ==> |r| >= 2 && r[0] in {Some(Movie), Some(Show)}
  {
    if Truthy(v.videoid) then [v.videoid]
    else if Truthy(MovieId(v)) then [Some(Movie), MovieId(v)]
    else
      [Some(Show), TvShowId(v)]
      + (if Truthy(SeasonId(v)) then [Some(Season), SeasonId(v)] else [])
      + (if Truthy(EpisodeId(v)) then [Some(Episode), EpisodeId(v)] else [])
  }

  /** `from_path`: a path shorter than its type requires raises IndexError */
  function FromPath(p: seq<string>): (r: Result<VideoId>)
    ensures |p| == 0 ==> r == Err(IndexError)
    ensures |p| == 1 && p[0] in {Movie, Show} ==> r == Err(IndexError)
  {
    if |p| == 0 then Err(IndexError)
    else if p[0] == Movie then
      if |p| < 2 then Err(IndexError) else Make(Some(p[1]), None, None, None, None)
    else if p[0] == Show then
      if |p| < 2 then Err(IndexError)
      else Make(None, if |p| > 5 then Some(p[5]) else None, if |p| > 3 then Some(p[3]) else None, Some(p[1]), None)
    else Make(None, None, None, None, Some(p[0]))
  }

  /** A path whose items are all strings */
  function Strings(p: seq<Option<string>>): Option<seq<string>> {
    if forall k | 0 <= k < |p| :: p[k].Some? then Some(seq(|p|, k requires 0 <= k < |p| => p[k].value))
    else None
  }

  /** Every id the value carries is a non-empty string */
  predicate WellFormed(v: VideoId) {
    && (v.videoid.Some? ==> v.videoid.value != "")
    && (v.ids.movie.Some? ==> v.ids.movie.value != "")
    && (v.ids.episode.Some? ==> v.ids.episode.value != "")
    && (v.ids.season.Some? ==> v.ids.season.value != "")
    && (v.ids.show.Some? ==> v.ids.show.value != "")
  }

  /** What the constructor can return */
  predicate Constructed(v: VideoId) {
    if v.videoid.Some? then Truthy(v.videoid) && v.ids == NoIds
    else !Rejected(v.ids)
  }

  /** Parsing the path of a well-formed id gives the id back, for every
      typed id and for untyped ids other than `movie` and `show`. */
  lemma FromPathToPath(v: VideoId)
    requires Constructed(v) && WellFormed(v)
    requires v.videoid.Some? ==> v.videoid.value !in {Movie, Show}
    requires v.videoid.None? && v.ids.movie.None? ==> v.ids.show.Some?
    ensures Strings(ToPath(v)).Some?
    ensures FromPath(Strings(ToPath(v)).value) == Ok(v)
  {
    var p := Strings(ToPath(v)).value;
    if v.videoid.None? && v.ids.movie.None? {
      if v.ids.episode.Some? {
        assert p == [Show, v.ids.show.value, Season, v.ids.season.value, Episode, v.ids.episode.value];
      } else if v.ids.season.Some? {
        assert p == [Show, v.ids.show.value, Season, v.ids.season.value];
      } else {
        assert p == [Show, v.ids.show.value];
      }
    }
  }

  /** An untyped id whose value is `movie` does not survive the round trip */
  lemma UntypedMovieIdIsLost()
    ensures FromPath(Strings(ToPath(VideoId(Some(Movie), NoIds))).value) == Err(IndexError)
  {
    assert Strings(ToPath(VideoId(Some(Movie), NoIds))).value == [Movie];
  }

  /** `to_list` gives the bare untyped id, or the present ids reversed */
  datatype Listed = Bare(id: string) | Parts(ids: seq<string>)

  function TruthyIds(ids: IdValues): seq<string> {
    (if Truthy(ids.movie) then [ids.movie.value] else [])
    + (if Truthy(ids.episode) then [ids.episode.value] else [])
    + (if Truthy(ids.season) then [ids.season.value] else [])
    + (if Truthy(ids.show) then [ids.show.value] else [])
  }

  function Reverse(s: seq<string>): (r: seq<string>)
    ensures |r| == |s|
    ensures forall k | 0 <= k < |s| :: r[k] == s[|s| - 1 - k]
  {
    if s == [] then [] else Reverse(s[1..]) + [s[0]]
  }

  /** `to_list`: the untyped value, or the truthy ids ordered show, season,
      episode (movie last, which only a rejected combination would have) */
  function ToList(v: VideoId): (r: Listed)
    ensures Truthy(v.videoid) ==> r == Bare(v.videoid.value)
  {
    if Truthy(v.videoid) then Bare(v.videoid.value)
    else
      var path := TruthyIds(v.ids);
      Parts(if |path| > 1 then Reverse(path) else path)
  }

  lemma ToListOfEpisode(v: VideoId)
    requires v.videoid.None? && v.ids.movie.None?
    requires Truthy(v.ids.episode) && Truthy(v.ids.season) && Truthy(v.ids.show)
    ensures ToList(v) == Parts([v.ids.show.value, v.ids.season.value, v.ids.episode.value])
  {
    assert TruthyIds(v.ids) == [v.ids.episode.value, v.ids.season.value, v.ids.show.value];
  }

  lemma ToListOfSeason(v: VideoId)
    requires v.videoid.None? && v.ids.movie.None? && v.ids.episode.None?
    requires Truthy(v.ids.season) && Truthy(v.ids.show)
    ensures ToList(v) == Parts([v.ids.show.value, v.ids.season.value])
  {
    assert TruthyIds(v.ids) == [v.ids.season.value, v.ids.show.value];
  }

  function MediatypeName(m: MediaType): string {
    match m
    case MovieType => Movie
    case EpisodeType => Episode
    case SeasonType => Season
    case ShowType => Show
    case Unspecified => "unspecified"
  }

  /** `__str__`: the mediatype name, `_` and the value. `__hash__` hashes
      this string, and `'{}.cache'.format(v)` names the cache file after it. */
  function Str(v: VideoId): (r: Result<string>)
    ensures r.Ok? <==> Mediatype(v).Ok? && Value(v).Ok?
    ensures r.Ok? ==> r.value == MediatypeName(Mediatype(v).value) + "_" + Value(v).value
  {
    var m :- Mediatype(v);
    var value :- Value(v);
    Ok(MediatypeName(m) + "_" + value)
  }

  /** Two show ids print alike exactly when they are equal, so keying a show
      id by its string agrees with `__eq__`. */
  lemma ShowStrIsInjective(a: string, b: string)
    requires a != "" && b != ""
    ensures Str(VideoId(None, IdValues(None, None, None, Some(a)))).Ok?
    ensures Str(VideoId(None, IdValues(None, None, None, Some(a)))) == Str(VideoId(None, IdValues(None, None, None, Some(b))))
            <==> a == b
  {
    var sa, sb := Show + "_" + a, Show + "_" + b;
    if sa == sb {
      assert sa[5..] == a && sb[5..] == b;
    }
  }

  /** `to_dict`: the mediatype plus the untyped id, the movie id, or the
      show, season and episode ids that are not None */
  function ToDict(v: VideoId): (r: Result<map<string, string>>)
    ensures r.Ok? <==> Mediatype(v).Ok?
    ensures r.Ok? ==> "mediatype" in r.value && r.value["mediatype"] == MediatypeName(Mediatype(v).value)
    ensures r.Ok? && Truthy(v.videoid) ==> r.value.Keys == {"mediatype", "videoid"}
    ensures r.Ok? && !Truthy(v.videoid) && Truthy(v.ids.movie) ==> r.value.Keys == {"mediatype", "movieid"}
    ensures r.Ok? ==> "movieid" in r.value ==> Truthy(v.ids.movie)
  {
    var m :- Mediatype(v);
    var base := map["mediatype" := MediatypeName(m)];
    if Truthy(v.videoid) then Ok(base["videoid" := v.videoid.value])
    else if Truthy(MovieId(v)) then Ok(base["movieid" := MovieId(v).value])
    else
      var withShow := if TvShowId(v).Some? then base["tvshowid" := TvShowId(v).value] else base;
      var withSeason := if SeasonId(v).Some? then withShow["seasonid" := SeasonId(v).value] else withShow;
      Ok(if EpisodeId(v).Some? then withSeason["episodeid" := EpisodeId(v).value] else withSeason)
  }

  /** `derive_season`: only a show can be narrowed to a season. The error
      message formats the id through `__str__`, which reads `value`, so an
      id without a truthy value raises `StopIteration` instead. */
  function DeriveSeason(v: VideoId, seasonId: string): (r: Result<VideoId>)
    ensures Mediatype(v) != Ok(ShowType) ==> r.Err?
    ensures Mediatype(v).Ok? && Mediatype(v) != Ok(ShowType) ==>
      (r == Err(InvalidVideoId) <==> Value(v).Ok?) &&
      (Value(v).Err? ==> r == Err(Foreign("StopIteration")))
    ensures Mediatype(v) == Ok(ShowType) ==>
      r == Ok(VideoId(None, IdValues(None, None, Some(seasonId), v.ids.show)))
    ensures r.Ok? ==> Mediatype(r.value) == Ok(SeasonType)
  {
    var m :- Mediatype(v);
    if m != ShowType then
      var _ :- Value(v);
      Err(InvalidVideoId)
    else Make(None, None, Some(seasonId), TvShowId(v), None)
  }

  /** `derive_episode`: only a season can be narrowed to an episode; the
      error message fails as in `DeriveSeason` for an id without a truthy
      value. */
  function DeriveEpisode(v: VideoId, episodeId: string): (r: Result<VideoId>)
    ensures Mediatype(v) != Ok(SeasonType) ==> r.Err?
    ensures Mediatype(v).Ok? && Mediatype(v) != Ok(SeasonType) ==>
      (r == Err(InvalidVideoId) <==> Value(v).Ok?) &&
      (Value(v).Err? ==> r == Err(Foreign("StopIteration")))
    ensures Mediatype(v) == Ok(SeasonType) && v.ids.show.Some? ==>
      r == Ok(VideoId(None, IdValues(None, Some(episodeId), v.ids.season, v.ids.show)))
    ensures r.Ok? ==> Mediatype(r.value) == Ok(EpisodeType)
  {
    var m :- Mediatype(v);
    if m != SeasonType then
      var _ :- Value(v);
      Err(InvalidVideoId)
    else Make(None, Some(episodeId), SeasonId(v), TvShowId(v), None)
  }

  /** The movie id parsed from `movie/` has no truthy value, so narrowing
      it to a season fails while formatting the error message. */
  lemma EmptyMovieDerivesStopIteration()
    ensures FromPath([Movie, ""]).Ok?
    ensures DeriveSeason(FromPath([Movie, ""]).value, "1") == Err(Foreign("StopIteration"))
  {
    assert FromPath([Movie, ""]) == Ok(VideoId(None, IdValues(Some(""), None, None, None)));
  }

  /** Python's `items[n:]`, empty past the end */
  function Drop(items: seq<string>, n: nat): (r: seq<string>)
    ensures n <= |items| ==> r == items[n..]
    ensures n > |items| ==> r == []
  {
    if n <= |items| then items[n..] else []
  }

  /** Python's `items[:n]`, everything past the end */
  function Take(items: seq<string>, n: nat): (r: seq<string>)
    ensures n <= |items| ==> r == items[..n]
    ensures n > |items| ==> r == items
  {
    if n <= |items| then items[..n] else items
  }

  /** A keyword argument of a decorated navigation function */
  datatype KwArg = Items(items: seq<string>) | Video(id: VideoId)

  /** `inject_video_id`: the path items after `offset` become the `videoid`
      argument; the remaining items replace the path items argument, or it
      is deleted. A missing path items argument raises a plain Exception. */
  function InjectVideoId(kwargs: map<string, KwArg>, pathOffset: nat, pathitemsArg: string,
                         injectRemaining: bool): (r: Result<map<string, KwArg>>)
    ensures pathitemsArg !in kwargs ==> r == Err(Foreign("Exception"))
    ensures r.Ok? ==> "videoid" in r.value || pathitemsArg == "videoid"
    ensures pathitemsArg in kwargs && kwargs[pathitemsArg].Items? && pathitemsArg != "videoid" ==>
      var items := kwargs[pathitemsArg].items;
      && (r.Ok? <==> FromPath(Drop(items, pathOffset)).Ok?)
      && (r.Ok? ==> r.value["videoid"] == Video(FromPath(Drop(items, pathOffset)).value))
      && (r.Ok? && injectRemaining ==>
            pathitemsArg in r.value && r.value[pathitemsArg] == Items(Take(items, pathOffset)))
      && (r.Ok? && !injectRemaining ==> pathitemsArg !in r.value)
      && (r.Ok? ==> forall k | k in kwargs && k !in {"videoid", pathitemsArg} :: k in r.value && r.value[k] == kwargs[k])
  {
    if pathitemsArg !in kwargs then Err(Foreign("Exception"))
    else if !kwargs[pathitemsArg].Items? then Err(TypeError)
    else
      var items := kwargs[pathitemsArg].items;
      var v :- FromPath(Drop(items, pathOffset));
      var injected := kwargs["videoid" := Video(v)];
      if injectRemaining then
        if injected[pathitemsArg].Items? then Ok(injected[pathitemsArg := Items(Take(items, pathOffset))])
        else Err(TypeError)
      else Ok(injected - {pathitemsArg})
  }
}
