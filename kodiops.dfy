/** Lookups of resources/lib/common/kodiops.py over Netflix metadata:
    `find_season`, `find_episode` and the source of localized strings. */
module KodiOps {
  import opened Wrappers
  import opened Json

  /** `for x in j` as the lookups use it. A list yields its items. An empty
      dict or string yields nothing. A non-empty dict or string yields
      strings that the next subscript with `'id'` or `'episodes'` rejects,
      so the lookup fails with `TypeError`, as it does on a value that is
      not iterable. */
  function Items(j: Json): (r: Result<seq<Json>>)
    ensures j.JList? ==> r == Ok(j.items)
    ensures r.Err? ==> r.exc == TypeError
  {
    match j
    case JList(xs) => Ok(xs)
    case JObj(m) => if m == map[] then Ok([]) else Err(TypeError)
    case JStr(s) => if s == "" then Ok([]) else Err(TypeError)
    case _ => Err(TypeError)
  }

  /** `str(x['id']) == id` for an item whose id can be read */
  predicate HasId(x: Json, id: string) {
    Index(x, "id").Ok? && Str(Index(x, "id").value) == id
  }

  /** What a failed lookup gives: `KeyError`, or `{}` when `raise_exc` is off */
  function NotFound(raiseExc: bool): Result<Json> {
    if raiseExc then Err(KeyError) else Ok(JObj(map[]))
  }

  /** `find_season`: the first season whose id prints as `seasonId`. Reading
      the id of an earlier season can raise. */
  function FindSeason(seasonId: string, seasons: seq<Json>, raiseExc: bool): (r: Result<Json>)
    ensures |seasons| > 0 && HasId(seasons[0], seasonId) ==> r == Ok(seasons[0])
    ensures r.Ok? && r != NotFound(raiseExc) ==> r.value in seasons && HasId(r.value, seasonId)
    ensures (forall k | 0 <= k < |seasons| :: Index(seasons[k], "id").Ok? && !HasId(seasons[k], seasonId)) ==>
      r == NotFound(raiseExc)
    decreases |seasons|
  {
    if |seasons| == 0 then NotFound(raiseExc)
    else
      var id := Index(seasons[0], "id");
      if id.Err? then Err(id.exc)
      else if Str(id.value) == seasonId then Ok(seasons[0])
      else FindSeason(seasonId, seasons[1..], raiseExc)
  }

  /** The first season with a matching id is the one found, provided every
      earlier season has a readable id. */
  lemma {:induction false} FindSeasonFindsFirst(seasonId: string, seasons: seq<Json>, raiseExc: bool, k: nat)
    requires k < |seasons| && HasId(seasons[k], seasonId)
    requires forall j | 0 <= j < k :: Index(seasons[j], "id").Ok? && !HasId(seasons[j], seasonId)
    ensures FindSeason(seasonId, seasons, raiseExc) == Ok(seasons[k])
    decreases k
  {
    if k > 0 {
      assert Index(seasons[0], "id").Ok? && !HasId(seasons[0], seasonId);
      FindSeasonFindsFirst(seasonId, seasons[1..], raiseExc, k - 1);
    }
  }

  /** The first episode of `episodes` whose id prints as `episodeId`, None
      when there is none */
  function FindInSeason(episodeId: string, episodes: seq<Json>): (r: Result<Option<Json>>)
    ensures r.Ok? && r.value.Some? ==> r.value.value in episodes && HasId(r.value.value, episodeId)
    ensures (forall k | 0 <= k < |episodes| :: Index(episodes[k], "id").Ok? && !HasId(episodes[k], episodeId)) ==>
      r == Ok(None)
    decreases |episodes|
  {
    if |episodes| == 0 then Ok(None)
    else
      var id := Index(episodes[0], "id");
      if id.Err? then Err(id.exc)
      else if Str(id.value) == episodeId then Ok(Some(episodes[0]))
      else FindInSeason(episodeId, episodes[1..])
  }

  /** The episodes a season iterates over: `season['episodes']` */
  function EpisodesOf(season: Json): Result<seq<Json>> {
    var episodes :- Index(season, "episodes");
    Items(episodes)
  }

  /** `find_episode`: seasons in order, then episodes in order; the first
      episode whose id prints as `episodeId`. */
  function FindEpisode(episodeId: string, seasons: seq<Json>, raiseExc: bool): (r: Result<Json>)
    ensures r.Ok? && r != NotFound(raiseExc) ==>
      exists k :: 0 <= k < |seasons| && EpisodesOf(seasons[k]).Ok? && r.value in EpisodesOf(seasons[k]).value
    ensures r.Ok? && r != NotFound(raiseExc) ==> HasId(r.value, episodeId)
    ensures |seasons| == 0 ==> r == NotFound(raiseExc)
    decreases |seasons|
  {
    if |seasons| == 0 then NotFound(raiseExc)
    else
      match EpisodesOf(seasons[0])
      case Err(e) => Err(e)
      case Ok(episodes) =>
        match FindInSeason(episodeId, episodes)
        case Err(e) => Err(e)
        case Ok(Some(episode)) => Ok(episode)
        case Ok(None) =>
          var r := FindEpisode(episodeId, seasons[1..], raiseExc);
          assert r.Ok? && r != NotFound(raiseExc) ==>
            exists k :: 1 <= k < |seasons| && EpisodesOf(seasons[k]).Ok? && r.value in EpisodesOf(seasons[k]).value by {
            if r.Ok? && r != NotFound(raiseExc) {
              var k :| 0 <= k < |seasons[1..]| && EpisodesOf(seasons[1..][k]).Ok? && r.value in EpisodesOf(seasons[1..][k]).value;
              assert seasons[1..][k] == seasons[k + 1];
            }
          }
          r
  }

  /** An episode that none of the earlier seasons contains is found in the
      first season that contains it. */
  lemma {:induction false} FindEpisodeSearchesSeasonsInOrder(episodeId: string, seasons: seq<Json>, raiseExc: bool, k: nat)
    requires k < |seasons|
    requires forall j | 0 <= j < k :: EpisodesOf(seasons[j]).Ok? && FindInSeason(episodeId, EpisodesOf(seasons[j]).value) == Ok(None)
    requires EpisodesOf(seasons[k]).Ok? && FindInSeason(episodeId, EpisodesOf(seasons[k]).value).Ok?
    requires FindInSeason(episodeId, EpisodesOf(seasons[k]).value).value.Some?
    ensures FindEpisode(episodeId, seasons, raiseExc) == Ok(FindInSeason(episodeId, EpisodesOf(seasons[k]).value).value.value)
    decreases k
  {
    if k > 0 {
      var later := seasons[1..];
      forall j | 0 <= j < k - 1
        ensures EpisodesOf(later[j]).Ok? && FindInSeason(episodeId, EpisodesOf(later[j]).value) == Ok(None)
      {
        assert later[j] == seasons[j + 1];
      }
      assert later[k - 1] == seasons[k];
      FindEpisodeSearchesSeasonsInOrder(episodeId, later, raiseExc, k - 1);
      FindEpisodeSkipsSeason(episodeId, seasons, raiseExc);
    }
  }

  /** A season without the episode passes the search on to the next. */
  lemma FindEpisodeSkipsSeason(episodeId: string, seasons: seq<Json>, raiseExc: bool)
    requires |seasons| > 0 && EpisodesOf(seasons[0]).Ok?
    requires FindInSeason(episodeId, EpisodesOf(seasons[0]).value) == Ok(None)
    ensures FindEpisode(episodeId, seasons, raiseExc) == FindEpisode(episodeId, seasons[1..], raiseExc)
  {
  }

  datatype StringSource = KodiCore | AddonStrings

  /** `get_local_string`: ids below 30000 belong to Kodi itself */
  function LocalStringSource(stringId: int): (src: StringSource)
    ensures src == KodiCore <==> stringId < 30000
  {
    if stringId < 30000 then KodiCore else AddonStrings
  }
}
