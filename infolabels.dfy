/** Infolabels and art of list items, resources/lib/kodi/infolabels.py:
    the parsing of a Shakti path response into Kodi infolabels, stream
    quality and art, and the read-or-populate use of the metadata caches
    by `add_info` and `add_art`. */
module InfoLabels {
  import opened Wrappers
  import opened Json
  import Cache

  /** Where an infolabel's value comes from: a key of the item, or a path
      walked with `get_path_safe` */
  datatype Source = Key(key: string) | PathTo(keys: seq<string>)

  /** The environment that `parse_info` consults: the tables it reads as
      `paths.INFO_MAPPINGS` and `paths.INFO_TRANSFORMATIONS`, the person
      lists `paths.resolve_refs` yields per `paths.REFERENCE_MAPPINGS`
      target, the order in which a dict yields its values, and the
      `enable_dolby_sound` setting. resources/lib/api/paths.py defines none
      of these four names (as written, the lookup raises `AttributeError`),
      so the tables are parameters here. */
  datatype InfoEnv = InfoEnv(
    mappings: map<string, Source>,
    transforms: map<string, Json -> Json>,
    references: map<string, Json>,
    iterValues: map<string, Json> -> seq<Json>,
    dolby: bool)

  /** What the artwork paths of `parse_art` yield for an item: the large
      (FHD), small (SD) and poster boxarts, the FHD interesting moment, the
      clear logo and the first background image; `JNull` when absent */
  datatype ArtSources = ArtSources(
    boxartLarge: Json, boxartSmall: Json, poster: Json,
    interestingMoment: Json, clearlogo: Json, fanart: Json)

  const Season: Json := JStr("season")
  const TvShow: Json := JStr("tvshow")
  const Episode: Json := JStr("episode")
  const Movie: Json := JStr("movie")

  /** The Kodi media type of an item summary: no type means a season, and
      Netflix's `show` is Kodi's `tvshow`. */
  function MediaType(summary: Json): (r: Result<Json>)
    ensures r.Err? <==> !summary.JObj?
    ensures summary.JObj? && "type" !in summary.fields ==> r == Ok(Season)
    ensures summary.JObj? && "type" in summary.fields ==>
      r == Ok(if summary.fields["type"] == JStr("show") then TvShow else summary.fields["type"])
  {
    var t :- Get(summary, "type", Season);
    Ok(if t == JStr("show") then TvShow else t)
  }

  /** The show title an item's infolabels carry, if any */
  function ShowTitle(item: Json, rawData: Json, tvshowId: string, mediatype: Json): (r: Result<Option<Json>>)
    ensures mediatype == TvShow ==> r == (var t :- Index(item, "title"); Ok(Some(t)))
    ensures mediatype != TvShow && tvshowId != "" && mediatype in {Season, Episode} ==>
      r == (var t :- GetPath(rawData, ["videos", tvshowId, "title"]); Ok(Some(t)))
    ensures mediatype != TvShow && !(tvshowId != "" && mediatype in {Season, Episode}) ==> r == Ok(None)
  {
    if mediatype == TvShow then
      var t :- Index(item, "title");
      Ok(Some(t))
    else if tvshowId != "" && mediatype in {Season, Episode} then
      var t :- GetPath(rawData, ["videos", tvshowId, "title"]);
      Ok(Some(t))
    else Ok(None)
  }

  /** The value an infolabel source yields: a dict or None counts as
      absent. */
  function MappedValue(item: map<string, Json>, source: Source): (v: Option<Json>)
    ensures v.Some? ==> !v.value.JObj? && v.value != JNull
    ensures source.Key? ==> v == (if source.key in item && !item[source.key].JObj? && item[source.key] != JNull
                                  then Some(item[source.key]) else None)
  {
    var raw := match source
      case Key(k) => if k in item then item[k] else JNull
      case PathTo(ks) => var w := GetPath(JObj(item), ks); if w.Ok? then w.value else JNull;
    if raw.JObj? || raw == JNull then None else Some(raw)
  }

  /** The infolabels of `INFO_MAPPINGS`: present values only, transformed
      where a transformation is declared */
  function Mapped(item: map<string, Json>, env: InfoEnv): (m: map<string, Json>)
    ensures forall t :: t in m <==> t in env.mappings && MappedValue(item, env.mappings[t]).Some?
    ensures forall t :: t in m && t !in env.transforms ==> m[t] == MappedValue(item, env.mappings[t]).value
    ensures forall t :: t in m && t in env.transforms ==> m[t] == env.transforms[t](MappedValue(item, env.mappings[t]).value)
  {
    map t | t in env.mappings && MappedValue(item, env.mappings[t]).Some? ::
      var v := MappedValue(item, env.mappings[t]).value;
      if t in env.transforms then env.transforms[t](v) else v
  }

  /** The tag names of `parse_info`: every tag definition must be a dict,
      and only names that are strings are kept. */
  function TagNames(tagdefs: seq<Json>): (r: Result<seq<Json>>)
    ensures r.Ok? <==> forall k :: 0 <= k < |tagdefs| ==> tagdefs[k].JObj?
    ensures r.Err? ==> r.exc == AttributeError
    ensures r.Ok? ==> forall x :: x in r.value ==>
      x.JStr? && exists k :: 0 <= k < |tagdefs| && "name" in tagdefs[k].fields && tagdefs[k].fields["name"] == x
    ensures r.Ok? ==> forall k :: 0 <= k < |tagdefs| && "name" in tagdefs[k].fields && tagdefs[k].fields["name"].JStr? ==>
      tagdefs[k].fields["name"] in r.value
    ensures r.Ok? ==> |r.value| <= |tagdefs|
  {
    if tagdefs == [] then Ok([])
    else
      var name :- Get(tagdefs[0], "name", JObj(map[]));
      var rest :- TagNames(tagdefs[1..]);
      assert forall k :: 1 <= k < |tagdefs| ==> tagdefs[k] == tagdefs[1..][k - 1];
      Ok(if name.JStr? then [name] + rest else rest)
  }

  /** A video quality infolabel */
  function Video(codec: string, width: string, height: string): Json {
    JObj(map["codec" := JStr(codec), "width" := JStr(width), "height" := JStr(height)])
  }

  /** `get_quality_infos`: nothing without delivery info; otherwise HD
      beats Ultra HD, which beats SD, and 5.1 audio has six channels. */
  function QualityInfos(item: Json, dolby: bool): (r: Result<map<string, Json>>)
    ensures !item.JObj? ==> r == Err(AttributeError)
    ensures item.JObj? ==> var delivery := if "delivery" in item.fields then item.fields["delivery"] else JNull;
      && (!Truthy(delivery) ==> r == Ok(map[]))
      && (Truthy(delivery) && !delivery.JObj? ==> r == Err(AttributeError))
      && (Truthy(delivery) && delivery.JObj? ==> (r.Ok? && r.value.Keys == {"video", "audio"} &&
          r.value["video"] == (if "hasHD" in delivery.fields && Truthy(delivery.fields["hasHD"]) then Video("h264", "1920", "1080")
                               else if "hasUltraHD" in delivery.fields && Truthy(delivery.fields["hasUltraHD"]) then Video("h265", "3840", "2160")
                               else Video("h264", "960", "540")) &&
          r.value["audio"] == JObj(map[
            "channels" := JInt(if "has51Audio" in delivery.fields && Truthy(delivery.fields["has51Audio"]) then 6 else 2),
            "codec" := JStr(if dolby then "eac3" else "aac")])))
  {
    var delivery :- Get(item, "delivery", JNull);
    if !Truthy(delivery) then Ok(map[])
    else if !delivery.JObj? then Err(AttributeError)
    else
      var video := if Flag(delivery.fields, "hasHD") then Video("h264", "1920", "1080")
                   else if Flag(delivery.fields, "hasUltraHD") then Video("h265", "3840", "2160")
                   else Video("h264", "960", "540");
      var audio := map["channels" := JInt(if Flag(delivery.fields, "has51Audio") then 6 else 2)];
      Ok(map["video" := video, "audio" := JObj(audio["codec" := JStr(if dolby then "eac3" else "aac")])])
  }

  /** `d.get(key)` taken as a condition */
  predicate Flag(d: map<string, Json>, key: string) {
    key in d && Truthy(d[key])
  }

  /** The infolabels in the order `parse_info` assigns them */
  function Assemble(base: map<string, Json>, mapped: map<string, Json>, references: map<string, Json>,
                    tags: seq<Json>): (r: map<string, Json>)
    ensures "tag" in r && r["tag"] == JList(tags)
    ensures forall t :: t in mapped && t !in references && t != "tag" ==> t in r && r[t] == mapped[t]
    ensures forall t :: t in base && t !in mapped && t !in references && t != "tag" ==> t in r && r[t] == base[t]
    ensures forall t :: t !in base && t !in mapped && t !in references && t != "tag" ==> t !in r
  {
    base + mapped + references + map["tag" := JList(tags)]
  }

  /** `parse_info`: the infolabels, assigned in the order of the source
      (later assignments win), and the quality infos */
  function ParseInfo(item: Json, rawData: Json, tvshowId: string, env: InfoEnv)
    : (r: Result<(map<string, Json>, map<string, Json>)>)
    ensures r.Ok? ==> item.JObj? && "summary" in item.fields
    ensures r.Ok? ==> QualityInfos(item, env.dolby) == Ok(r.value.1)
    ensures r.Ok? ==> ("tag" in r.value.0 && r.value.0["tag"].JList? &&
      forall x :: x in r.value.0["tag"].items ==> x.JStr?)
    ensures r.Ok? ==> forall t :: t in env.mappings && t !in env.references && t !in {"tag", "mediatype", "tvshowtitle"} ==>
      (t in r.value.0 <==> MappedValue(item.fields, env.mappings[t]).Some?)
    ensures r.Ok? ==> forall t :: t in Mapped(item.fields, env) && t !in env.references && t != "tag" ==>
      t in r.value.0 && r.value.0[t] == Mapped(item.fields, env)[t]
    ensures r.Ok? && "mediatype" !in env.mappings && "mediatype" !in env.references ==>
      "mediatype" in r.value.0 && MediaType(item.fields["summary"]) == Ok(r.value.0["mediatype"])
    ensures r.Ok? && "tvshowtitle" !in env.mappings && "tvshowtitle" !in env.references ==>
      MediaType(item.fields["summary"]).Ok? &&
      var title := ShowTitle(item, rawData, tvshowId, MediaType(item.fields["summary"]).value);
      title.Ok? && ("tvshowtitle" in r.value.0 <==> title.value.Some?) &&
      (title.value.Some? ==> r.value.0["tvshowtitle"] == title.value.value)
  {
    var summary :- Index(item, "summary");
    var mediatype :- MediaType(summary);
    var quality :- QualityInfos(item, env.dolby);
    var title :- ShowTitle(item, rawData, tvshowId, mediatype);
    var tagSource := if "tags" in item.fields then item.fields["tags"] else JObj(map[]);
    var tagFields :- if tagSource.JObj? then Ok(tagSource.fields) else Err(AttributeError);
    var tags :- TagNames(env.iterValues(tagFields));
    var base := map["mediatype" := mediatype];
    var base := if title.Some? then base["tvshowtitle" := title.value] else base;
    Ok((Assemble(base, Mapped(item.fields, env), env.references, tags), quality))
  }

  /** A fetched infolabel cache entry */
  function InfoEntry(infos: Json, quality: Json): Json {
    JObj(map["infos" := infos, "quality_infos" := quality])
  }

  /** The cache half of `add_info`: a cached entry is read; on a miss the
      item is parsed and added with the metadata TTL and written to disk. */
  function FetchInfoSpec(s: Cache.Store<Json>, c: Cache.Config, item: Json, itemId: Cache.Identifier,
                         rawData: Json, tvshowId: string, env: InfoEnv, now: int)
    : (r: (Result<(Json, Json)>, Cache.Store<Json>))
  {
    var got := Cache.GetSpec(s, c, Cache.CacheInfolabels, itemId, now);
    if got.0.Ok? then
      var i := Index(got.0.value, "infos");
      var q := Index(got.0.value, "quality_infos");
      (if i.Err? then Err(i.exc) else if q.Err? then Err(q.exc) else Ok((i.value, q.value)), got.1)
    else if got.0.exc != CacheMiss then (Err(got.0.exc), got.1)
    else
      var parsed := ParseInfo(item, rawData, tvshowId, env);
      if parsed.Err? then (Err(parsed.exc), got.1)
      else
        var infos := JObj(parsed.value.0);
        var quality := JObj(parsed.value.1);
        var added := Cache.AddSpec(got.1, c, Cache.CacheInfolabels, itemId, InfoEntry(infos, quality),
                                   Some(c.metadataTtl), true, now);
        (Ok((infos, quality)), added.1)
  }

  /** The list item properties the model tracks */
  datatype ItemView = ItemView(info: Json, playable: bool, streams: map<string, Json>, art: Json)

  /** The list item half of `add_info`: set the infolabels, mark episodes
      and movies playable, add one stream info per quality entry. */
  function ApplyInfoSpec(v: ItemView, infos: Json, quality: Json): (r: (Result<()>, ItemView))
    ensures r.1.info == infos && r.1.art == v.art
    ensures r.0.Ok? <==> infos.JObj? && "mediatype" in infos.fields && quality.JObj?
    ensures r.0.Ok? ==> r.1.playable == (v.playable || infos.fields["mediatype"] in {Episode, Movie})
    ensures r.0.Ok? ==> r.1.streams == v.streams + quality.fields
  {
    var v := v.(info := infos);
    var mediatype := Index(infos, "mediatype");
    if mediatype.Err? then (Err(mediatype.exc), v)
    else
      var v := if mediatype.value in {Episode, Movie} then v.(playable := true) else v;
      if !quality.JObj? then (Err(AttributeError), v)
      else (Ok(()), v.(streams := v.streams + quality.fields))
  }

  /** `parse_art`: fanart comes from the background image, else the
      interesting moment, else the boxart; episodes show the interesting
      moment as thumb and landscape. */
  function ParseArt(item: Json, a: ArtSources): (r: Result<map<string, Json>>)
    ensures r.Err? ==> Truthy(a.interestingMoment)
    ensures r.Ok? ==> ("fanart" in r.value <==>
      Truthy(a.fanart) || Truthy(a.interestingMoment) || Truthy(a.boxartLarge) || Truthy(a.boxartSmall))
    ensures r.Ok? && "fanart" in r.value ==>
      r.value["fanart"] == (if Truthy(a.fanart) then a.fanart
                            else if Truthy(a.interestingMoment) then a.interestingMoment
                            else if Truthy(a.boxartLarge) then a.boxartLarge else a.boxartSmall)
    ensures r.Ok? ==> ("thumb" in r.value <==> "landscape" in r.value)
    ensures r.Ok? && "thumb" in r.value ==> r.value["thumb"] == r.value["landscape"]
    ensures r.Ok? && Truthy(a.interestingMoment) && IsEpisode(item) ==>
      "thumb" in r.value && r.value["thumb"] == a.interestingMoment
    ensures r.Ok? && !(Truthy(a.interestingMoment) && IsEpisode(item)) ==>
      ("thumb" in r.value <==> Truthy(a.boxartLarge) || Truthy(a.boxartSmall)) &&
      ("thumb" in r.value ==> r.value["thumb"] == (if Truthy(a.boxartLarge) then a.boxartLarge else a.boxartSmall))
    ensures r.Ok? ==> ("poster" in r.value <==> Truthy(a.poster)) && ("poster" in r.value ==> r.value["poster"] == a.poster)
    ensures r.Ok? ==> ("clearlogo" in r.value <==> Truthy(a.clearlogo)) &&
                      ("clearlogo" in r.value ==> r.value["clearlogo"] == a.clearlogo)
  {
    var art := BaseArt(a);
    var art :-
      if Truthy(a.interestingMoment) then
        var moment := art["fanart" := a.interestingMoment];
        var episode :- EpisodeType(item);
        Ok(if episode then moment["thumb" := a.interestingMoment]["landscape" := a.interestingMoment] else moment)
      else Ok(art);
    Ok(if Truthy(a.fanart) then art["fanart" := a.fanart] else art)
  }

  /** The art before the interesting moment and the background image:
      the boxart as thumb, landscape and fanart, the poster and the logo */
  function BaseArt(a: ArtSources): (art: map<string, Json>)
    ensures var boxart := Truthy(a.boxartLarge) || Truthy(a.boxartSmall);
            && ("thumb" in art <==> boxart) && ("landscape" in art <==> boxart) && ("fanart" in art <==> boxart)
            && (boxart ==> art["thumb"] == art["landscape"] == art["fanart"] ==
                             if Truthy(a.boxartLarge) then a.boxartLarge else a.boxartSmall)
    ensures ("poster" in art <==> Truthy(a.poster)) && ("poster" in art ==> art["poster"] == a.poster)
    ensures ("clearlogo" in art <==> Truthy(a.clearlogo)) && ("clearlogo" in art ==> art["clearlogo"] == a.clearlogo)
  {
    var boxart := if Truthy(a.boxartLarge) then a.boxartLarge else a.boxartSmall;
    var art := if Truthy(a.boxartLarge) || Truthy(a.boxartSmall)
               then map["thumb" := boxart, "landscape" := boxart, "fanart" := boxart] else map[];
    var art := if Truthy(a.poster) then art["poster" := a.poster] else art;
    if Truthy(a.clearlogo) then art["clearlogo" := a.clearlogo] else art
  }

  /** `item.get('summary', {}).get('type') == 'episode'` */
  function EpisodeType(item: Json): (r: Result<bool>)
    ensures r.Ok? <==> item.JObj? && ("summary" !in item.fields || item.fields["summary"].JObj?)
    ensures r.Ok? ==> (r.value <==> IsEpisode(item))
  {
    var summary :- Get(item, "summary", JObj(map[]));
    var t :- Get(summary, "type", JNull);
    Ok(t == Episode)
  }

  predicate IsEpisode(item: Json) {
    item.JObj? && "summary" in item.fields && item.fields["summary"].JObj? &&
    "type" in item.fields["summary"].fields && item.fields["summary"].fields["type"] == Episode
  }

  /** The cache half of `add_art` */
  function FetchArtSpec(s: Cache.Store<Json>, c: Cache.Config, item: Json, sources: ArtSources,
                        itemId: Cache.Identifier, now: int): (r: (Result<Json>, Cache.Store<Json>))
  {
    var got := Cache.GetSpec(s, c, Cache.CacheArtinfo, itemId, now);
    if got.0.Ok? then (Ok(got.0.value), got.1)
    else if got.0.exc != CacheMiss then (Err(got.0.exc), got.1)
    else
      var parsed := ParseArt(item, sources);
      if parsed.Err? then (Err(parsed.exc), got.1)
      else
        var added := Cache.AddSpec(got.1, c, Cache.CacheArtinfo, itemId, JObj(parsed.value), Some(c.metadataTtl), true, now);
        (Ok(JObj(parsed.value)), added.1)
  }

  /** On a miss, `add_info` parses the item and adds the entry with the
      metadata TTL, on disk too when the disk can be written. */
  lemma MissParsesAndStores(s: Cache.Store<Json>, c: Cache.Config, item: Json, itemId: Cache.Identifier,
                            rawData: Json, tvshowId: string, env: InfoEnv, now: int)
    requires Cache.GetSpec(s, c, Cache.CacheInfolabels, itemId, now).0 == Err(CacheMiss)
    requires ParseInfo(item, rawData, tvshowId, env).Ok?
    ensures var p := ParseInfo(item, rawData, tvshowId, env).value;
            var got := Cache.GetSpec(s, c, Cache.CacheInfolabels, itemId, now);
            var added := Cache.AddSpec(got.1, c, Cache.CacheInfolabels, itemId, InfoEntry(JObj(p.0), JObj(p.1)),
                                       Some(c.metadataTtl), true, now);
            && added.0.Ok?
            && FetchInfoSpec(s, c, item, itemId, rawData, tvshowId, env, now) == (Ok((JObj(p.0), JObj(p.1))), added.1)
            && Cache.View(added.1, c, Cache.CacheInfolabels)[itemId] ==
               Cache.Entry(now + Cache.EffectiveTtl(Some(c.metadataTtl), c.ttl), InfoEntry(JObj(p.0), JObj(p.1)))
  {
  }

  /** A cached entry is used as it is, whatever item is given. */
  lemma HitUsesEntry(s: Cache.Store<Json>, c: Cache.Config, item: Json, itemId: Cache.Identifier,
                     rawData: Json, tvshowId: string, env: InfoEnv, now: int, infos: Json, quality: Json)
    requires Cache.GetSpec(s, c, Cache.CacheInfolabels, itemId, now).0 == Ok(InfoEntry(infos, quality))
    ensures FetchInfoSpec(s, c, item, itemId, rawData, tvshowId, env, now) ==
            (Ok((infos, quality)), Cache.GetSpec(s, c, Cache.CacheInfolabels, itemId, now).1)
  {
  }

  /** Infolabels parsed on a miss are read back from the cache, without
      parsing, by any later `add_info` for the same id before their end of
      life, whatever item it is given. */
  lemma ParsedInfoIsReused(s: Cache.Store<Json>, c: Cache.Config, item: Json, itemId: Cache.Identifier,
                           rawData: Json, tvshowId: string, env: InfoEnv, now: int,
                           item2: Json, rawData2: Json, tvshowId2: string, env2: InfoEnv, later: int)
    requires Cache.GetSpec(s, c, Cache.CacheInfolabels, itemId, now).0 == Err(CacheMiss)
    requires ParseInfo(item, rawData, tvshowId, env).Ok?
    requires later <= now + Cache.EffectiveTtl(Some(c.metadataTtl), c.ttl)
    ensures var first := FetchInfoSpec(s, c, item, itemId, rawData, tvshowId, env, now);
            first.0.Ok? && FetchInfoSpec(first.1, c, item2, itemId, rawData2, tvshowId2, env2, later).0 == first.0
  {
    MissParsesAndStores(s, c, item, itemId, rawData, tvshowId, env, now);
    var p := ParseInfo(item, rawData, tvshowId, env).value;
    var first := FetchInfoSpec(s, c, item, itemId, rawData, tvshowId, env, now);
    var entry := InfoEntry(JObj(p.0), JObj(p.1));
    assert Cache.GetSpec(first.1, c, Cache.CacheInfolabels, itemId, later).0 == Ok(entry);
    HitUsesEntry(first.1, c, item2, itemId, rawData2, tvshowId2, env2, later, JObj(p.0), JObj(p.1));
  }

  /** The same for art */
  lemma ParsedArtIsReused(s: Cache.Store<Json>, c: Cache.Config, item: Json, sources: ArtSources,
                          itemId: Cache.Identifier, now: int, item2: Json, sources2: ArtSources, later: int)
    requires Cache.GetSpec(s, c, Cache.CacheArtinfo, itemId, now).0 == Err(CacheMiss)
    requires FetchArtSpec(s, c, item, sources, itemId, now).0.Ok?
    requires later <= now + Cache.EffectiveTtl(Some(c.metadataTtl), c.ttl)
    ensures var first := FetchArtSpec(s, c, item, sources, itemId, now);
            FetchArtSpec(first.1, c, item2, sources2, itemId, later).0 == first.0
  {
    var first := FetchArtSpec(s, c, item, sources, itemId, now);
    assert Cache.View(first.1, c, Cache.CacheArtinfo)[itemId] ==
           Cache.Entry(now + Cache.EffectiveTtl(Some(c.metadataTtl), c.ttl), JObj(ParseArt(item, sources).value));
  }

  /** A Kodi list item */
  class ListItem {
    var info: Json
    var playable: bool
    var streams: map<string, Json>
    var art: Json

    function View(): ItemView
      reads this
    {
      ItemView(info, playable, streams, art)
    }

    constructor()
      ensures View() == ItemView(JObj(map[]), false, map[], JObj(map[]))
    {
      info := JObj(map[]);
      playable := false;
      streams := map[];
      art := JObj(map[]);
    }
  }

  /** The cache half of `add_info` on a cache instance */
  method FetchInfo(cache: Cache.Cache<Json>, item: Json, itemId: Cache.Identifier,
                   rawData: Json, tvshowId: string, env: InfoEnv, now: int) returns (r: Result<(Json, Json)>)
    modifies cache`buckets, cache`window, cache`disk
    ensures (r, cache.State()) == old(FetchInfoSpec(cache.State(), cache.config, item, itemId, rawData, tvshowId, env, now))
  {
    var got := cache.Get(Cache.CacheInfolabels, itemId, now);
    if got.Ok? {
      var i := Index(got.value, "infos");
      var q := Index(got.value, "quality_infos");
      r := if i.Err? then Err(i.exc) else if q.Err? then Err(q.exc) else Ok((i.value, q.value));
    } else if got.exc != CacheMiss {
      r := Err(got.exc);
    } else {
      var parsed := ParseInfo(item, rawData, tvshowId, env);
      if parsed.Err? {
        return Err(parsed.exc);
      }
      var infos, quality := JObj(parsed.value.0), JObj(parsed.value.1);
      var _ := cache.Add(Cache.CacheInfolabels, itemId, InfoEntry(infos, quality), Some(cache.config.metadataTtl), true, now);
      r := Ok((infos, quality));
    }
  }

  /** `add_info(list_item, item, item_id, raw_data, tvshowid)` */
  method AddInfo(listItem: ListItem, cache: Cache.Cache<Json>, item: Json, itemId: Cache.Identifier,
                 rawData: Json, tvshowId: string, env: InfoEnv, now: int) returns (r: Result<Json>)
    modifies listItem, cache`buckets, cache`window, cache`disk
    ensures var fetched := old(FetchInfoSpec(cache.State(), cache.config, item, itemId, rawData, tvshowId, env, now));
      && cache.State() == fetched.1
      && (fetched.0.Err? ==> r == Err(fetched.0.exc) && listItem.View() == old(listItem.View()))
      && (fetched.0.Ok? ==>
           var applied := ApplyInfoSpec(old(listItem.View()), fetched.0.value.0, fetched.0.value.1);
           listItem.View() == applied.1 && r == (if applied.0.Ok? then Ok(fetched.0.value.0) else Err(applied.0.exc)))
  {
    var fetched := FetchInfo(cache, item, itemId, rawData, tvshowId, env, now);
    if fetched.Err? {
      return Err(fetched.exc);
    }
    var (infos, quality) := fetched.value;
    listItem.info := infos;
    var mediatype := Index(infos, "mediatype");
    if mediatype.Err? {
      return Err(mediatype.exc);
    }
    if mediatype.value in {Episode, Movie} {
      listItem.playable := true;
    }
    if !quality.JObj? {
      return Err(AttributeError);
    }
    listItem.streams := listItem.streams + quality.fields;
    r := Ok(infos);
  }

  /** `add_art(list_item, item, item_id)` */
  method AddArt(listItem: ListItem, cache: Cache.Cache<Json>, item: Json, sources: ArtSources,
                itemId: Cache.Identifier, now: int) returns (r: Result<Json>)
    modifies listItem`art, cache`buckets, cache`window, cache`disk
    ensures var fetched := old(FetchArtSpec(cache.State(), cache.config, item, sources, itemId, now));
      && (r, cache.State()) == fetched
      && listItem.art == (if r.Ok? then r.value else old(listItem.art))
  {
    var art: Json;
    var got := cache.Get(Cache.CacheArtinfo, itemId, now);
    if got.Ok? {
      art := got.value;
    } else if got.exc != CacheMiss {
      return Err(got.exc);
    } else {
      var parsed := ParseArt(item, sources);
      if parsed.Err? {
        return Err(parsed.exc);
      }
      art := JObj(parsed.value);
      var _ := cache.Add(Cache.CacheArtinfo, itemId, art, Some(cache.config.metadataTtl), true, now);
    }
    listItem.art := art;
    r := Ok(art);
  }
}
