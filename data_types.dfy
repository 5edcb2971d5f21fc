/** The API data types of resources/lib/api/data_types.py that the cache
    consumer relies on: the root lists (LoLoMo) filtered by context, and the
    show record that season and episode lists pick from a path response. */
module DataTypes {
  import opened Wrappers
  import opened Json
  import VideoIds

  /** `LoLoMo.id`: `data['lolomo'][1]`, the second element of the
      response's `lolomo` reference; a string reference gives its second
      character, as any Python subscript of a string does */
  function LoLoMoId(response: Json): (r: Result<Json>)
    ensures r.Ok? <==> Index(response, "lolomo").Ok? &&
                       ((Index(response, "lolomo").value.JList? && |Index(response, "lolomo").value.items| >= 2) ||
                        (Index(response, "lolomo").value.JStr? && |Index(response, "lolomo").value.s| >= 2))
    ensures r.Ok? && Index(response, "lolomo").value.JList? ==> r.value == Index(response, "lolomo").value.items[1]
    ensures r.Ok? && Index(response, "lolomo").value.JStr? ==> r.value == JStr([Index(response, "lolomo").value.s[1]])
  {
    var reference :- Index(response, "lolomo");
    At(reference, 1)
  }

  /** The root lists, in the order of the response: list id and video list */
  datatype LoLoMo = LoLoMo(id: Json, lists: seq<(string, Json)>)

  /** A video list: the response, the list id and the list's videos */
  datatype VideoList = VideoList(data: Json, id: string, videos: seq<(string, Json)>)

  /** The seasons of a show with the show record */
  datatype SeasonList = SeasonList(data: Json, videoid: VideoIds.VideoId, seasons: seq<(string, Json)>, tvshow: Json)

  /** The episodes of a season with the show record */
  datatype EpisodeList = EpisodeList(data: Json, videoid: VideoIds.VideoId, episodes: seq<(string, Json)>, tvshow: Json)

  /** Whether a video list's context satisfies the requested one: membership
      when a list of contexts is given, equality otherwise. A video list
      without a context raises when the generator reaches it. */
  function ContextMatches(videoList: Json, context: Json): Result<bool> {
    var own :- Index(videoList, "context");
    Ok(if context.JList? then own in context.items else own == context)
  }

  /** `list(lolomo.lists_by_context(context))` */
  function ListsByContext(lists: seq<(string, Json)>, context: Json): (r: Result<seq<(string, Json)>>)
    ensures r.Ok? ==> forall x :: x in r.value ==> x in lists && ContextMatches(x.1, context) == Ok(true)
    ensures r.Ok? ==> forall x :: x in lists && ContextMatches(x.1, context) == Ok(true) ==> x in r.value
    ensures r.Ok? <==> forall x :: x in lists ==> ContextMatches(x.1, context).Ok?
    ensures r.Ok? ==> |r.value| <= |lists|
    decreases |lists|
  {
    if |lists| == 0 then Ok([])
    else
      var m :- ContextMatches(lists[0].1, context);
      var rest :- ListsByContext(lists[1..], context);
      assert forall x :: x in lists[1..] ==> x in lists;
      assert forall x :: x in lists ==> x == lists[0] || x in lists[1..];
      Ok(if m then [lists[0]] + rest else rest)
  }

  /** A single list is yielded exactly when its context matches. */
  lemma SingleListByContext(x: (string, Json), context: Json)
    requires ContextMatches(x.1, context).Ok?
    ensures ListsByContext([x], context) == Ok(if ContextMatches(x.1, context).value then [x] else [])
  {
    assert [x][0] == x && [x][1..] == [];
    assert ListsByContext([x][1..], context) == Ok([]);
    var m := ContextMatches(x.1, context).value;
    assert ListsByContext([x], context) == Ok(if m then [x] + [] else []);
    assert [x] + [] == [x];
  }

  /** The generator yields in the order of the lists: filtering two runs of
      lists one after the other is filtering each and concatenating. */
  lemma {:induction false} ListsByContextOfAppend(a: seq<(string, Json)>, b: seq<(string, Json)>, context: Json)
    requires ListsByContext(a, context).Ok? && ListsByContext(b, context).Ok?
    ensures ListsByContext(a + b, context) == Ok(ListsByContext(a, context).value + ListsByContext(b, context).value)
    decreases |a|
  {
    if a == [] {
      assert a + b == b;
      assert ListsByContext(a, context) == Ok([]);
      assert [] + ListsByContext(b, context).value == ListsByContext(b, context).value;
    } else {
      FilterStep(a, context);
      ListsByContextOfAppend(a[1..], b, context);
      var m := ContextMatches(a[0].1, context).value;
      var rest, tail := ListsByContext(a[1..], context).value, ListsByContext(b, context).value;
      ConsAppend(a, b, context, m, rest, tail);
      if m {
        ConcatAssoc([a[0]], rest, tail);
      }
    }
  }

  lemma ConcatAssoc<T>(x: seq<T>, y: seq<T>, z: seq<T>)
    ensures x + (y + z) == (x + y) + z
  {
  }

  /** The inductive step of `ListsByContextOfAppend`: the head of the first
      run is yielded, or not, before everything else. */
  lemma ConsAppend(a: seq<(string, Json)>, b: seq<(string, Json)>, context: Json,
                   m: bool, rest: seq<(string, Json)>, tail: seq<(string, Json)>)
    requires a != [] && ContextMatches(a[0].1, context) == Ok(m)
    requires ListsByContext(a[1..] + b, context) == Ok(rest + tail)
    ensures ListsByContext(a + b, context) == Ok(if m then [a[0]] + (rest + tail) else rest + tail)
  {
    var ab := a + b;
    assert ab[0] == a[0] && ab[1..] == a[1..] + b;
    FilterStep(ab, context);
  }

  /** One step of the filter: the head list, if it matches, then the rest. */
  lemma FilterStep(lists: seq<(string, Json)>, context: Json)
    requires lists != []
    ensures ListsByContext(lists, context).Ok? <==>
            ContextMatches(lists[0].1, context).Ok? && ListsByContext(lists[1..], context).Ok?
    ensures ListsByContext(lists, context).Ok? ==>
              ListsByContext(lists, context).value ==
              if ContextMatches(lists[0].1, context).value then [lists[0]] + ListsByContext(lists[1..], context).value
              else ListsByContext(lists[1..], context).value
  {
  }

  /** `next(lolomo.lists_by_context(context))`: the first matching list,
      None for `StopIteration`; only the lists up to the first match are
      inspected. */
  function FirstByContext(lists: seq<(string, Json)>, context: Json): (r: Result<Option<(string, Json)>>)
    decreases |lists|
  {
    if |lists| == 0 then Ok(None)
    else
      var m :- ContextMatches(lists[0].1, context);
      if m then Ok(Some(lists[0])) else FirstByContext(lists[1..], context)
  }

  /** Taking the first item agrees with the full filter whenever the full
      filter succeeds: the generator yields in the order of the lists. */
  lemma {:induction false} FirstIsHeadOfFilter(lists: seq<(string, Json)>, context: Json)
    requires ListsByContext(lists, context).Ok?
    ensures var all := ListsByContext(lists, context).value;
            FirstByContext(lists, context) == (if all == [] then Ok(None) else Ok(Some(all[0])))
    decreases |lists|
  {
    if |lists| > 0 {
      FirstIsHeadOfFilter(lists[1..], context);
    }
  }

  /** `d[key]` for a key that may be None: None is no key of a dict of
      string keys, and no other value takes it as a subscript */
  function IndexId(d: Json, key: Option<string>): (r: Result<Json>)
    ensures key.Some? ==> r == Index(d, key.value)
    ensures key.None? ==> r == Err(if d.JObj? then KeyError else TypeError)
  {
    if key.None? then Err(if d.JObj? then KeyError else TypeError) else Index(d, key.value)
  }

  /** `SeasonList.tvshow` and `EpisodeList.tvshow`: `data['videos'][tvshowid]` */
  function ShowRecord(response: Json, tvshowId: Option<string>): (r: Result<Json>)
    ensures r.Ok? <==> Index(response, "videos").Ok? && tvshowId.Some? &&
                       Index(Index(response, "videos").value, tvshowId.value).Ok?
    ensures r.Ok? ==> r.value == response.fields["videos"].fields[tvshowId.value]
  {
    var videos :- Index(response, "videos");
    IndexId(videos, tvshowId)
  }

  // The OrderedDict that the data types build from resolved references

  /** The keys of an ordered dict, in order */
  function Keys(d: seq<(string, Json)>): (r: seq<string>)
    ensures |r| == |d| && forall i | 0 <= i < |d| :: r[i] == d[i].0
  {
    seq(|d|, i requires 0 <= i < |d| => d[i].0)
  }

  lemma KeysOfCons(d: seq<(string, Json)>)
    requires d != []
    ensures Keys(d) == [d[0].0] + Keys(d[1..])
  {
  }

  predicate Distinct(keys: seq<string>) {
    forall i, j | 0 <= i < j < |keys| :: keys[i] != keys[j]
  }

  /** The keys in the order of their first occurrence, each once */
  function Dedup(keys: seq<string>): (r: seq<string>)
    ensures Distinct(r)
    ensures forall k :: k in r <==> k in keys
    decreases |keys|
  {
    if keys == [] then []
    else
      var seen := Dedup(keys[..|keys| - 1]);
      var k := keys[|keys| - 1];
      assert forall x :: x in keys <==> x in keys[..|keys| - 1] || x == k;
      if k in seen then seen else seen + [k]
  }

  /** The value of the last pair for `key`, the one a dict keeps */
  function LastValue(pairs: seq<(string, Json)>, key: string): Option<Json>
    decreases |pairs|
  {
    if pairs == [] then None
    else if pairs[|pairs| - 1].0 == key then Some(pairs[|pairs| - 1].1)
    else LastValue(pairs[..|pairs| - 1], key)
  }

  /** `d[key] = value` on an ordered dict: an existing key keeps its
      place and takes the value, a new one goes to the end */
  function Assign(d: seq<(string, Json)>, kv: (string, Json)): (r: seq<(string, Json)>)
    requires Distinct(Keys(d))
    ensures kv in r
    ensures forall x :: x in r ==> x == kv || (x in d && x.0 != kv.0)
    ensures forall x :: x in d && x.0 != kv.0 ==> x in r
    decreases |d|
  {
    if d == [] then [kv]
    else
      KeysOfCons(d);
      assert forall x :: x in d[1..] ==> x.0 != d[0].0 by {
        forall x | x in d[1..] ensures x.0 != d[0].0 {
          var i :| 0 <= i < |d[1..]| && d[1..][i] == x;
          assert Keys(d)[i + 1] == x.0;
        }
      }
      if d[0].0 == kv.0 then [kv] + d[1..]
      else
        assert forall x :: x in d <==> x == d[0] || x in d[1..];
        [d[0]] + Assign(d[1..], kv)
  }

  /** The keys after an assignment: unchanged for a known key, the new
      key appended otherwise */
  lemma {:induction false} AssignKeys(d: seq<(string, Json)>, kv: (string, Json))
    requires Distinct(Keys(d))
    ensures Keys(Assign(d, kv)) == if kv.0 in Keys(d) then Keys(d) else Keys(d) + [kv.0]
    decreases |d|
  {
    if d != [] {
      KeysOfCons(d);
      var r := Assign(d, kv);
      KeysOfCons(r);
      if d[0].0 == kv.0 {
        assert r[1..] == d[1..];
      } else {
        assert Distinct(Keys(d[1..]));
        AssignKeys(d[1..], kv);
        assert r[1..] == Assign(d[1..], kv);
        assert kv.0 in Keys(d) <==> kv.0 in Keys(d[1..]);
      }
    }
  }

  /** `OrderedDict(pairs)`: a key given twice keeps the place of its first
      occurrence and the value of its last one. */
  function OrderedDict(pairs: seq<(string, Json)>): (r: seq<(string, Json)>)
    ensures Keys(r) == Dedup(Keys(pairs)) && Distinct(Keys(r))
    ensures forall x :: x in r ==> LastValue(pairs, x.0) == Some(x.1)
    ensures forall k :: LastValue(pairs, k).Some? ==> (k, LastValue(pairs, k).value) in r
    decreases |pairs|
  {
    if pairs == [] then []
    else
      var init := pairs[..|pairs| - 1];
      var kv := pairs[|pairs| - 1];
      var d := OrderedDict(init);
      assert Keys(pairs)[..|pairs| - 1] == Keys(init);
      AssignKeys(d, kv);
      Assign(d, kv)
  }

  /** The finding's example: a list id resolved twice is kept once, with
      the value of its second occurrence. */
  lemma RepeatedKeyKeepsLastValue(a: Json, b: Json)
    ensures OrderedDict([("x", a), ("x", b)]) == [("x", b)]
  {
    var pairs := [("x", a), ("x", b)];
    assert pairs[..1] == [("x", a)];
    assert [("x", a)][..0] == [];
    assert OrderedDict([("x", a)]) == Assign([], ("x", a)) == [("x", a)];
    assert [("x", a)][1..] == [];
    assert Assign([("x", a)], ("x", b)) == [("x", b)];
  }

  /** `VideoList(path_response)`: the list id is the first key of `lists`
      in the order Python 2 lists the dict's keys (`keys`, its hash order,
      a parameter here), and the list's references are resolved with
      `resolve`. */
  function VideoListOf(response: Json, keys: map<string, Json> -> seq<string>,
                       resolve: (Json, Json) -> Result<seq<(string, Json)>>): (r: Result<VideoList>)
    ensures Index(response, "lists").Err? ==> r == Err(Index(response, "lists").exc)
    ensures Index(response, "lists").Ok? && !Index(response, "lists").value.JObj? ==> r == Err(AttributeError)
    ensures r.Ok? ==> Index(response, "lists").Ok? && Index(response, "lists").value.JObj? &&
                      r.value.id in Index(response, "lists").value.fields &&
                      r.value.data == response && Distinct(Keys(r.value.videos))
    ensures r.Ok? ==> resolve(response.fields["lists"].fields[r.value.id], response).Ok?
  {
    var lists :- Index(response, "lists");
    if !lists.JObj? then Err(AttributeError)
    else if |keys(lists.fields)| == 0 then Err(IndexError)
    else
      var id := keys(lists.fields)[0];
      var refs :- Index(lists, id);
      var videos :- resolve(refs, response);
      Ok(VideoList(response, id, OrderedDict(videos)))
  }

  /** `keys` lists exactly the keys of `m`, each once, as `dict.keys()` does */
  predicate KeyOrder(order: seq<string>, m: map<string, Json>) {
    Distinct(order) && (forall k | k in order :: k in m) && (forall k | k in m :: k in order)
  }

  /** With a faithful key order, a `lists` dict without keys raises
      `IndexError`, and the response to a request for one list names that
      list. */
  lemma VideoListIdIsTheRequestedList(response: Json, keys: map<string, Json> -> seq<string>,
                                      resolve: (Json, Json) -> Result<seq<(string, Json)>>, listId: string)
    requires Index(response, "lists").Ok? && Index(response, "lists").value.JObj?
    requires KeyOrder(keys(response.fields["lists"].fields), response.fields["lists"].fields)
    ensures response.fields["lists"].fields == map[] ==> VideoListOf(response, keys, resolve) == Err(IndexError)
    ensures response.fields["lists"].fields.Keys == {listId} && VideoListOf(response, keys, resolve).Ok? ==>
      VideoListOf(response, keys, resolve).value.id == listId
  {
    var m := response.fields["lists"].fields;
    assert forall i | 0 <= i < |keys(m)| :: keys(m)[i] in m;
  }

  /** What a constructor got for its `videoid` parameter: Python does not
      check the type, so a plain string is passed as readily as a VideoId */
  datatype Arg = StringArg(s: string) | VideoIdArg(v: VideoIds.VideoId)

  /** `SeasonList(videoid, path_response)`: the show's resolved
      `seasonList` and the show record. `data['videos']` is looked up before
      the argument's `tvshowid` attribute, which a string lacks. */
  function SeasonListOf(videoid: Arg, response: Json,
                        resolve: (Json, Json) -> Result<seq<(string, Json)>>): (r: Result<SeasonList>)
    ensures Index(response, "videos").Err? ==> r == Err(Index(response, "videos").exc)
    ensures Index(response, "videos").Ok? && videoid.StringArg? ==> r == Err(AttributeError)
    ensures r.Ok? ==> videoid.VideoIdArg? && r.value.videoid == videoid.v && r.value.data == response &&
                      ShowRecord(response, VideoIds.TvShowId(videoid.v)) == Ok(r.value.tvshow) &&
                      Distinct(Keys(r.value.seasons))
    ensures r.Ok? ==> Index(r.value.tvshow, "seasonList").Ok? &&
                      resolve(r.value.tvshow.fields["seasonList"], response).Ok?
  {
    var _ :- Index(response, "videos");
    if videoid.StringArg? then Err(AttributeError)
    else
      var tvshow :- ShowRecord(response, VideoIds.TvShowId(videoid.v));
      var refs :- Index(tvshow, "seasonList");
      var seasons :- resolve(refs, response);
      Ok(SeasonList(response, videoid.v, OrderedDict(seasons), tvshow))
  }

  /** `EpisodeList(videoid, path_response)`: the season's resolved
      `episodes`, then the show record. */
  function EpisodeListOf(videoid: VideoIds.VideoId, response: Json,
                         resolve: (Json, Json) -> Result<seq<(string, Json)>>): (r: Result<EpisodeList>)
    ensures r.Ok? ==> r.value.videoid == videoid && r.value.data == response &&
                      ShowRecord(response, VideoIds.TvShowId(videoid)) == Ok(r.value.tvshow) &&
                      Distinct(Keys(r.value.episodes))
    ensures r.Ok? ==> Index(response, "seasons").Ok? &&
                      IndexId(response.fields["seasons"], VideoIds.SeasonId(videoid)).Ok? &&
                      Index(IndexId(response.fields["seasons"], VideoIds.SeasonId(videoid)).value, "episodes").Ok?
    ensures Index(response, "seasons").Err? ==> r == Err(Index(response, "seasons").exc)
  {
    var seasons :- Index(response, "seasons");
    var season :- IndexId(seasons, VideoIds.SeasonId(videoid));
    var refs :- Index(season, "episodes");
    var episodes :- resolve(refs, response);
    var tvshow :- ShowRecord(response, VideoIds.TvShowId(videoid));
    Ok(EpisodeList(response, videoid, OrderedDict(episodes), tvshow))
  }
}
