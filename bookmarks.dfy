/** `BookmarkManager` of resources/lib/services/playback/bookmarks.py:
    the resume point of a library item is saved every five seconds of
    playback, and an item watched to its end is marked as watched. */
module Bookmarks {
  import opened Wrappers
  import opened Json
  import Markers
  import ActionManager

  /** The fields the class adds to its base. `markers` is None until the
      first `_initialize`. */
  datatype Bookmark = Bookmark(dbinfo: Json, markers: Json, progress: Json, elapsed: int)

  const Initial: Bookmark := Bookmark(JNull, JNull, JInt(0), 0)

  /** `update_library_item_details(dbtype, dbid, details)` */
  datatype Update = Update(dbtype: Json, dbid: Json, details: Json)

  /** The resume point stored in the library */
  function Resume(position: int): Json {
    JObj(map["resume" := JObj(map["position" := JInt(position)])])
  }

  /** `_initialize(data)`: `dbinfo` must be present; the markers default to
      an empty dict; progress and elapsed time restart at 0. */
  function InitializeSpec(data: Json): (r: Result<Bookmark>)
    ensures r.Ok? <==> data.JObj? && "dbinfo" in data.fields
    ensures r.Ok? ==> r.value == Bookmark(data.fields["dbinfo"],
      if "timeline_markers" in data.fields then data.fields["timeline_markers"] else JObj(map[]), JInt(0), 0)
  {
    var dbinfo :- Index(data, "dbinfo");
    var markers := if "timeline_markers" in data.fields then data.fields["timeline_markers"] else JObj(map[]);
    Ok(Bookmark(dbinfo, markers, JInt(0), 0))
  }

  /** The item's `dbtype` and `dbid`, read in that order */
  function LibraryId(b: Bookmark): (r: Result<(Json, Json)>)
    ensures r.Ok? <==> Index(b.dbinfo, "dbtype").Ok? && Index(b.dbinfo, "dbid").Ok?
    ensures r.Ok? ==> r.value == (Index(b.dbinfo, "dbtype").value, Index(b.dbinfo, "dbid").value)
  {
    var dbtype :- Index(b.dbinfo, "dbtype");
    var dbid :- Index(b.dbinfo, "dbid");
    Ok((dbtype, dbid))
  }

  /** `_save_bookmark`: the resume point is the elapsed time. */
  function SaveBookmarkSpec(b: Bookmark): (r: Result<Update>)
    ensures r.Ok? <==> LibraryId(b).Ok?
    ensures r.Ok? ==> r.value == Update(LibraryId(b).value.0, LibraryId(b).value.1, Resume(b.elapsed))
  {
    var (dbtype, dbid) :- LibraryId(b);
    Ok(Update(dbtype, dbid, Resume(b.elapsed)))
  }

  /** `_on_tick(player_state)`: progress is stored first, then the elapsed
      time; a bookmark is saved when the elapsed time is a multiple of 5
      (Python's `%` by a positive divisor, the same as Dafny's). */
  function TickSpec(b: Bookmark, playerState: Json): (r: ActionManager.Step<Bookmark, Update>)
    ensures r.result.Ok? ==> (
      && Index(playerState, "percentage").Ok?
      && Index(playerState, "elapsed_seconds").Ok?
      && AsInt(Index(playerState, "elapsed_seconds").value).Ok?
      && var elapsed := AsInt(Index(playerState, "elapsed_seconds").value).value;
         r.fields == b.(progress := Index(playerState, "percentage").value, elapsed := elapsed))
    ensures r.result.Ok? ==> (r.effects != [] <==> r.fields.elapsed % 5 == 0)
    ensures r.effects != [] ==> r.result.Ok? && SaveBookmarkSpec(r.fields).Ok? && r.effects == [SaveBookmarkSpec(r.fields).value]
    ensures r.fields.dbinfo == b.dbinfo && r.fields.markers == b.markers
  {
    var progress := Index(playerState, "percentage");
    if progress.Err? then ActionManager.Step(Err(progress.exc), b, [])
    else
      var b1 := b.(progress := progress.value);
      var elapsed := Index(playerState, "elapsed_seconds");
      if elapsed.Err? then ActionManager.Step(Err(elapsed.exc), b1, [])
      else
        var n := AsInt(elapsed.value);
        if n.Err? then ActionManager.Step(Err(n.exc), b1, [])
        else
          var b2 := b1.(elapsed := n.value);
          if b2.elapsed % 5 != 0 then ActionManager.Step(Ok(()), b2, [])
          else
            var saved := SaveBookmarkSpec(b2);
            ActionManager.Atomic(if saved.Ok? then Ok([saved.value]) else Err(saved.exc), b2)
  }

  /** `_watched_to_end`: past the watched-to-end offset when the markers
      have one, otherwise at least 90 percent played */
  function WatchedToEndSpec(b: Bookmark): (r: Result<bool>)
    ensures r.Ok? <==> (
      && Contains(b.markers, Markers.OffsetWatchedToEnd).Ok?
      && (Contains(b.markers, Markers.OffsetWatchedToEnd).value ==> Index(b.markers, Markers.OffsetWatchedToEnd).Ok?))
    ensures b.markers.JObj? && Markers.OffsetWatchedToEnd in b.markers.fields ==>
      r == Ok(IntAtLeast(b.elapsed, b.markers.fields[Markers.OffsetWatchedToEnd]))
    ensures b.markers.JObj? && Markers.OffsetWatchedToEnd !in b.markers.fields ==>
      r == Ok(IntAtMost(90, b.progress))
  {
    var hasOffset :- Contains(b.markers, Markers.OffsetWatchedToEnd);
    if hasOffset then
      var offset :- Index(b.markers, Markers.OffsetWatchedToEnd);
      Ok(IntAtLeast(b.elapsed, offset))
    else
      Ok(IntAtMost(90, b.progress))
  }

  /** `_mark_as_watched`: the play count goes up by one (a missing one
      counts as 0) and the resume point goes back to the start. */
  function MarkAsWatchedSpec(b: Bookmark): (r: Result<Update>)
    ensures r.Ok? ==> LibraryId(b).Ok? && b.dbinfo.JObj?
    ensures r.Ok? ==> var playcount := if "playcount" in b.dbinfo.fields then b.dbinfo.fields["playcount"] else JInt(0);
      AsInt(playcount).Ok? &&
      r.value == Update(LibraryId(b).value.0, LibraryId(b).value.1,
        JObj(map["playcount" := JInt(AsInt(playcount).value + 1), "resume" := JObj(map["position" := JInt(0)])]))
    ensures LibraryId(b).Ok? && b.dbinfo.JObj? && "playcount" !in b.dbinfo.fields ==> r.Ok?
  {
    var (dbtype, dbid) :- LibraryId(b);
    var playcount := if "playcount" in b.dbinfo.fields then b.dbinfo.fields["playcount"] else JInt(0);
    var n :- AsInt(playcount);
    Ok(Update(dbtype, dbid, JObj(map["playcount" := JInt(n + 1), "resume" := JObj(map["position" := JInt(0)])])))
  }

  /** `_on_playback_stopped` */
  function StoppedSpec(b: Bookmark): (r: Result<seq<Update>>)
    ensures r.Ok? ==> WatchedToEndSpec(b).Ok? && |r.value| <= 1
    ensures r.Ok? ==> (r.value != [] <==> WatchedToEndSpec(b).value)
    ensures r.Ok? && r.value != [] ==> MarkAsWatchedSpec(b).Ok? && r.value == [MarkAsWatchedSpec(b).value]
  {
    var watched :- WatchedToEndSpec(b);
    if watched then
      var u :- MarkAsWatchedSpec(b);
      Ok([u])
    else Ok([])
  }

  /** Between two initializations the elapsed time only comes from the
      ticks; the bookmark saved on a tick holds the tick's elapsed time. */
  lemma SavedPositionIsElapsed(b: Bookmark, playerState: Json)
    requires TickSpec(b, playerState).effects != []
    ensures var u := TickSpec(b, playerState).effects[0];
            u.details == Resume(AsInt(Index(playerState, "elapsed_seconds").value).value) &&
            (u.dbtype, u.dbid) == LibraryId(b).value
  {
  }

  /** A playback stopped after the offset, or at 90 percent without one,
      bumps the play count of a library item exactly once. */
  lemma FinishedItemIsMarked(dbtype: Json, dbid: Json, playcount: int, markers: map<string, Json>, progress: int, elapsed: int)
    requires Markers.OffsetWatchedToEnd in markers ==> markers[Markers.OffsetWatchedToEnd] == JInt(elapsed)
    requires Markers.OffsetWatchedToEnd !in markers ==> progress >= 90
    ensures var dbinfo := JObj(map["dbtype" := dbtype, "dbid" := dbid, "playcount" := JInt(playcount)]);
            StoppedSpec(Bookmark(dbinfo, JObj(markers), JInt(progress), elapsed)) ==
            Ok([Update(dbtype, dbid, JObj(map["playcount" := JInt(playcount + 1), "resume" := JObj(map["position" := JInt(0)])]))])
  {
    var dbinfo := JObj(map["dbtype" := dbtype, "dbid" := dbid, "playcount" := JInt(playcount)]);
    var b := Bookmark(dbinfo, JObj(markers), JInt(progress), elapsed);
    assert WatchedToEndSpec(b) == Ok(true);
    assert LibraryId(b) == Ok((dbtype, dbid));
  }

  /** The class name, which names the setting that enables the manager */
  const ClassName: string := "BookmarkManager"

  class BookmarkManager {
    var enabled: Option<bool>
    var dbinfo: Json
    var markers: Json
    var progress: Json
    var elapsed: int

    function Fields(): Bookmark
      reads this
    {
      Bookmark(dbinfo, markers, progress, elapsed)
    }

    function State(): ActionManager.Manager<Bookmark>
      reads this
    {
      ActionManager.Manager(enabled, Fields())
    }

    constructor()
      ensures State() == ActionManager.Manager(None, Initial)
    {
      enabled := None;
      dbinfo := JNull;
      markers := JNull;
      progress := JInt(0);
      elapsed := 0;
    }

    /** The `enabled` getter */
    method Enabled(setting: string -> bool) returns (b: bool)
      modifies this`enabled
      ensures (b, State()) == old(ActionManager.EnabledSpec(State(), setting(ActionManager.SettingId(ClassName))))
    {
      if enabled.None? {
        enabled := Some(setting(ActionManager.SettingId(ClassName)));
      }
      b := enabled.value;
    }

    /** The `enabled` setter */
    method SetEnabled(value: Option<bool>)
      modifies this`enabled
      ensures State() == old(State()).(enabled := value)
    {
      enabled := value;
    }

    /** `_initialize(data)` */
    method InitializeHook(data: Json) returns (r: Result<()>)
      modifies this`dbinfo, this`markers, this`progress, this`elapsed
      ensures r.Ok? <==> InitializeSpec(data).Ok?
      ensures Fields() == if r.Ok? then InitializeSpec(data).value else old(Fields())
    {
      var info := Index(data, "dbinfo");
      if info.Err? {
        return Err(info.exc);
      }
      dbinfo := info.value;
      markers := if "timeline_markers" in data.fields then data.fields["timeline_markers"] else JObj(map[]);
      progress := JInt(0);
      elapsed := 0;
      r := Ok(());
    }

    /** `initialize(data)` */
    method Initialize(data: Json, setting: string -> bool)
      modifies this
      ensures State() == old(ActionManager.InitializeSpec(State(), setting(ActionManager.SettingId(ClassName)),
                                                          InitializeSpec(data)))
    {
      var on := Enabled(setting);
      if on {
        var r := InitializeHook(data);
        if r.Err? {
          SetEnabled(Some(false));
        }
      }
    }

    /** `_on_tick(player_state)`, with `_save_bookmark` */
    method TickHook(playerState: Json) returns (r: Result<()>, effects: seq<Update>)
      modifies this`progress, this`elapsed
      ensures ActionManager.Step(r, Fields(), effects) == old(TickSpec(Fields(), playerState))
    {
      effects := [];
      var percentage := Index(playerState, "percentage");
      if percentage.Err? {
        return Err(percentage.exc), [];
      }
      progress := percentage.value;
      var seconds := Index(playerState, "elapsed_seconds");
      if seconds.Err? {
        return Err(seconds.exc), [];
      }
      var n := AsInt(seconds.value);
      if n.Err? {
        return Err(n.exc), [];
      }
      elapsed := n.value;
      if elapsed % 5 != 0 {
        return Ok(()), [];
      }
      var saved := SaveBookmarkSpec(Fields());
      if saved.Err? {
        return Err(saved.exc), [];
      }
      r, effects := Ok(()), [saved.value];
    }

    /** `on_tick(player_state)` */
    method OnTick(playerState: Json, setting: string -> bool) returns (r: Result<()>, effects: seq<Update>)
      modifies this
      ensures ActionManager.Step(r, State(), effects) ==
        old(ActionManager.CallIfEnabledSpec(State(), setting(ActionManager.SettingId(ClassName)), TickSpec(Fields(), playerState)))
    {
      var on := Enabled(setting);
      if on {
        r, effects := TickHook(playerState);
      } else {
        r, effects := Ok(()), [];
      }
    }

    /** `on_playback_started(player_state)` */
    method OnPlaybackStarted(setting: string -> bool)
      modifies this`enabled
      ensures State() == old(ActionManager.StartedSpec(State(), setting(ActionManager.SettingId(ClassName))))
    {
      var _ := Enabled(setting);
    }

    /** `on_playback_stopped()`, with `_on_playback_stopped` */
    method OnPlaybackStopped(setting: string -> bool) returns (r: Result<()>, effects: seq<Update>)
      modifies this`enabled
      ensures ActionManager.Step(r, State(), effects) ==
        old(ActionManager.StoppedSpec(State(), setting(ActionManager.SettingId(ClassName)),
                                      ActionManager.Atomic(StoppedSpec(Fields()), Fields())))
    {
      var on := Enabled(setting);
      r, effects := Ok(()), [];
      if on {
        var stopped := StoppedSpec(Fields());
        if stopped.Err? {
          return Err(stopped.exc), [];
        }
        effects := stopped.value;
      }
      SetEnabled(None);
    }
  }
}
