/** `SectionSkipper` of resources/lib/services/playback/section_skipping.py:
    on each playback tick, a skippable section (credits, recap) whose
    window contains the elapsed time is skipped, automatically or after
    asking, and its marker is dropped so it fires once per playback. */
module SectionSkipping {
  import opened Wrappers
  import opened Json
  import Markers
  import ActionManager

  /** The fields the class adds to its base */
  datatype Skipper = Skipper(markers: Json, autoSkip: bool, pauseOnSkip: bool)

  const Initial: Skipper := Skipper(JObj(map[]), false, false)

  const AutoSkipCredits: string := "auto_skip_credits"
  const PauseOnSkip: string := "pause_on_skip"

  /** What the skipper asks Kodi to do */
  datatype Effect =
    | Notify(message: string)
    | Pause
    | Seek(position: Json)
    | SkipDialog(minutes: int, seconds: int, skipTo: Json, message: string)

  /** `_initialize(data)`: the markers are replaced wholesale and the two
      settings read; a missing `timeline_markers` raises before anything
      is assigned. */
  function InitializeSpec(data: Json, setting: string -> bool): (r: Result<Skipper>)
    ensures r.Ok? <==> data.JObj? && "timeline_markers" in data.fields
    ensures r.Ok? ==> r.value == Skipper(data.fields["timeline_markers"], setting(AutoSkipCredits), setting(PauseOnSkip))
  {
    var markers :- Index(data, "timeline_markers");
    Ok(Skipper(markers, setting(AutoSkipCredits), setting(PauseOnSkip)))
  }

  /** The dialog's duration split: Python's `d % 60` and `(d - seconds) / 60` */
  function DurationSplit(duration: int): (r: (int, int))
    ensures 0 <= r.1 < 60
    ensures r.0 * 60 + r.1 == duration
  {
    var seconds := duration % 60;
    ((duration - seconds) / 60, seconds)
  }


  /** `'{}...'.format(label.encode('utf-8'))` under `unicode_literals`: the
      format string is unicode, so Python 2 decodes the UTF-8 bytes back as
      ASCII, which fails for any character outside ASCII. */
  function NotificationText(caption: string): (r: Result<string>)
    ensures r.Ok? <==> AsciiText(caption)
    ensures r.Ok? ==> r.value == caption + "..."
    ensures r.Err? ==> r.exc == UnicodeDecodeError
  {
    if AsciiText(caption) then Ok(caption + "...") else Err(UnicodeDecodeError)
  }

  /** What auto-skipping does once the notification is shown: seek to the
      end, pausing around the seek when asked */
  function SeekEffects(s: Skipper, end: Json): seq<Effect> {
    if s.pauseOnSkip then [Pause, Seek(end), Pause] else [Seek(end)]
  }

  /** `_skip_section`: auto-skip notifies and seeks to the end, and raises
      before either for a label outside ASCII; otherwise the skip dialog
      for the section's duration */
  function SkipSpec(s: Skipper, start: Json, end: Json, message: string): (r: Result<seq<Effect>>)
    ensures s.autoSkip ==> (r.Ok? <==> AsciiText(message))
    ensures s.autoSkip && r.Ok? ==> r.value == [Notify(message + "...")] + SeekEffects(s, end)
    ensures s.autoSkip && r.Err? ==> r.exc == UnicodeDecodeError
    ensures !s.autoSkip ==> (r.Ok? <==> AsInt(start).Ok? && AsInt(end).Ok?)
    ensures !s.autoSkip && r.Ok? ==> (
      && |r.value| == 1 && r.value[0].SkipDialog? && r.value[0].skipTo == end
      && r.value[0].minutes * 60 + r.value[0].seconds == AsInt(end).value - AsInt(start).value
      && 0 <= r.value[0].seconds < 60 && r.value[0].message == message)
  {
    if s.autoSkip then
      var text :- NotificationText(message);
      Ok([Notify(text)] + SeekEffects(s, end))
    else
      var e :- AsInt(end);
      var b :- AsInt(start);
      var (minutes, seconds) := DurationSplit(e - b);
      Ok([SkipDialog(minutes, seconds, end, message)])
  }

  /** The evidently intended `_skip_section`: the notification shows the
      label whatever its characters. */
  function IntendedSkipSpec(s: Skipper, start: Json, end: Json, message: string): (r: Result<seq<Effect>>)
    ensures s.autoSkip ==> r == Ok([Notify(message + "...")] + SeekEffects(s, end))
    ensures !s.autoSkip ==> r == SkipSpec(s, start, end, message)
  {
    if s.autoSkip then Ok([Notify(message + "...")] + SeekEffects(s, end))
    else SkipSpec(s, start, end, message)
  }

  /** The two agree exactly on ASCII labels or when asking. */
  lemma IntendedSkipAgreesOnAscii(s: Skipper, start: Json, end: Json, message: string)
    ensures IntendedSkipSpec(s, start, end, message) == SkipSpec(s, start, end, message) <==>
            !s.autoSkip || AsciiText(message)
  {
  }

  /** Under the intended rule, auto-skipping always ends at the section's
      end, whatever the label. */
  lemma IntendedAutoSkipSeeksToEnd(s: Skipper, start: Json, end: Json, message: string)
    requires s.autoSkip
    ensures var r := IntendedSkipSpec(s, start, end, message);
            r.Ok? && Seek(end) in r.value && r.value[0] == Notify(message + "...")
  {
    assert Seek(end) in SeekEffects(s, end);
  }

  /** `_check_section(section, elapsed)`: a present marker whose window
      holds `elapsed`, both ends included, is skipped and then deleted. An
      exception leaves the markers and performs nothing. */
  function CheckSectionSpec(s: Skipper, section: string, elapsed: int, localized: int -> string)
    : (r: ActionManager.Step<Skipper, Effect>)
    requires section in Markers.SkippableSections
    ensures r.fields != s ==> (
      && r.result.Ok? && r.effects != []
      && s.markers.JObj? && section in s.markers.fields
      && r.fields == s.(markers := JObj(s.markers.fields - {section})))
    ensures r.fields == s ==> r.effects == []
    ensures (s.markers.JObj? && section in s.markers.fields && s.markers.fields[section].JObj? &&
             var m := s.markers.fields[section].fields;
             "start" in m && "end" in m && m["start"].JInt? && m["end"].JInt?) ==>
      var m := s.markers.fields[section].fields;
      var fires := m["start"].i <= elapsed <= m["end"].i;
      var raises := s.autoSkip && !AsciiText(localized(Markers.SkippableSections[section]));
      && (r.fields != s <==> fires && !raises)
      && (r.result.Ok? <==> !(fires && raises))
      && (r.result.Err? ==> r.result.exc == UnicodeDecodeError)
  {
    var idle := ActionManager.Step(Ok(()), s, []);
    var marker := Get(s.markers, section, JNull);
    if marker.Err? then idle.(result := Err(marker.exc))
    else if !Truthy(marker.value) then idle
    else
      var start := Index(marker.value, "start");
      if start.Err? then idle.(result := Err(start.exc))
      else if !IntAtLeast(elapsed, start.value) then idle
      else
        var end := Index(marker.value, "end");
        if end.Err? then idle.(result := Err(end.exc))
        else if !IntAtMost(elapsed, end.value) then idle
        else
          var effects := SkipSpec(s, start.value, end.value, localized(Markers.SkippableSections[section]));
          if effects.Err? then idle.(result := Err(effects.exc))
          else ActionManager.Step(Ok(()), s.(markers := JObj(s.markers.fields - {section})), effects.value)
  }

  /** Once a section has fired, it never fires again in this playback. */
  lemma FiresAtMostOnce(s: Skipper, section: string, elapsed: int, later: int, localized: int -> string)
    requires section in Markers.SkippableSections
    requires CheckSectionSpec(s, section, elapsed, localized).fields != s
    ensures var t := CheckSectionSpec(s, section, elapsed, localized).fields;
            CheckSectionSpec(t, section, later, localized) == ActionManager.Step(Ok(()), t, [])
  {
  }

  /** The skippable sections in the order a tick visits them (the order of
      `SKIPPABLE_SECTIONS`) */
  const Sections: seq<string> := [Markers.Credit, Markers.Recap]

  predicate Skippable(sections: seq<string>) {
    forall k :: 0 <= k < |sections| ==> sections[k] in Markers.SkippableSections
  }

  /** Check the given sections in order; an exception stops the loop and
      keeps what the sections before it did. */
  function CheckAll(s: Skipper, sections: seq<string>, elapsed: int, localized: int -> string)
    : (r: ActionManager.Step<Skipper, Effect>)
    requires Skippable(sections)
    decreases |sections|
  {
    if sections == [] then ActionManager.Step(Ok(()), s, [])
    else
      var first := CheckSectionSpec(s, sections[0], elapsed, localized);
      if first.result.Err? then first
      else
        var rest := CheckAll(first.fields, sections[1..], elapsed, localized);
        rest.(effects := first.effects + rest.effects)
  }

  /** A step whose effects follow `effects` */
  function Continued(effects: seq<Effect>, rest: ActionManager.Step<Skipper, Effect>): ActionManager.Step<Skipper, Effect> {
    rest.(effects := effects + rest.effects)
  }

  lemma ContinuedTwice(first: seq<Effect>, second: seq<Effect>, rest: ActionManager.Step<Skipper, Effect>)
    ensures Continued(first, Continued(second, rest)) == Continued(first + second, rest)
  {
    assert first + (second + rest.effects) == (first + second) + rest.effects;
  }

  /** One pass of the loop over `sections`, from the `i`th on */
  lemma CheckAllStep(s: Skipper, sections: seq<string>, i: nat, elapsed: int, localized: int -> string)
    requires Skippable(sections) && i < |sections|
    ensures Skippable(sections[i..]) && Skippable(sections[i + 1..]) && sections[i] in Markers.SkippableSections
    ensures var first := CheckSectionSpec(s, sections[i], elapsed, localized);
            CheckAll(s, sections[i..], elapsed, localized) ==
              if first.result.Err? then Continued([], first)
              else Continued(first.effects, CheckAll(first.fields, sections[i + 1..], elapsed, localized))
  {
    assert sections[i..][0] == sections[i] && sections[i..][1..] == sections[i + 1..];
    var first := CheckSectionSpec(s, sections[i], elapsed, localized);
    if first.result.Err? {
      assert [] + first.effects == first.effects;
    }
  }

  /** Checking never drops the marker of a section it does not visit. */
  lemma {:induction false} CheckAllKeepsUnvisitedMarkers(s: Skipper, sections: seq<string>, elapsed: int, localized: int -> string, key: string)
    requires Skippable(sections)
    requires s.markers.JObj? && key in s.markers.fields
    requires forall k :: 0 <= k < |sections| ==> sections[k] != key
    ensures var r := CheckAll(s, sections, elapsed, localized).fields;
            r.markers.JObj? && key in r.markers.fields && r.markers.fields[key] == s.markers.fields[key]
    decreases |sections|
  {
    if sections != [] {
      var first := CheckSectionSpec(s, sections[0], elapsed, localized);
      if first.result.Ok? {
        CheckAllKeepsUnvisitedMarkers(first.fields, sections[1..], elapsed, localized, key);
      }
    }
  }

  /** `_on_tick(player_state)`: every skippable section is checked against
      the elapsed seconds of the player state. */
  function TickSpec(s: Skipper, playerState: Json, localized: int -> string): (r: ActionManager.Step<Skipper, Effect>)
    ensures r.result.Ok? ==> (
      && Index(playerState, "elapsed_seconds").Ok?
      && AsInt(Index(playerState, "elapsed_seconds").value).Ok?
      && r == CheckAll(s, Sections, AsInt(Index(playerState, "elapsed_seconds").value).value, localized))
    ensures Index(playerState, "elapsed_seconds").Err? ==>
      r == ActionManager.Step(Err(Index(playerState, "elapsed_seconds").exc), s, [])
  {
    var elapsed := Index(playerState, "elapsed_seconds");
    if elapsed.Err? then ActionManager.Step(Err(elapsed.exc), s, [])
    else
      var n := AsInt(elapsed.value);
      if n.Err? then ActionManager.Step(Err(n.exc), s, [])
      else CheckAll(s, Sections, n.value, localized)
  }

  /** Markers for both sections at the start of playback: a tick inside
      the credits window skips the credits only. */
  lemma TickExample(localized: int -> string)
    requires AsciiText(localized(30076))
    ensures var credits := JObj(map["start" := JInt(100), "end" := JInt(130)]);
            var recap := JObj(map["start" := JInt(0), "end" := JInt(20)]);
            var s := Skipper(JObj(map[Markers.Credit := credits, Markers.Recap := recap]), true, false);
            TickSpec(s, JObj(map["elapsed_seconds" := JInt(120)]), localized) ==
            ActionManager.Step(Ok(()), s.(markers := JObj(map[Markers.Recap := recap])),
                               [Notify(localized(30076) + "..."), Seek(JInt(130))])
  {
    var credits := JObj(map["start" := JInt(100), "end" := JInt(130)]);
    var recap := JObj(map["start" := JInt(0), "end" := JInt(20)]);
    var m := map[Markers.Credit := credits, Markers.Recap := recap];
    var s := Skipper(JObj(m), true, false);
    var t := s.(markers := JObj(map[Markers.Recap := recap]));
    var skipped := [Notify(localized(30076) + "..."), Seek(JInt(130))];
    assert m - {Markers.Credit} == map[Markers.Recap := recap];
    assert Markers.SkippableSections[Markers.Credit] == 30076;
    assert m[Markers.Credit] == credits;
    assert Get(JObj(m), Markers.Credit, JNull) == Ok(credits);
    assert Index(credits, "start") == Ok(JInt(100)) && Index(credits, "end") == Ok(JInt(130));
    assert [Notify(localized(30076) + "...")] + [Seek(JInt(130))] == skipped;
    assert SkipSpec(s, JInt(100), JInt(130), localized(30076)) == Ok(skipped);
    assert CheckSectionSpec(s, Markers.Credit, 120, localized) == ActionManager.Step(Ok(()), t, skipped);
    assert CheckSectionSpec(t, Markers.Recap, 120, localized) == ActionManager.Step(Ok(()), t, []);
    assert Sections[1..] == [Markers.Recap] && [Markers.Recap][1..] == [];
    assert [Markers.Recap][0] == Markers.Recap;
    var none: seq<Effect> := [];
    assert none + none == none && skipped + none == skipped;
    assert CheckAll(t, [], 120, localized) == ActionManager.Step(Ok(()), t, none);
    assert CheckAll(t, [Markers.Recap], 120, localized) == ActionManager.Step(Ok(()), t, none);
    assert CheckAll(s, Sections, 120, localized) == ActionManager.Step(Ok(()), t, skipped);
    assert Index(JObj(map["elapsed_seconds" := JInt(120)]), "elapsed_seconds") == Ok(JInt(120));
  }

  /** The same tick with a credits label outside ASCII: the notification
      raises before the seek, the credits marker stays, and so every later
      tick inside the window raises again. */
  lemma NonAsciiLabelStopsAutoSkip(localized: int -> string)
    requires !AsciiText(localized(30076))
    ensures var credits := JObj(map["start" := JInt(100), "end" := JInt(130)]);
            var recap := JObj(map["start" := JInt(0), "end" := JInt(20)]);
            var s := Skipper(JObj(map[Markers.Credit := credits, Markers.Recap := recap]), true, false);
            TickSpec(s, JObj(map["elapsed_seconds" := JInt(120)]), localized) ==
            ActionManager.Step(Err(UnicodeDecodeError), s, [])
  {
    var credits := JObj(map["start" := JInt(100), "end" := JInt(130)]);
    var recap := JObj(map["start" := JInt(0), "end" := JInt(20)]);
    var m := map[Markers.Credit := credits, Markers.Recap := recap];
    var s := Skipper(JObj(m), true, false);
    assert Markers.SkippableSections[Markers.Credit] == 30076;
    assert m[Markers.Credit] == credits;
    assert Get(JObj(m), Markers.Credit, JNull) == Ok(credits);
    assert Index(credits, "start") == Ok(JInt(100)) && Index(credits, "end") == Ok(JInt(130));
    assert SkipSpec(s, JInt(100), JInt(130), localized(30076)) == Err(UnicodeDecodeError);
    assert CheckSectionSpec(s, Markers.Credit, 120, localized) == ActionManager.Step(Err(UnicodeDecodeError), s, []);
    assert Index(JObj(map["elapsed_seconds" := JInt(120)]), "elapsed_seconds") == Ok(JInt(120));
  }

  /** The class name, which names the setting that enables the manager */
  const ClassName: string := "SectionSkipper"

  class SectionSkipper {
    var enabled: Option<bool>
    var markers: Json
    var autoSkip: bool
    var pauseOnSkip: bool

    function Fields(): Skipper
      reads this
    {
      Skipper(markers, autoSkip, pauseOnSkip)
    }

    function State(): ActionManager.Manager<Skipper>
      reads this
    {
      ActionManager.Manager(enabled, Fields())
    }

    constructor()
      ensures State() == ActionManager.Manager(None, Initial)
    {
      enabled := None;
      markers := JObj(map[]);
      autoSkip := false;
      pauseOnSkip := false;
    }

    /** The `enabled` getter */
    method Enabled(setting: string -> bool) returns (b: bool)
      modifies this`enabled
      ensures (b, State()) == old(ActionManager.EnabledSpec(State(), setting(ActionManager.SettingId(ClassName))))
    {
      if enabled.None? {
        enabled := Some(setting(ActionManager.SettingId(ClassName)));
      }
      b := enabled.value;
    }

    /** The `enabled` setter */
    method SetEnabled(value: Option<bool>)
      modifies this`enabled
      ensures State() == old(State()).(enabled := value)
    {
      enabled := value;
    }

    /** `_initialize(data)` */
    method InitializeHook(data: Json, setting: string -> bool) returns (r: Result<()>)
      modifies this`markers, this`autoSkip, this`pauseOnSkip
      ensures r.Ok? <==> InitializeSpec(data, setting).Ok?
      ensures Fields() == if r.Ok? then InitializeSpec(data, setting).value else old(Fields())
    {
      var m := Index(data, "timeline_markers");
      if m.Err? {
        return Err(m.exc);
      }
      markers := m.value;
      autoSkip := setting(AutoSkipCredits);
      pauseOnSkip := setting(PauseOnSkip);
      r := Ok(());
    }

    /** `initialize(data)` */
    method Initialize(data: Json, setting: string -> bool)
      modifies this
      ensures State() == old(ActionManager.InitializeSpec(State(), setting(ActionManager.SettingId(ClassName)),
                                                          InitializeSpec(data, setting)))
    {
      var on := Enabled(setting);
      if on {
        var r := InitializeHook(data, setting);
        if r.Err? {
          SetEnabled(Some(false));
        }
      }
    }

    /** `_check_section(section, elapsed)`, with `_skip_section` */
    method CheckSection(section: string, elapsed: int, localized: int -> string) returns (r: Result<()>, effects: seq<Effect>)
      requires section in Markers.SkippableSections
      modifies this`markers
      ensures ActionManager.Step(r, Fields(), effects) == old(CheckSectionSpec(Fields(), section, elapsed, localized))
    {
      effects := [];
      var marker := Get(markers, section, JNull);
      if marker.Err? {
        return Err(marker.exc), [];
      }
      if !Truthy(marker.value) {
        return Ok(()), [];
      }
      var start := Index(marker.value, "start");
      if start.Err? {
        return Err(start.exc), [];
      }
      if !IntAtLeast(elapsed, start.value) {
        return Ok(()), [];
      }
      var end := Index(marker.value, "end");
      if end.Err? {
        return Err(end.exc), [];
      }
      if !IntAtMost(elapsed, end.value) {
        return Ok(()), [];
      }
      var skipped := SkipSpec(Fields(), start.value, end.value, localized(Markers.SkippableSections[section]));
      if skipped.Err? {
        return Err(skipped.exc), [];
      }
      effects := skipped.value;
      markers := JObj(markers.fields - {section});
      r := Ok(());
    }

    /** `_on_tick(player_state)` */
    method TickHook(playerState: Json, localized: int -> string) returns (r: Result<()>, effects: seq<Effect>)
      modifies this`markers
      ensures ActionManager.Step(r, Fields(), effects) == old(TickSpec(Fields(), playerState, localized))
    {
      effects := [];
      var elapsed := Index(playerState, "elapsed_seconds");
      if elapsed.Err? {
        return Err(elapsed.exc), [];
      }
      var n := AsInt(elapsed.value);
      if n.Err? {
        return Err(n.exc), [];
      }
      ghost var spec := CheckAll(Fields(), Sections, n.value, localized);
      assert Sections[0..] == Sections;
      var i := 0;
      while i < |Sections|
        invariant 0 <= i <= |Sections|
        invariant spec == Continued(effects, CheckAll(Fields(), Sections[i..], n.value, localized))
      {
        CheckAllStep(Fields(), Sections, i, n.value, localized);
        var c, cEffects := CheckSection(Sections[i], n.value, localized);
        if c.Err? {
          return c, effects;
        }
        ContinuedTwice(effects, cEffects, CheckAll(Fields(), Sections[i + 1..], n.value, localized));
        effects := effects + cEffects;
        i := i + 1;
      }
      r := Ok(());
    }

    /** `on_tick(player_state)` */
    method OnTick(playerState: Json, setting: string -> bool, localized: int -> string) returns (r: Result<()>, effects: seq<Effect>)
      modifies this
      ensures ActionManager.Step(r, State(), effects) ==
        ActionManager.CallIfEnabledSpec(old(State()), setting(ActionManager.SettingId(ClassName)),
                                        TickSpec(old(Fields()), playerState, localized))
    {
      var on := Enabled(setting);
      if on {
        r, effects := TickHook(playerState, localized);
      } else {
        r, effects := Ok(()), [];
      }
    }

    /** `on_playback_started(player_state)` */
    method OnPlaybackStarted(setting: string -> bool)
      modifies this`enabled
      ensures State() == old(ActionManager.StartedSpec(State(), setting(ActionManager.SettingId(ClassName))))
    {
      var _ := Enabled(setting);
    }

    /** `on_playback_stopped()`: this manager has no hook for it. */
    method OnPlaybackStopped(setting: string -> bool) returns (r: Result<()>, effects: seq<Effect>)
      modifies this`enabled
      ensures ActionManager.Step(r, State(), effects) ==
        old(ActionManager.StoppedSpec(State(), setting(ActionManager.SettingId(ClassName)), ActionManager.Step(Ok(()), Fields(), [])))
    {
      var _ := Enabled(setting);
      r, effects := Ok(()), [];
      SetEnabled(None);
    }
  }
}
