/** `PlaybackController` of resources/lib/playback/controller.py: it tracks
    a playback the add-on started, turns Kodi's player notifications and
    the service's ticks into calls on its action managers, in list order,
    and computes the elapsed seconds of the player state. */
module Controller {
  import opened Wrappers
  import opened Json
  import ActionManager
  import SectionSkipping
  import Bookmarks

  /** An element of `action_managers` */
  datatype ManagerRef =
    | SkipperRef(skipper: SectionSkipping.SectionSkipper)
    | BookmarksRef(bookmarks: Bookmarks.BookmarkManager)

  function Obj(m: ManagerRef): object {
    match m
    case SkipperRef(s) => s
    case BookmarksRef(b) => b
  }

  /** A manager's state */
  datatype ManagerState =
    | SkipperState(skipper: ActionManager.Manager<SectionSkipping.Skipper>)
    | BookmarkState(bookmarks: ActionManager.Manager<Bookmarks.Bookmark>)

  function StateOf(m: ManagerRef): ManagerState
    reads Obj(m)
  {
    match m
    case SkipperRef(s) => SkipperState(s.State())
    case BookmarksRef(b) => BookmarkState(b.State())
  }

  function StatesOf(ms: seq<ManagerRef>): (r: seq<ManagerState>)
    reads set m | m in ms :: Obj(m)
    ensures |r| == |ms| && forall i :: 0 <= i < |ms| ==> r[i] == StateOf(ms[i])
  {
    if ms == [] then [] else [StateOf(ms[0])] + StatesOf(ms[1..])
  }

  /** What the managers ask of Kodi: skipping and library updates */
  datatype Effect =
    | Skip(skip: SectionSkipping.Effect)
    | Library(update: Bookmarks.Update)

  function Skips(es: seq<SectionSkipping.Effect>): (r: seq<Effect>)
    ensures |r| == |es| && forall i :: 0 <= i < |es| ==> r[i] == Skip(es[i])
  {
    if es == [] then [] else [Skip(es[0])] + Skips(es[1..])
  }

  function Updates(us: seq<Bookmarks.Update>): (r: seq<Effect>)
    ensures |r| == |us| && forall i :: 0 <= i < |us| ==> r[i] == Library(us[i])
  {
    if us == [] then [] else [Library(us[0])] + Updates(us[1..])
  }

  /** The manager notifications, with the data `_notify_all` passes */
  datatype Notification =
    | Initialize(data: Json)
    | Started(playerState: Json)
    | Tick(playerState: Json)
    | Stopped

  /** `notify_method(data)` or `notify_method()` on one manager: data that is
      None is not passed, and the methods that need it then raise
      `TypeError` before doing anything. */
  function NotifyOne(m: ManagerState, n: Notification, setting: string -> bool, localized: int -> string)
    : (r: ActionManager.Step<ManagerState, Effect>)
    ensures r.fields.SkipperState? <==> m.SkipperState?
    ensures (n.Initialize? && n.data == JNull) || (n.Started? && n.playerState == JNull) || (n.Tick? && n.playerState == JNull) ==>
      r == ActionManager.Step(Err(TypeError), m, [])
  {
    var missing := (n.Initialize? && n.data == JNull) || (n.Started? && n.playerState == JNull) || (n.Tick? && n.playerState == JNull);
    if missing then ActionManager.Step(Err(TypeError), m, [])
    else match m
      case SkipperState(s) =>
        var enabled := setting(ActionManager.SettingId(SectionSkipping.ClassName));
        var step := match n
          case Initialize(data) =>
            ActionManager.Step(Ok(()), ActionManager.InitializeSpec(s, enabled, SectionSkipping.InitializeSpec(data, setting)), [])
          case Started(_) => ActionManager.Step(Ok(()), ActionManager.StartedSpec(s, enabled), [])
          case Tick(ps) => ActionManager.CallIfEnabledSpec(s, enabled, SectionSkipping.TickSpec(s.fields, ps, localized))
          case Stopped => ActionManager.StoppedSpec(s, enabled, ActionManager.Step(Ok(()), s.fields, []));
        ActionManager.Step(step.result, SkipperState(step.fields), Skips(step.effects))
      case BookmarkState(b) =>
        var enabled := setting(ActionManager.SettingId(Bookmarks.ClassName));
        var step := match n
          case Initialize(data) =>
            ActionManager.Step(Ok(()), ActionManager.InitializeSpec(b, enabled, Bookmarks.InitializeSpec(data)), [])
          case Started(_) => ActionManager.Step(Ok(()), ActionManager.StartedSpec(b, enabled), [])
          case Tick(ps) => ActionManager.CallIfEnabledSpec(b, enabled, Bookmarks.TickSpec(b.fields, ps))
          case Stopped => ActionManager.StoppedSpec(b, enabled, ActionManager.Atomic(Bookmarks.StoppedSpec(b.fields), b.fields));
        ActionManager.Step(step.result, BookmarkState(step.fields), Updates(step.effects))
  }

  /** `NotifyOne` for a fixed notification, as a function of the manager */
  function Notifier(n: Notification, setting: string -> bool, localized: int -> string)
    : ManagerState -> ActionManager.Step<ManagerState, Effect>
  {
    m => NotifyOne(m, n, setting, localized)
  }

  /** The loop of `_notify_all` for any way of notifying one manager: list
      order, and an exception stops the loop and leaves the later managers
      as they were. */
  function NotifyEach<S, E>(ms: seq<S>, notify: S -> ActionManager.Step<S, E>): (r: ActionManager.Step<seq<S>, E>)
    ensures |r.fields| == |ms|
    decreases |ms|
  {
    if ms == [] then ActionManager.Step(Ok(()), [], [])
    else
      var first := notify(ms[0]);
      if first.result.Err? then ActionManager.Step(first.result, [first.fields] + ms[1..], first.effects)
      else
        var rest := NotifyEach(ms[1..], notify);
        ActionManager.Step(rest.result, [first.fields] + rest.fields, first.effects + rest.effects)
  }

  /** `_notify_all(notification, data)` */
  function NotifyAllSpec(ms: seq<ManagerState>, n: Notification, setting: string -> bool, localized: int -> string)
    : (r: ActionManager.Step<seq<ManagerState>, Effect>)
  {
    NotifyEach(ms, Notifier(n, setting, localized))
  }

  /** When no manager raises, each one receives the notification once, in
      order, and the effects are theirs concatenated in list order. */
  lemma {:induction false} NotifyAllInOrder<S, E>(ms: seq<S>, notify: S -> ActionManager.Step<S, E>)
    requires forall i :: 0 <= i < |ms| ==> notify(ms[i]).result.Ok?
    ensures var r := NotifyEach(ms, notify);
            && r.result.Ok?
            && (forall i :: 0 <= i < |ms| ==> r.fields[i] == notify(ms[i]).fields)
            && r.effects == EffectsOf(ms, notify)
    decreases |ms|
  {
    if ms != [] {
      NotifyAllInOrder(ms[1..], notify);
      var r := NotifyEach(ms, notify);
      forall i | 0 <= i < |ms|
        ensures r.fields[i] == notify(ms[i]).fields
      {
        if i > 0 {
          assert ms[1..][i - 1] == ms[i];
        }
      }
    }
  }

  /** The effects of notifying each manager, concatenated in list order */
  function EffectsOf<S, E>(ms: seq<S>, notify: S -> ActionManager.Step<S, E>): seq<E>
    decreases |ms|
  {
    if ms == [] then [] else notify(ms[0]).effects + EffectsOf(ms[1..], notify)
  }

  /** The first manager that raises is the last one notified. */
  lemma {:induction false} NotifyAllStopsAtFirstFailure<S, E>(ms: seq<S>, notify: S -> ActionManager.Step<S, E>, k: nat)
    requires k < |ms| && notify(ms[k]).result.Err?
    requires forall i :: 0 <= i < k ==> notify(ms[i]).result.Ok?
    ensures var r := NotifyEach(ms, notify);
            && r.result == notify(ms[k]).result
            && (forall i :: 0 <= i <= k ==> r.fields[i] == notify(ms[i]).fields)
            && r.fields[k + 1..] == ms[k + 1..]
    decreases k
  {
    var r := NotifyEach(ms, notify);
    if k > 0 {
      forall i | 0 <= i < k - 1
        ensures notify(ms[1..][i]).result.Ok?
      {
        assert ms[1..][i] == ms[i + 1];
      }
      NotifyAllStopsAtFirstFailure(ms[1..], notify, k - 1);
      forall i | 0 <= i <= k
        ensures r.fields[i] == notify(ms[i]).fields
      {
        if i > 0 {
          assert ms[1..][i - 1] == ms[i];
        }
      }
      assert r.fields[k + 1..] == NotifyEach(ms[1..], notify).fields[k..];
      assert ms[1..][k..] == ms[k + 1..];
    }
  }

  /** The loop of `_notify_all` after `i` managers: `done` are their new
      states and `effects` what they did */
  ghost predicate NotifiedUpTo<S, E>(spec: ActionManager.Step<seq<S>, E>, ms: seq<S>, i: nat,
                                     done: seq<S>, effects: seq<E>, notify: S -> ActionManager.Step<S, E>)
    requires i <= |ms|
  {
    var rest := NotifyEach(ms[i..], notify);
    spec == ActionManager.Step(rest.result, done + rest.fields, effects + rest.effects)
  }

  /** One more manager notified keeps `NotifiedUpTo`, or ends the loop with
      the exception */
  lemma NotifiedNext<S, E>(spec: ActionManager.Step<seq<S>, E>, ms: seq<S>, i: nat,
                           done: seq<S>, effects: seq<E>, notify: S -> ActionManager.Step<S, E>)
    requires i < |ms| && NotifiedUpTo(spec, ms, i, done, effects, notify)
    ensures var first := notify(ms[i]);
            if first.result.Err? then
              spec == ActionManager.Step(first.result, done + [first.fields] + ms[i + 1..], effects + first.effects)
            else
              NotifiedUpTo(spec, ms, i + 1, done + [first.fields], effects + first.effects, notify)
  {
    assert ms[i..][0] == ms[i] && ms[i..][1..] == ms[i + 1..];
    var first := notify(ms[i]);
    var rest := NotifyEach(ms[i + 1..], notify);
    assert done + ([first.fields] + ms[i + 1..]) == done + [first.fields] + ms[i + 1..];
    assert done + ([first.fields] + rest.fields) == (done + [first.fields]) + rest.fields;
    assert effects + (first.effects + rest.effects) == (effects + first.effects) + rest.effects;
  }

  /** The state of the loop of `_notify_all` after `i` managers, with
      `states` the managers' states and `r` the last outcome */
  ghost predicate Progress<S, E>(spec: ActionManager.Step<seq<S>, E>, start: seq<S>, i: nat, done: seq<S>,
                                 states: seq<S>, r: Result<()>, effects: seq<E>, notify: S -> ActionManager.Step<S, E>)
    requires i <= |start|
  {
    if r.Ok? then |done| == i && states == done + start[i..] && NotifiedUpTo(spec, start, i, done, effects, notify)
    else spec == ActionManager.Step(r, states, effects)
  }

  lemma ProgressStart<S, E>(start: seq<S>, notify: S -> ActionManager.Step<S, E>)
    ensures Progress(NotifyEach(start, notify), start, 0, [], start, Ok(()), [], notify)
  {
    var spec := NotifyEach(start, notify);
    assert start[0..] == start;
    assert [] + spec.fields == spec.fields && [] + spec.effects == spec.effects;
  }

  /** Notifying manager `i`, whose step is `(ri, x, es)`, keeps `Progress`. */
  lemma ProgressNext<S, E>(spec: ActionManager.Step<seq<S>, E>, start: seq<S>, i: nat, done: seq<S>,
                           states: seq<S>, effects: seq<E>, notify: S -> ActionManager.Step<S, E>,
                           ri: Result<()>, x: S, es: seq<E>)
    requires i < |start| && Progress(spec, start, i, done, states, Ok(()), effects, notify)
    requires notify(states[i]) == ActionManager.Step(ri, x, es)
    ensures Progress(spec, start, i + 1, done + [x], states[i := x], ri, effects + es, notify)
  {
    assert states[i] == start[i];
    NotifiedNext(spec, start, i, done, effects, notify);
    ReplaceNext(done, start, i, x);
  }

  /** When the loop ends, `spec` is what it did. */
  lemma ProgressEnd<S, E>(spec: ActionManager.Step<seq<S>, E>, start: seq<S>, i: nat, done: seq<S>,
                          states: seq<S>, r: Result<()>, effects: seq<E>, notify: S -> ActionManager.Step<S, E>)
    requires i <= |start| && Progress(spec, start, i, done, states, r, effects, notify)
    requires r.Ok? ==> i == |start|
    ensures spec == ActionManager.Step(if r.Ok? then Ok(()) else r, states, effects)
  {
    if r.Ok? {
      assert start[i..] == [];
      assert done + [] == done && effects + [] == effects;
    }
  }

  /** Replacing the first of the managers not yet notified */
  lemma ReplaceNext<T>(done: seq<T>, start: seq<T>, i: nat, x: T)
    requires |done| == i < |start|
    ensures (done + start[i..])[i := x] == done + [x] + start[i + 1..]
  {
  }

  /** Notify one manager object */
  method Notify(m: ManagerRef, n: Notification, setting: string -> bool, localized: int -> string)
    returns (r: Result<()>, effects: seq<Effect>)
    modifies Obj(m)
    ensures ActionManager.Step(r, StateOf(m), effects) == old(NotifyOne(StateOf(m), n, setting, localized))
  {
    if (n.Initialize? && n.data == JNull) || (n.Started? && n.playerState == JNull) || (n.Tick? && n.playerState == JNull) {
      return Err(TypeError), [];
    }
    match m {
      case SkipperRef(s) =>
        var es: seq<SectionSkipping.Effect> := [];
        match n {
          case Initialize(data) =>
            s.Initialize(data, setting);
            r := Ok(());
          case Started(_) =>
            s.OnPlaybackStarted(setting);
            r := Ok(());
          case Tick(ps) =>
            r, es := s.OnTick(ps, setting, localized);
          case Stopped =>
            r, es := s.OnPlaybackStopped(setting);
        }
        effects := Skips(es);
      case BookmarksRef(b) =>
        var us: seq<Bookmarks.Update> := [];
        match n {
          case Initialize(data) =>
            b.Initialize(data, setting);
            r := Ok(());
          case Started(_) =>
            b.OnPlaybackStarted(setting);
            r := Ok(());
          case Tick(ps) =>
            r, us := b.OnTick(ps, setting);
          case Stopped =>
            r, us := b.OnPlaybackStopped(setting);
        }
        effects := Updates(us);
    }
  }

  /** `_get_player_state()`: a failing request (`IOError`) gives `{}`;
      otherwise the answer gains `elapsed_seconds` computed from its time. */
  function PlayerStateSpec(response: Result<Json>): (r: Result<Json>)
    ensures response == Err(IOError) ==> r == Ok(JObj(map[]))
    ensures response.Err? && response.exc != IOError ==> r == response
    ensures response.Ok? && r.Ok? ==> (
      && response.value.JObj? && "time" in response.value.fields && r.value.JObj?
      && Index(response.value.fields["time"], "hours").Ok?
      && Index(response.value.fields["time"], "minutes").Ok?
      && Index(response.value.fields["time"], "seconds").Ok?
      && AsInt(Index(response.value.fields["time"], "hours").value).Ok?
      && AsInt(Index(response.value.fields["time"], "minutes").value).Ok?
      && AsInt(Index(response.value.fields["time"], "seconds").value).Ok?
      && r.value.fields == response.value.fields["elapsed_seconds" := JInt(
           AsInt(Index(response.value.fields["time"], "hours").value).value * 3600 +
           AsInt(Index(response.value.fields["time"], "minutes").value).value * 60 +
           AsInt(Index(response.value.fields["time"], "seconds").value).value)])
  {
    match response
    case Err(e) => if e == IOError then Ok(JObj(map[])) else Err(e)
    case Ok(ps) =>
      var time :- Index(ps, "time");
      var hours :- Index(time, "hours");
      var h :- AsInt(hours);
      var minutes :- Index(time, "minutes");
      var m :- AsInt(minutes);
      var seconds :- Index(time, "seconds");
      var s :- AsInt(seconds);
      Ok(JObj(ps.fields["elapsed_seconds" := JInt(h * 3600 + m * 60 + s)]))
  }

  /** For a clock time (minutes and seconds below 60) the elapsed seconds
      determine the hours, minutes and seconds they were computed from. */
  lemma ElapsedSecondsDetermineTime(h: int, m: int, s: int)
    requires 0 <= m < 60 && 0 <= s < 60
    ensures var e := h * 3600 + m * 60 + s;
            e / 3600 == h && (e % 3600) / 60 == m && e % 60 == s
  {
    var e := h * 3600 + m * 60 + s;
    assert 0 <= m * 60 + s < 3600;
    assert e == h * 3600 + (m * 60 + s);
    assert e / 3600 == h && e % 3600 == m * 60 + s;
    assert e == (h * 60 + m) * 60 + s;
  }

  class PlaybackController {
    var tracking: bool
    /** `active_player_id`, `JNull` standing for None */
    var activePlayerId: Json
    const managers: seq<ManagerRef>
    /** What the managers asked Kodi to do, in order */
    var log: seq<Effect>
    /** `getSettingBool` */
    const setting: string -> bool
    /** `getLocalizedString` */
    const localized: int -> string

    /** The manager objects */
    ghost const Repr: set<object>

    /** Every manager object is in `Repr`, none is listed twice and none is
        the controller. */
    ghost predicate Valid() {
      && this !in Repr
      && (forall i :: 0 <= i < |managers| ==> Obj(managers[i]) in Repr)
      && (forall i, j :: 0 <= i < j < |managers| ==> Obj(managers[i]) != Obj(managers[j]))
    }

    function States(): seq<ManagerState>
      requires Valid()
      reads Repr
    {
      StatesOf(managers)
    }

    /** `__init__(action_managers)`: not tracking, no player */
    constructor(managers: seq<ManagerRef>, setting: string -> bool, localized: int -> string)
      requires forall i, j :: 0 <= i < j < |managers| ==> Obj(managers[i]) != Obj(managers[j])
      ensures Valid() && Repr == set m | m in managers :: Obj(m)
      ensures this.managers == managers && this.setting == setting && this.localized == localized
      ensures !tracking && activePlayerId == JNull && log == []
    {
      this.managers := managers;
      this.setting := setting;
      this.localized := localized;
      Repr := set m | m in managers :: Obj(m);
      tracking := false;
      activePlayerId := JNull;
      log := [];
    }

    /** Notify the manager at index `i`; the others are left alone. */
    method NotifyAt(i: nat, n: Notification) returns (r: Result<()>, effects: seq<Effect>)
      requires Valid() && i < |managers|
      modifies Obj(managers[i])
      ensures ActionManager.Step(r, States()[i], effects) == old(NotifyOne(States()[i], n, setting, localized))
      ensures States() == old(States())[i := States()[i]]
    {
      r, effects := Notify(managers[i], n, setting, localized);
      forall j | 0 <= j < |managers| && j != i
        ensures StateOf(managers[j]) == old(StateOf(managers[j]))
      {
        assert Obj(managers[j]) != Obj(managers[i]);
      }
    }

    /** `_notify_all(notification, data)` */
    method NotifyAll(n: Notification) returns (r: Result<()>, effects: seq<Effect>)
      requires Valid()
      modifies Repr
      ensures old(NotifyAllSpec(States(), n, setting, localized)) == ActionManager.Step(r, States(), effects)
    {
      ghost var start := States();
      ghost var notify := Notifier(n, setting, localized);
      ghost var spec := NotifyEach(start, notify);
      ghost var done: seq<ManagerState> := [];
      effects := [];
      r := Ok(());
      ProgressStart(start, notify);
      var i := 0;
      while i < |managers| && r.Ok?
        invariant 0 <= i <= |managers| == |start|
        invariant Progress(spec, start, i, done, States(), r, effects, notify)
      {
        ghost var before := States();
        var ri, es := NotifyAt(i, n);
        ProgressNext(spec, start, i, done, before, effects, notify, ri, States()[i], es);
        r := ri;
        done := done + [States()[i]];
        effects := effects + es;
        i := i + 1;
      }
      ProgressEnd(spec, start, i, done, States(), r, effects, notify);
      if r.Ok? {
        r := Ok(());
      }
    }

    /** `_notify_all`, with what the managers did appended to the log */
    method NotifyAndLog(n: Notification) returns (r: Result<()>)
      requires Valid()
      modifies Repr, this`log
      ensures var spec := old(NotifyAllSpec(States(), n, setting, localized));
              r == spec.result && States() == spec.fields && log == old(log) + spec.effects
    {
      var effects;
      r, effects := NotifyAll(n);
      log := log + effects;
    }

    /** `initialize_playback(data)`: the managers catch their own
        exceptions, so only a None payload can make the loop raise. */
    method InitializePlayback(data: Json) returns (r: Result<()>)
      requires Valid()
      modifies Repr, this`log, this`tracking
      ensures tracking
      ensures var spec := old(NotifyAllSpec(States(), Initialize(data), setting, localized));
              r == spec.result && States() == spec.fields && log == old(log) + spec.effects
    {
      tracking := true;
      r := NotifyAndLog(Initialize(data));
    }

    /** `_on_playback_started(data)`: the player id, then the managers with
        the player state of that player */
    method OnPlaybackStarted(data: Json, response: Result<Json>) returns (r: Result<()>)
      requires Valid()
      modifies Repr, this`log, this`activePlayerId
      ensures GetPath(data, ["player", "playerid"]).Err? ==>
        r == Err(GetPath(data, ["player", "playerid"]).exc) && activePlayerId == old(activePlayerId) &&
        States() == old(States()) && log == old(log)
      ensures GetPath(data, ["player", "playerid"]).Ok? ==> activePlayerId == GetPath(data, ["player", "playerid"]).value
      ensures GetPath(data, ["player", "playerid"]).Ok? && PlayerStateSpec(response).Err? ==>
        r == Err(PlayerStateSpec(response).exc) && States() == old(States()) && log == old(log)
      ensures GetPath(data, ["player", "playerid"]).Ok? && PlayerStateSpec(response).Ok? ==>
        var spec := old(NotifyAllSpec(States(), Started(PlayerStateSpec(response).value), setting, localized));
        r == spec.result && States() == spec.fields && log == old(log) + spec.effects
    {
      var id := GetPath(data, ["player", "playerid"]);
      if id.Err? {
        return Err(id.exc);
      }
      activePlayerId := id.value;
      var ps := PlayerStateSpec(response);
      if ps.Err? {
        return Err(ps.exc);
      }
      r := NotifyAndLog(Started(ps.value));
    }

    /** `_on_playback_stopped()` */
    method OnPlaybackStopped() returns (r: Result<()>)
      requires Valid()
      modifies Repr, this`log, this`tracking, this`activePlayerId
      ensures !tracking && activePlayerId == JNull
      ensures var spec := old(NotifyAllSpec(States(), Stopped, setting, localized));
              r == spec.result && States() == spec.fields && log == old(log) + spec.effects
    {
      tracking := false;
      activePlayerId := JNull;
      r := NotifyAndLog(Stopped);
    }

    /** `onNotification(sender, method, data)`: only a playback the add-on
        started is followed; other notifications are ignored. */
    method OnNotification(kodiMethod: string, data: Json, response: Result<Json>) returns (r: Result<()>)
      requires Valid()
      modifies Repr, this`log, this`tracking, this`activePlayerId
      ensures !old(tracking) || (kodiMethod != "Player.OnAVStart" && kodiMethod != "Player.OnStop") ==>
        r == Ok(()) && tracking == old(tracking) && activePlayerId == old(activePlayerId) &&
        States() == old(States()) && log == old(log)
      ensures old(tracking) && kodiMethod == "Player.OnStop" ==> !tracking && activePlayerId == JNull
      ensures old(tracking) && kodiMethod == "Player.OnStop" ==>
        var spec := old(NotifyAllSpec(States(), Stopped, setting, localized));
        r == spec.result && States() == spec.fields && log == old(log) + spec.effects
      ensures old(tracking) && kodiMethod == "Player.OnAVStart" ==> tracking
      ensures old(tracking) && kodiMethod == "Player.OnAVStart" && GetPath(data, ["player", "playerid"]).Err? ==>
        r == Err(GetPath(data, ["player", "playerid"]).exc) && activePlayerId == old(activePlayerId) &&
        States() == old(States()) && log == old(log)
      ensures old(tracking) && kodiMethod == "Player.OnAVStart" && GetPath(data, ["player", "playerid"]).Ok? ==>
        activePlayerId == GetPath(data, ["player", "playerid"]).value
      ensures old(tracking) && kodiMethod == "Player.OnAVStart" && GetPath(data, ["player", "playerid"]).Ok? &&
              PlayerStateSpec(response).Err? ==>
        r == Err(PlayerStateSpec(response).exc) && States() == old(States()) && log == old(log)
      ensures old(tracking) && kodiMethod == "Player.OnAVStart" && GetPath(data, ["player", "playerid"]).Ok? &&
              PlayerStateSpec(response).Ok? ==>
        var spec := old(NotifyAllSpec(States(), Started(PlayerStateSpec(response).value), setting, localized));
        r == spec.result && States() == spec.fields && log == old(log) + spec.effects
    {
      r := Ok(());
      if tracking {
        if kodiMethod == "Player.OnAVStart" {
          r := OnPlaybackStarted(data, response);
        } else if kodiMethod == "Player.OnStop" {
          r := OnPlaybackStopped();
        }
      }
    }

    /** `on_playback_tick()`: the managers hear of a tick only while a
        playback is tracked and the player state is not empty. */
    method OnPlaybackTick(response: Result<Json>) returns (r: Result<()>)
      requires Valid()
      modifies Repr, this`log
      ensures !tracking || PlayerStateSpec(response) == Ok(JObj(map[])) ==>
        r == Ok(()) && States() == old(States()) && log == old(log)
      ensures tracking && PlayerStateSpec(response).Err? ==>
        r == Err(PlayerStateSpec(response).exc) && States() == old(States()) && log == old(log)
      ensures tracking && PlayerStateSpec(response).Ok? && Truthy(PlayerStateSpec(response).value) ==>
        var spec := old(NotifyAllSpec(States(), Tick(PlayerStateSpec(response).value), setting, localized));
        r == spec.result && States() == spec.fields && log == old(log) + spec.effects
    {
      r := Ok(());
      if tracking {
        var ps := PlayerStateSpec(response);
        if ps.Err? {
          return Err(ps.exc);
        }
        if Truthy(ps.value) {
          r := NotifyAndLog(Tick(ps.value));
        }
      }
    }
  }
}
