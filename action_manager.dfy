/** `PlaybackActionManager` of resources/lib/playback/action_manager.py:
    the tri-state `enabled` flag and the dispatch of the playback hooks.
    The managers' own state is a type parameter; each manager class
    (`SectionSkipping.SectionSkipper`, `Bookmarks.BookmarkManager`) holds
    the flag next to its fields and is specified by these functions. */
module ActionManager {
  import opened Wrappers

  /** A manager: the `_enabled` flag (None until read from the settings)
      and the fields of the concrete manager */
  datatype Manager<S> = Manager(enabled: Option<bool>, fields: S)

  /** What a call did: its outcome (an exception propagates), the state it
      left behind and the Kodi effects it performed, in order, before any
      exception */
  datatype Step<S, E> = Step(result: Result<()>, fields: S, effects: seq<E>)

  /** A hook that changes no field and performs its effects only when it
      returns normally */
  function Atomic<S, E>(r: Result<seq<E>>, fields: S): (step: Step<S, E>)
    ensures step.fields == fields
    ensures step.result.Ok? <==> r.Ok?
    ensures step.effects == if r.Ok? then r.value else []
  {
    if r.Ok? then Step(Ok(()), fields, r.value) else Step(Err(r.exc), fields, [])
  }

  /** The boolean setting that enables a manager class */
  function SettingId(className: string): string {
    className + "_enabled"
  }

  /** The `enabled` getter: the setting is read only while the flag is None,
      and the value read is kept. */
  function EnabledSpec<S>(m: Manager<S>, setting: bool): (r: (bool, Manager<S>))
    ensures r.1 == m.(enabled := Some(r.0))
    ensures m.enabled.Some? ==> r.0 == m.enabled.value
    ensures m.enabled.None? ==> r.0 == setting
  {
    match m.enabled
    case Some(b) => (b, m)
    case None => (setting, m.(enabled := Some(setting)))
  }

  /** Once read, the flag no longer follows the setting. */
  lemma EnabledIsLoadedOnce<S>(m: Manager<S>, first: bool, later: bool)
    ensures var (b, loaded) := EnabledSpec(m, first);
            EnabledSpec(loaded, later) == (b, loaded)
  {
  }

  /** `initialize(data)`: the hook runs when enabled; any exception it
      raises is swallowed and disables the manager. `hook` is the outcome
      of the manager's `_initialize` on its current fields. */
  function InitializeSpec<S>(m: Manager<S>, setting: bool, hook: Result<S>): (r: Manager<S>)
    ensures r.enabled.Some?
    ensures !EnabledSpec(m, setting).0 ==> r == EnabledSpec(m, setting).1
    ensures EnabledSpec(m, setting).0 ==> r == (if hook.Ok? then Manager(Some(true), hook.value) else Manager(Some(false), m.fields))
  {
    var (enabled, loaded) := EnabledSpec(m, setting);
    if !enabled then loaded
    else if hook.Err? then loaded.(enabled := Some(false))
    else loaded.(fields := hook.value)
  }

  /** `_call_if_enabled(hook)`: the hook's outcome, fields and effects
      when the manager is enabled, nothing otherwise. `hook` is what the
      manager's hook would do on its current fields. */
  function CallIfEnabledSpec<S, E>(m: Manager<S>, setting: bool, hook: Step<S, E>): (r: Step<Manager<S>, E>)
    ensures r.fields.enabled == Some(EnabledSpec(m, setting).0)
    ensures !EnabledSpec(m, setting).0 ==> r == Step(Ok(()), EnabledSpec(m, setting).1, [])
    ensures EnabledSpec(m, setting).0 ==> r == Step(hook.result, Manager(Some(true), hook.fields), hook.effects)
  {
    var (enabled, loaded) := EnabledSpec(m, setting);
    if enabled then Step(hook.result, loaded.(fields := hook.fields), hook.effects)
    else Step(Ok(()), loaded, [])
  }

  /** `on_playback_started`: the managers modelled here have no hook for it,
      so only the flag is loaded. */
  function StartedSpec<S>(m: Manager<S>, setting: bool): (r: Manager<S>)
    ensures r.fields == m.fields && r.enabled.Some?
  {
    CallIfEnabledSpec<S, ()>(m, setting, Step(Ok(()), m.fields, [])).fields
  }

  /** `on_playback_stopped`: the hook runs when enabled and then the flag
      goes back to None, so the next playback reads the setting again; an
      exception of the hook skips the reset. */
  function StoppedSpec<S, E>(m: Manager<S>, setting: bool, hook: Step<S, E>): (r: Step<Manager<S>, E>)
    ensures r.result == CallIfEnabledSpec(m, setting, hook).result
    ensures r.effects == CallIfEnabledSpec(m, setting, hook).effects
    ensures r.fields.fields == CallIfEnabledSpec(m, setting, hook).fields.fields
    ensures r.result.Ok? ==> r.fields.enabled.None?
    ensures r.result.Err? ==> r.fields.enabled == Some(true)
  {
    var called := CallIfEnabledSpec(m, setting, hook);
    if called.result.Err? then called else called.(fields := called.fields.(enabled := None))
  }

  /** A manager whose `_initialize` failed stays silent for the rest of the
      playback, whatever the setting says, and is re-enabled from the
      setting after the playback stops. */
  lemma FailedInitializeDisables<S, E>(m: Manager<S>, setting: bool, init: Result<S>,
                                       later: bool, tick: Step<S, E>, stop: Step<S, E>, next: bool)
    requires EnabledSpec(m, setting).0 && init.Err?
    ensures var disabled := InitializeSpec(m, setting, init);
            && CallIfEnabledSpec(disabled, later, tick) == Step(Ok(()), disabled, [])
            && StoppedSpec(disabled, later, stop) == Step(Ok(()), disabled.(enabled := None), [])
            && EnabledSpec(StoppedSpec(disabled, later, stop).fields, next).0 == next
  {
  }
}
