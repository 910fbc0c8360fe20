/**
 * The persisted "force classic terminal" setting of the tunnel plugin.
 *
 * While the flag is on, the host's block-terminal registry flag (the "new
 * terminal UI" switch) is forced to false, and the value it had before is
 * remembered once; when the flag is turned off, the remembered value is put
 * back and forgotten. The registry is a single boolean cell here.
 */
module TerminalSettings {
  import opened Wrappers

  /** Value view of the persisted settings record. */
  datatype Snapshot = Snapshot(forceClassicTerminal: bool, previousNewUiValue: Option<bool>)

  /** The settings and registry cell after applying the setting, and the value
      written to the registry by that step, if any. */
  datatype Applied = Applied(settings: Snapshot, registry: bool, written: Option<bool>)

  /** The values written to the registry by one step, as a log segment. */
  function WriteLog(written: Option<bool>): seq<bool> {
    match written
    case None => []
    case Some(v) => [v]
  }

  /** Effect of `applySetting` on settings `s` when the registry reads `current`. */
  function AfterApply(s: Snapshot, current: bool): (r: Applied)
    ensures r.settings.forceClassicTerminal == s.forceClassicTerminal
    // the registry changes exactly when it is written, and a write always changes it
    ensures r.written.None? ==> r.registry == current
    ensures r.written.Some? ==> r.registry == r.written.value && r.registry != current
    // flag on: remember the original value once, force the registry off
    ensures s.forceClassicTerminal ==> !r.registry
    ensures s.forceClassicTerminal ==> (r.written.Some? <==> current)
    ensures s.forceClassicTerminal && s.previousNewUiValue.Some? ==>
              r.settings.previousNewUiValue == s.previousNewUiValue
    ensures s.forceClassicTerminal && s.previousNewUiValue.None? ==>
              r.settings.previousNewUiValue == Some(current)
    // flag off: restore the remembered value, then forget it
    ensures !s.forceClassicTerminal ==> r.settings.previousNewUiValue == None
    ensures !s.forceClassicTerminal && s.previousNewUiValue.Some? ==>
              r.registry == s.previousNewUiValue.value
    ensures !s.forceClassicTerminal && s.previousNewUiValue.None? ==> r.written == None
  {
    if s.forceClassicTerminal then
      var saved := if s.previousNewUiValue == None then Some(current) else s.previousNewUiValue;
      Applied(Snapshot(true, saved), false, if current then Some(false) else None)
    else
      var previous := s.previousNewUiValue;
      if previous.Some? && previous.value != current then
        Applied(Snapshot(false, None), previous.value, Some(previous.value))
      else
        Applied(Snapshot(false, None), current, None)
  }

  /** Effect of `setForceClassicTerminal(enabled)`. */
  function AfterSet(s: Snapshot, current: bool, enabled: bool): (r: Applied)
    ensures r.settings.forceClassicTerminal == enabled
    // setting the value already held changes nothing and writes nothing
    ensures s.forceClassicTerminal == enabled ==> r == Applied(s, current, None)
    ensures s.forceClassicTerminal != enabled ==>
              r == AfterApply(Snapshot(enabled, s.previousNewUiValue), current)
  {
    if s.forceClassicTerminal == enabled then Applied(s, current, None)
    else AfterApply(Snapshot(enabled, s.previousNewUiValue), current)
  }

  /** The settings and registry after a series of `setForceClassicTerminal` calls,
      with nothing else touching the registry in between. */
  function Replay(s: Snapshot, registry: bool, flags: seq<bool>): (Snapshot, bool)
    decreases |flags|
  {
    if flags == [] then (s, registry)
    else
      var r := AfterSet(s, registry, flags[0]);
      Replay(r.settings, r.registry, flags[1..])
  }

  /** The two states the setting can be in when the registry started out as `v`:
      off with nothing remembered and the registry back at `v`, or on with `v`
      remembered and the registry forced off. */
  predicate Restorable(s: Snapshot, registry: bool, v: bool) {
    (s == Snapshot(false, None) && registry == v) ||
    (s == Snapshot(true, Some(v)) && !registry)
  }

  /** Round trip: however often the flag is toggled, turning it off brings the
      registry back to its original value and leaves nothing remembered. */
  lemma {:induction false} ReplayRestores(s: Snapshot, registry: bool, v: bool, flags: seq<bool>)
    requires Restorable(s, registry, v)
    ensures Restorable(Replay(s, registry, flags).0, Replay(s, registry, flags).1, v)
    ensures flags != [] ==> Replay(s, registry, flags).0.forceClassicTerminal == flags[|flags| - 1]
    decreases |flags|
  {
    if flags != [] {
      var r := AfterSet(s, registry, flags[0]);
      assert Restorable(r.settings, r.registry, v);
      ReplayRestores(r.settings, r.registry, v, flags[1..]);
      if |flags| > 1 {
        assert flags[1..][|flags[1..]| - 1] == flags[|flags| - 1];
      }
    }
  }

  /** The mutable settings record (`TunnelTerminalSettingsState`). */
  class SettingsState {
    var forceClassicTerminal: bool
    var previousNewUiValue: Option<bool>

    constructor ()
      ensures forceClassicTerminal == false && previousNewUiValue == None
    {
      forceClassicTerminal := false;
      previousNewUiValue := None;
    }

    function View(): Snapshot
      reads this
    {
      Snapshot(forceClassicTerminal, previousNewUiValue)
    }
  }

  /** The application service owning the settings record and driving the registry. */
  class TerminalSettingsService {
    var settingsState: SettingsState
    /** The block-terminal registry flag: true when the new terminal UI is on. */
    var registry: bool
    /** Every value written to the registry by this service, in order. */
    ghost var registryWrites: seq<bool>

    constructor (registryValue: bool)
      ensures fresh(settingsState) && settingsState.View() == Snapshot(false, None)
      ensures registry == registryValue && registryWrites == []
    {
      settingsState := new SettingsState();
      registry := registryValue;
      registryWrites := [];
    }

    method GetState() returns (state: SettingsState)
      ensures state == settingsState
    {
      state := settingsState;
    }

    function IsForceClassicTerminal(): (enabled: bool)
      reads this, settingsState
      ensures enabled <==> settingsState.View().forceClassicTerminal
    {
      settingsState.forceClassicTerminal
    }

    /** Adopts `state` as the settings record (the object itself, not a copy) and applies it. */
    method LoadState(state: SettingsState)
      modifies this`settingsState, this`registry, this`registryWrites, state
      ensures settingsState == state
      ensures var r := AfterApply(old(state.View()), old(registry));
              state.View() == r.settings && registry == r.registry &&
              registryWrites == old(registryWrites) + WriteLog(r.written)
    {
      settingsState := state;
      ApplySetting();
    }

    method SetForceClassicTerminal(enabled: bool)
      modifies this`registry, this`registryWrites, settingsState
      ensures settingsState == old(settingsState)
      ensures var r := AfterSet(old(settingsState.View()), old(registry), enabled);
              settingsState.View() == r.settings && registry == r.registry &&
              registryWrites == old(registryWrites) + WriteLog(r.written)
    {
      if settingsState.forceClassicTerminal == enabled {
        return;
      }
      settingsState.forceClassicTerminal := enabled;
      ApplySetting();
    }

    method ApplySetting()
      modifies this`registry, this`registryWrites, settingsState
      ensures settingsState == old(settingsState)
      ensures var r := AfterApply(old(settingsState.View()), old(registry));
              settingsState.View() == r.settings && registry == r.registry &&
              registryWrites == old(registryWrites) + WriteLog(r.written)
    {
      var current := registry;
      if settingsState.forceClassicTerminal {
        if settingsState.previousNewUiValue == None {
          settingsState.previousNewUiValue := Some(current);
        }
        if current {
          registry := false;
          registryWrites := registryWrites + [false];
        }
      } else {
        var previous := settingsState.previousNewUiValue;
        if previous.Some? && previous.value != current {
          registry := previous.value;
          registryWrites := registryWrites + [previous.value];
        }
        settingsState.previousNewUiValue := None;
      }
    }
  }
}
