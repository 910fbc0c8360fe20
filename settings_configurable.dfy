/**
 * The "Tunnel" settings page: one checkbox mirroring the service's
 * force-classic-terminal flag, with the host's dirty/apply/reset protocol.
 * The checkbox exists only between `createComponent` and
 * `disposeUIResources`; its presence and selection are an `Option<bool>`.
 */
module SettingsConfigurable {
  import opened Wrappers
  import opened TerminalSettings

  class Configurable {
    const settingsService: TerminalSettingsService
    /** None while no checkbox exists, otherwise whether it is selected. */
    var forceClassicCheckBox: Option<bool>

    constructor (service: TerminalSettingsService)
      ensures settingsService == service && forceClassicCheckBox == None
    {
      settingsService := service;
      forceClassicCheckBox := None;
    }

    /** The page has unsaved edits. */
    predicate IsModified()
      reads this, settingsService, settingsService.settingsState
      ensures forceClassicCheckBox == None ==> !IsModified()
      ensures IsModified() <==>
                forceClassicCheckBox.Some? &&
                forceClassicCheckBox.value != settingsService.settingsState.forceClassicTerminal
    {
      match forceClassicCheckBox
      case None => false
      case Some(selected) => selected != settingsService.IsForceClassicTerminal()
    }

    /** Creates the (unselected) checkbox, then resets it from the service. */
    method CreateComponent()
      modifies this
      ensures forceClassicCheckBox == Some(settingsService.IsForceClassicTerminal())
      ensures !IsModified()
    {
      forceClassicCheckBox := Some(false);
      Reset();
    }

    /** Saves the checkbox into the service; without a checkbox, does nothing. */
    method Apply()
      modifies settingsService`registry, settingsService`registryWrites, settingsService.settingsState
      ensures forceClassicCheckBox == None ==>
                settingsService.registry == old(settingsService.registry) &&
                settingsService.registryWrites == old(settingsService.registryWrites) &&
                settingsService.settingsState.View() == old(settingsService.settingsState.View())
      ensures forceClassicCheckBox.Some? ==>
                var r := AfterSet(old(settingsService.settingsState.View()), old(settingsService.registry),
                                  forceClassicCheckBox.value);
                settingsService.settingsState.View() == r.settings &&
                settingsService.registry == r.registry &&
                settingsService.registryWrites == old(settingsService.registryWrites) + WriteLog(r.written)
      ensures !IsModified()
    {
      match forceClassicCheckBox
      case None =>
      case Some(selected) =>
        settingsService.SetForceClassicTerminal(selected);
    }

    /** Discards edits: the checkbox, if any, shows the service's flag again. */
    method Reset()
      modifies this
      ensures forceClassicCheckBox == (if old(forceClassicCheckBox) == None then None
                                       else Some(settingsService.IsForceClassicTerminal()))
      ensures !IsModified()
    {
      if forceClassicCheckBox.Some? {
        forceClassicCheckBox := Some(settingsService.IsForceClassicTerminal());
      }
    }

    method DisposeUIResources()
      modifies this
      ensures forceClassicCheckBox == None && !IsModified()
    {
      forceClassicCheckBox := None;
    }
  }
}
