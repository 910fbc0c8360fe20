# in-tunnel: verified model of the plugin's settings, tool-window decisions, manifest clean-up and audio-capture guards

This project models, in Dafny, the small pieces of sequential logic around
the in-tunnel IntelliJ plugin and its mobile companion:

- **Classic-terminal setting** (`TerminalSettings`, `terminal_settings.dfy`).
  `TunnelTerminalSettingsService` keeps a persisted flag "force classic
  terminal". Turning it on remembers the block-terminal registry flag once
  and forces the registry to `false`; turning it off writes the remembered
  value back and forgets it. The registry is one boolean field of the
  service, with a ghost log of every value written to it. The pure
  functions `AfterApply`/`AfterSet` state what one step does; the class
  methods are proved to follow them; `ReplayRestores` proves the round trip
  for any sequence of toggles.
- **Settings page** (`SettingsConfigurable`, `settings_configurable.dfy`).
  The optional checkbox is an `Option<bool>`; `isModified`, `apply`,
  `reset`, `createComponent` and `disposeUIResources` are modelled on the
  real service object, and `apply`/`reset`/`createComponent` are proved to
  leave the page unmodified.
- **Tool window** (`ToolWindow`, `tool_window_panel.dfy`). Exposure state,
  mode, status and device snapshots are datatypes taken as inputs. The
  panel is a class whose fields are the values its widgets display (QR
  URL, URL label, `lastUrl`, status text, button enablement and label,
  setup visibility and toggle label, the device list). The invariant
  `Valid` ties the QR code, the URL label and `lastUrl` together, and
  the setup section to `showSetup`.
- **Manifest sanitiser** (`ManifestSanitizer`, `manifest_sanitizer.dfy`).
  `sanitizeManifestFile` from the build script: one leading U+FEFF is
  dropped, then the leading run of Java `\s` whitespace; the file (an
  optional string) is rewritten only when the text changed.
- **Audio-capture hook** (`AudioTranscription`, `audio_transcription.dfy`).
  The native `useAudioTranscription` hook's state (permission state, error,
  recorder presence, the streaming flag) is a class; each call into the
  recorder, the speech model or the platform permission API becomes an
  input describing its outcome (result string, or whether it threw).

`wrappers.dfy` holds the `Option` type used for Kotlin nullables and
TypeScript `| null`.

## Model

| member | source | states |
|---|---|---|
| TerminalSettings.AfterApply | plugin/src/main/kotlin/com/intellij/tunnel/settings/TunnelTerminalSettingsService.kt:43-60 | flag on: a saved value is kept, otherwise the current registry value is saved; the registry ends false and is written only if it was true. Flag off: the registry ends equal to a saved value and is written only if it differed; nothing is saved afterwards. Any write changes the registry, and nothing else does |
| TerminalSettings.AfterSet | plugin/src/main/kotlin/com/intellij/tunnel/settings/TunnelTerminalSettingsService.kt:37-41 | setting the flag it already has changes nothing and writes nothing; otherwise the flag becomes the new value and the setting is applied |
| TerminalSettings.ReplayRestores | plugin/src/main/kotlin/com/intellij/tunnel/settings/TunnelTerminalSettingsService.kt:37-60 | starting off, with nothing saved and the registry at v, after any sequence of set calls the state is either off, nothing saved and registry v, or on, v saved and registry false; the flag equals the last value set |
| TerminalSettings.SettingsState.constructor | plugin/src/main/kotlin/com/intellij/tunnel/settings/TunnelTerminalSettingsService.kt:10-13 | a fresh record has the flag off and nothing saved |
| TerminalSettings.TerminalSettingsService.constructor | plugin/src/main/kotlin/com/intellij/tunnel/settings/TunnelTerminalSettingsService.kt:19-20 | the service starts with a fresh default record and does not touch the registry |
| TerminalSettings.TerminalSettingsService.GetState | plugin/src/main/kotlin/com/intellij/tunnel/settings/TunnelTerminalSettingsService.kt:28 | returns the stored record itself |
| TerminalSettings.TerminalSettingsService.IsForceClassicTerminal | plugin/src/main/kotlin/com/intellij/tunnel/settings/TunnelTerminalSettingsService.kt:35 | is exactly the stored flag |
| TerminalSettings.TerminalSettingsService.LoadState | plugin/src/main/kotlin/com/intellij/tunnel/settings/TunnelTerminalSettingsService.kt:30-33 | the given record replaces the stored one and is then applied to the registry as AfterApply says |
| TerminalSettings.TerminalSettingsService.SetForceClassicTerminal | plugin/src/main/kotlin/com/intellij/tunnel/settings/TunnelTerminalSettingsService.kt:37-41 | the record, registry and write log change exactly as AfterSet says |
| TerminalSettings.TerminalSettingsService.ApplySetting | plugin/src/main/kotlin/com/intellij/tunnel/settings/TunnelTerminalSettingsService.kt:43-60 | the record, registry and write log change exactly as AfterApply says |
| SettingsConfigurable.Configurable.constructor | plugin/src/main/kotlin/com/intellij/tunnel/settings/TunnelSettingsConfigurable.kt:12-14 | a new page has no checkbox |
| SettingsConfigurable.Configurable.IsModified | plugin/src/main/kotlin/com/intellij/tunnel/settings/TunnelSettingsConfigurable.kt:37-40 | false without a checkbox; otherwise true iff the selection differs from the service's flag |
| SettingsConfigurable.Configurable.CreateComponent | plugin/src/main/kotlin/com/intellij/tunnel/settings/TunnelSettingsConfigurable.kt:18-35 | the new checkbox shows the service's flag, so the page is unmodified |
| SettingsConfigurable.Configurable.Apply | plugin/src/main/kotlin/com/intellij/tunnel/settings/TunnelSettingsConfigurable.kt:42-45 | without a checkbox the service and registry are untouched; with one, the service takes the selection (as AfterSet); either way the page is unmodified afterwards |
| SettingsConfigurable.Configurable.Reset | plugin/src/main/kotlin/com/intellij/tunnel/settings/TunnelSettingsConfigurable.kt:47-49 | an existing checkbox shows the service's flag again, none is created; the page is unmodified afterwards |
| SettingsConfigurable.Configurable.DisposeUIResources | plugin/src/main/kotlin/com/intellij/tunnel/settings/TunnelSettingsConfigurable.kt:51-53 | the checkbox is gone and the page is unmodified |
| ToolWindow.FormatStatus | plugin/src/main/kotlin/com/intellij/tunnel/ui/TunnelToolWindowPanel.kt:194-201 | the text starts with the provider name; an error shows its message, or "unknown" when there is none |
| ToolWindow.FormatStatusDistinct | plugin/src/main/kotlin/com/intellij/tunnel/ui/TunnelToolWindowPanel.kt:194-201 | two different statuses never produce the same text, whatever the error messages |
| ToolWindow.ControlsFor | plugin/src/main/kotlin/com/intellij/tunnel/ui/TunnelToolWindowPanel.kt:168-184 | LOCAL: "Local network only", button disabled and labelled "Start"; a tunnel mode: its provider's status line, button enabled iff not STARTING, labelled "Stop" iff RUNNING and "Start" otherwise |
| ToolWindow.DisplayedUrl | plugin/src/main/kotlin/com/intellij/tunnel/ui/TunnelToolWindowPanel.kt:160-161 | the public URL when present, otherwise the local server URL |
| ToolWindow.ButtonCommand | plugin/src/main/kotlin/com/intellij/tunnel/ui/TunnelToolWindowPanel.kt:80-87 | the exposure button stops exactly when the status is RUNNING and starts otherwise |
| ToolWindow.SelectedMode | plugin/src/main/kotlin/com/intellij/tunnel/ui/TunnelToolWindowPanel.kt:76-79 | the combo box's selection is the mode passed on, LOCAL when nothing is selected |
| ToolWindow.ToggleText | plugin/src/main/kotlin/com/intellij/tunnel/ui/TunnelToolWindowPanel.kt:187-189 | the toggle reads "Hide QR" iff the setup section is shown, "Show QR" iff not |
| ToolWindow.AfterToggle | plugin/src/main/kotlin/com/intellij/tunnel/ui/TunnelToolWindowPanel.kt:66-72 | the toggle flips visibility; showing turns auto-hide off; hiding keeps auto-hide as it was |
| ToolWindow.AfterDevices | plugin/src/main/kotlin/com/intellij/tunnel/ui/TunnelToolWindowPanel.kt:143-148 | an empty snapshot shows setup and turns auto-hide on; a non-empty one hides setup only while auto-hide is on, and otherwise changes nothing |
| ToolWindow.ManualShowSticks | plugin/src/main/kotlin/com/intellij/tunnel/ui/TunnelToolWindowPanel.kt:66-72 | once the user shows the setup section by hand, no run of non-empty device snapshots hides it or re-arms auto-hide |
| ToolWindow.NonEmptySnapshotsKeep | plugin/src/main/kotlin/com/intellij/tunnel/ui/TunnelToolWindowPanel.kt:146-148 | with auto-hide off, non-empty snapshots leave the setup state unchanged |
| ToolWindow.ToolWindowPanel.constructor | plugin/src/main/kotlin/com/intellij/tunnel/ui/TunnelToolWindowPanel.kt:51-134 | the QR code is first rendered for the local URL and then for the displayed URL; setup shown, auto-hide on, empty list, exposure row as ControlsFor; the panel invariant holds |
| ToolWindow.ToolWindowPanel.UpdateExposureUi | plugin/src/main/kotlin/com/intellij/tunnel/ui/TunnelToolWindowPanel.kt:159-185 | the QR code and URL label are re-rendered only when the displayed URL differs from lastUrl; afterwards lastUrl is the displayed URL; the mode selection and exposure row follow the state; the invariant is kept |
| ToolWindow.ToolWindowPanel.UpdateSetupVisibility | plugin/src/main/kotlin/com/intellij/tunnel/ui/TunnelToolWindowPanel.kt:187-192 | the connection section is visible iff showSetup, and the toggle label follows it |
| ToolWindow.ToolWindowPanel.SetupToggleClicked | plugin/src/main/kotlin/com/intellij/tunnel/ui/TunnelToolWindowPanel.kt:66-72 | the setup state changes as AfterToggle says and the display follows it |
| ToolWindow.ToolWindowPanel.TokenCopyClicked | plugin/src/main/kotlin/com/intellij/tunnel/ui/TunnelToolWindowPanel.kt:62-65 | the copy button then reads "Copied" |
| ToolWindow.ToolWindowPanel.DevicesChanged | plugin/src/main/kotlin/com/intellij/tunnel/ui/TunnelToolWindowPanel.kt:137-151 | the list becomes exactly the devices, in order, each as "name - remoteAddress"; the setup state changes as AfterDevices says; the invariant is kept |
| ManifestSanitizer.StripLeadingWhitespace | plugin/build.gradle.kts:71 | the result is a suffix of the input, everything cut is whitespace, and the result does not start with whitespace (the cut is maximal) |
| ManifestSanitizer.Sanitize | plugin/build.gradle.kts:67-71 | the result is a suffix of the original not starting with whitespace; what is cut is at most one leading BOM followed by whitespace only; a second BOM is kept; text starting with neither BOM nor whitespace is unchanged |
| ManifestSanitizer.SanitizeManifestFile | plugin/build.gradle.kts:59-76 | a missing or empty file is not written; otherwise the contents become the sanitised text, and the file is written iff that differs from the original |
| AudioTranscription.DecidePermission | mobile/useAudioTranscription.native.ts:24-38 | "Granted" gives granted and allowed; "Denied" or a thrown request gives denied; any other result gives unknown; allowed iff granted |
| AudioTranscription.TranscriptionHook.constructor | mobile/useAudioTranscription.native.ts:15-19 | the hook starts with unknown permission, no error, not streaming; recorder presence and readiness follow the mount effect |
| AudioTranscription.TranscriptionHook.IsReady | mobile/useAudioTranscription.native.ts:137 | ready iff the model is ready and the recorder is ready |
| AudioTranscription.TranscriptionHook.CanStart | mobile/useAudioTranscription.native.ts:138 | can start iff ready and the permission is not denied |
| AudioTranscription.TranscriptionHook.EnsurePermissions | mobile/useAudioTranscription.native.ts:21-39 | when already granted, returns true without a request; otherwise makes one request and records DecidePermission's state and answer |
| AudioTranscription.TranscriptionHook.Stop | mobile/useAudioTranscription.native.ts:41-53 | the streaming flag always ends false; recorder stop failures are swallowed (the recorder then keeps its state) |
| AudioTranscription.TranscriptionHook.Start | mobile/useAudioTranscription.native.ts:55-88 | does nothing while generating; otherwise clears the error and asks for permission (no request when already granted, which stays granted; otherwise one request, state per DecidePermission), then a permission failure sets the microphone message and stops, then a missing recorder sets "Recorder is not ready yet." and stops (neither early exit touches streaming, the audio handler or the recorder), then a recorder start failure sets its message and resets streaming; success leaves streaming on with no error |
| AudioTranscription.TranscriptionHook.StreamSettled | mobile/useAudioTranscription.native.ts:89-94 | a failed model stream sets the transcription error and performs stop (streaming off, the recorder stopped unless its stop fails); a normal end changes nothing |
| AudioTranscription.TranscriptionHook.OnAudioReady | mobile/useAudioTranscription.native.ts:70-79 | buffers are dropped unless the handler is installed and streaming is on; otherwise they reach the model, or a processing failure sets its message and performs stop (streaming off, the recorder stopped unless its stop fails) |
| AudioTranscription.TranscriptionHook.Toggle | mobile/useAudioTranscription.native.ts:97-103 | while the model is generating, acts as Stop (streaming off, the recorder stopped unless its stop fails, nothing else changed); otherwise acts as Start, with the same permission handling, outcome conditions, error messages and streaming, handler and recorder effects |

## Left out

- Swing and IntelliJ widget plumbing (layout, borders, icons, `revalidate`/`repaint`, `invokeLater` marshalling): only the values the widgets display are modelled.
- The clipboard write of the copy-token button: a host service call; only the button label change is modelled.
- QR code rendering, the exposure, server and auth services: their sources are not part of this model; the exposure state, the local server URL and device snapshots are inputs, and a QR render is recorded only as the URL rendered.
- ToolWindow.ToolWindowPanel.UpdateExposureUi: setting the combo box's selection (TunnelToolWindowPanel.kt:167) makes Swing's `JComboBox.setSelectedItem` fire an action event on every call, so each update also runs the combo box's listener and calls the exposure service's `setMode(state.mode)`; that call and its effect on the exposure state belong to the exposure service and are not modelled.
- The IntelliJ registry: it is a single boolean field of the settings service, and nothing else writes it in the model.
- TerminalSettings.TerminalSettingsService.LoadState: persistence (reading and writing the XML store) is not modelled; only the in-memory adoption of the record.
- Gradle build configuration and the file reads and writes of the build script: the file is an optional string.
- AudioTranscription.TranscriptionHook.Start: the `await` points are not interleaved with other calls; the model's `isGenerating` is an input read once per call.
- AudioTranscription.TranscriptionHook.EnsurePermissions: React's callback memoisation (a stale `permissionState` in an old closure) is not modelled; the current state is always read.
- AudioTranscription.TranscriptionHook.Stop: the speech model's `streamStop` call is not modelled beyond the fact that its failure is swallowed.
- The hook's mount and unmount effect (recorder creation, iOS audio-session options, teardown): recorder presence is a constructor input.
- The recorder and speech libraries (recording, Whisper streaming, download progress, transcription texts) and the sample values: buffers are opaque sequences of reals.
- `AudioTranscription.native.tsx` (rendering and percentage formatting), `useAudioTranscription.web.ts` (a constant stub) and `TunnelStartupActivity.kt` (a lifecycle hook) are not part of this model.
