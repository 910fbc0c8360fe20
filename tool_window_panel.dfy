/**
 * The decisions behind the plugin's tool window: which URL the QR code and
 * label show, what the exposure row says and allows, what the exposure
 * button does, and when the connection ("setup") section is shown. The
 * exposure state, the device snapshots and the local server URL come from
 * services outside this model and are inputs here; widgets are reduced to
 * the values they display.
 */
module ToolWindow {
  import opened Wrappers

  datatype ExposureMode = Local | Cloudflare | Tailscale
  datatype ExposureStatus = Starting | Running | Error | Stopped
  datatype ExposureState = ExposureState(mode: ExposureMode, status: ExposureStatus,
                                         publicUrl: Option<string>, error: Option<string>)
  datatype DeviceInfo = DeviceInfo(name: string, remoteAddress: string)

  /** What the exposure button asks the exposure service to do. */
  datatype ExposureCommand = StartExposure | StopExposure

  /** The exposure row as displayed: status text, button enablement and label. */
  datatype ExposureControls = ExposureControls(statusText: string, buttonEnabled: bool, buttonText: string)

  /** Whether the connection section is shown, and whether device arrivals may hide it. */
  datatype SetupView = SetupView(showSetup: bool, autoHideEnabled: bool)

  function StatusSuffix(state: ExposureState): string {
    match state.status
    case Starting => " tunnel starting..."
    case Running => " tunnel running"
    case Error => " error: " + state.error.GetOr("unknown")
    case Stopped => " tunnel stopped"
  }

  /** `formatStatus`: the status line for the tunnel provider named `provider`. */
  function FormatStatus(provider: string, state: ExposureState): (text: string)
    ensures |provider| < |text| && text[..|provider|] == provider
    ensures state.status == Error && state.error == None ==> text == provider + " error: unknown"
    ensures state.status == Error && state.error.Some? ==> text == provider + " error: " + state.error.value
  {
    provider + StatusSuffix(state)
  }

  /** Each status has its own text, whatever the error message is. */
  lemma FormatStatusDistinct(provider: string, a: ExposureState, b: ExposureState)
    requires a.status != b.status
    ensures FormatStatus(provider, a) != FormatStatus(provider, b)
  {
    var x, y := StatusSuffix(a), StatusSuffix(b);
    assert (provider + x)[|provider|..] == x;
    assert (provider + y)[|provider|..] == y;
    // the suffixes differ at offset 1 (error against tunnel) or at offset 8 or 10
    assert x[1] != y[1] || x[8] != y[8] || x[10] != y[10];
  }

  /** The provider name shown in the status line. */
  function ModeLabel(mode: ExposureMode): string
    requires mode != Local
  {
    if mode == Cloudflare then "Cloudflare" else "Tailscale"
  }

  /** The decision part of `updateExposureUi` for the exposure row. */
  function ControlsFor(state: ExposureState): (c: ExposureControls)
    ensures state.mode == Local ==> c == ExposureControls("Local network only", false, "Start")
    ensures state.mode != Local ==>
              c.statusText == FormatStatus(ModeLabel(state.mode), state) &&
              (c.buttonEnabled <==> state.status != Starting) &&
              (c.buttonText == "Stop" <==> state.status == Running) &&
              (c.buttonText == "Start" <==> state.status != Running)
  {
    match state.mode
    case Local => ExposureControls("Local network only", false, "Start")
    case Cloudflare | Tailscale =>
      ExposureControls(FormatStatus(ModeLabel(state.mode), state),
                       state.status != Starting,
                       if state.status == Running then "Stop" else "Start")
  }

  /** The URL offered for connecting: the public tunnel URL if any, else the local one. */
  function DisplayedUrl(state: ExposureState, httpUrl: string): (url: string)
    ensures state.publicUrl.Some? ==> url == state.publicUrl.value
    ensures state.publicUrl == None ==> url == httpUrl
  {
    state.publicUrl.GetOr(httpUrl)
  }

  /** The exposure button's handler: stop a running tunnel, otherwise start one. */
  function ButtonCommand(state: ExposureState): (cmd: ExposureCommand)
    ensures cmd == StopExposure <==> state.status == Running
    ensures cmd == StartExposure <==> state.status != Running
  {
    if state.status == Running then StopExposure else StartExposure
  }

  /** The mode picked in the combo box; a missing selection means LOCAL. */
  function SelectedMode(item: Option<ExposureMode>): (mode: ExposureMode)
    ensures item == None ==> mode == Local
    ensures item.Some? ==> mode == item.value
  {
    item.GetOr(Local)
  }

  /** The label of the setup toggle button. */
  function ToggleText(showSetup: bool): (text: string)
    ensures text == "Hide QR" <==> showSetup
    ensures text == "Show QR" <==> !showSetup
  {
    if showSetup then "Hide QR" else "Show QR"
  }

  /** One line of the device list. */
  function DeviceEntry(device: DeviceInfo): string {
    device.name + " - " + device.remoteAddress
  }

  /** The setup toggle: flip visibility; showing it by hand turns auto-hide off. */
  function AfterToggle(v: SetupView): (w: SetupView)
    ensures w.showSetup == !v.showSetup
    ensures w.showSetup ==> !w.autoHideEnabled
    ensures !w.showSetup ==> w.autoHideEnabled == v.autoHideEnabled
  {
    if !v.showSetup then SetupView(true, false) else SetupView(false, v.autoHideEnabled)
  }

  /** A device snapshot: no devices shows setup and re-arms auto-hide; devices
      hide setup only while auto-hide is armed. */
  function AfterDevices(v: SetupView, devices: seq<DeviceInfo>): (w: SetupView)
    ensures devices == [] ==> w == SetupView(true, true)
    ensures devices != [] && v.autoHideEnabled ==> w == SetupView(false, true)
    ensures devices != [] && !v.autoHideEnabled ==> w == v
  {
    if devices == [] then SetupView(true, true)
    else if v.autoHideEnabled then SetupView(false, true)
    else v
  }

  function ReplaySnapshots(v: SetupView, snapshots: seq<seq<DeviceInfo>>): SetupView
    decreases |snapshots|
  {
    if snapshots == [] then v else ReplaySnapshots(AfterDevices(v, snapshots[0]), snapshots[1..])
  }

  /** Once the user shows the setup section by hand, devices connecting or
      changing never hide it again until the device list has become empty. */
  lemma {:induction false} ManualShowSticks(v: SetupView, snapshots: seq<seq<DeviceInfo>>)
    requires AfterToggle(v).showSetup
    requires forall i :: 0 <= i < |snapshots| ==> snapshots[i] != []
    ensures ReplaySnapshots(AfterToggle(v), snapshots) == SetupView(true, false)
  {
    NonEmptySnapshotsKeep(AfterToggle(v), snapshots);
  }

  lemma {:induction false} NonEmptySnapshotsKeep(v: SetupView, snapshots: seq<seq<DeviceInfo>>)
    requires !v.autoHideEnabled
    requires forall i :: 0 <= i < |snapshots| ==> snapshots[i] != []
    ensures ReplaySnapshots(v, snapshots) == v
    decreases |snapshots|
  {
    if snapshots != [] {
      assert AfterDevices(v, snapshots[0]) == v;
      NonEmptySnapshotsKeep(v, snapshots[1..]);
    }
  }

  class ToolWindowPanel {
    var listModel: seq<string>
    var qrUrl: string
    var urlLabelText: string
    var lastUrl: Option<string>
    var showSetup: bool
    var autoHideEnabled: bool
    var connectionPanelVisible: bool
    var setupToggleText: string
    var tokenCopyText: string
    var selectedMode: ExposureMode
    var exposureStatusText: string
    var exposureButtonEnabled: bool
    var exposureButtonText: string
    /** Every URL rendered into the QR code, in order. */
    ghost var renders: seq<string>

    /** The QR code, the URL label and `lastUrl` agree; the setup section and
        its toggle label follow `showSetup`. */
    ghost predicate Valid()
      reads this
    {
      lastUrl == Some(qrUrl) && urlLabelText == qrUrl &&
      |renders| > 0 && renders[|renders| - 1] == qrUrl &&
      connectionPanelVisible == showSetup && setupToggleText == ToggleText(showSetup)
    }

    function Setup(): SetupView
      reads this
    {
      SetupView(showSetup, autoHideEnabled)
    }

    function Controls(): ExposureControls
      reads this
    {
      ExposureControls(exposureStatusText, exposureButtonEnabled, exposureButtonText)
    }

    /** Builds the panel for the local server URL `httpUrl` and the current exposure `state`. */
    constructor (httpUrl: string, state: ExposureState)
      ensures Valid()
      ensures listModel == [] && Setup() == SetupView(true, true)
      ensures tokenCopyText == "Copy Token"
      ensures lastUrl == Some(DisplayedUrl(state, httpUrl))
      ensures renders == [httpUrl, DisplayedUrl(state, httpUrl)]
      ensures selectedMode == state.mode && Controls() == ControlsFor(state)
    {
      listModel := [];
      tokenCopyText := "Copy Token";
      setupToggleText := "Show QR";
      exposureStatusText := "";
      exposureButtonText := "Start";
      exposureButtonEnabled := true;
      selectedMode := state.mode;
      lastUrl := None;
      showSetup := true;
      autoHideEnabled := true;
      connectionPanelVisible := true;
      qrUrl := httpUrl;
      renders := [httpUrl];
      urlLabelText := httpUrl;
      new;
      UpdateSetupVisibility();
      UpdateExposureUi(httpUrl, state);
    }

    /** Re-renders the QR code and URL label only when the URL changed, then
        updates the exposure row for `state`. */
    method UpdateExposureUi(httpUrl: string, state: ExposureState)
      modifies this`qrUrl, this`urlLabelText, this`lastUrl, this`renders, this`selectedMode,
               this`exposureStatusText, this`exposureButtonEnabled, this`exposureButtonText
      ensures var url := DisplayedUrl(state, httpUrl);
              lastUrl == Some(url) &&
              renders == (if old(lastUrl) == Some(url) then old(renders) else old(renders) + [url])
      ensures old(lastUrl) != Some(DisplayedUrl(state, httpUrl)) ==>
                qrUrl == DisplayedUrl(state, httpUrl) && urlLabelText == DisplayedUrl(state, httpUrl)
      ensures old(lastUrl) == Some(DisplayedUrl(state, httpUrl)) ==>
                qrUrl == old(qrUrl) && urlLabelText == old(urlLabelText)
      ensures selectedMode == state.mode && Controls() == ControlsFor(state)
      ensures old(Valid()) ==> Valid()
    {
      var url := DisplayedUrl(state, httpUrl);
      if Some(url) != lastUrl {
        qrUrl := url;
        renders := renders + [url];
        urlLabelText := url;
        lastUrl := Some(url);
      }
      selectedMode := state.mode;
      match state.mode {
        case Local =>
          exposureStatusText := "Local network only";
          exposureButtonEnabled := false;
          exposureButtonText := "Start";
        case Cloudflare =>
          exposureStatusText := FormatStatus("Cloudflare", state);
          exposureButtonEnabled := state.status != Starting;
          exposureButtonText := if state.status == Running then "Stop" else "Start";
        case Tailscale =>
          exposureStatusText := FormatStatus("Tailscale", state);
          exposureButtonEnabled := state.status != Starting;
          exposureButtonText := if state.status == Running then "Stop" else "Start";
      }
    }

    method UpdateSetupVisibility()
      modifies this`connectionPanelVisible, this`setupToggleText
      ensures connectionPanelVisible == showSetup
      ensures setupToggleText == ToggleText(showSetup)
    {
      connectionPanelVisible := showSetup;
      setupToggleText := if showSetup then "Hide QR" else "Show QR";
    }

    /** The setup toggle button's handler. */
    method SetupToggleClicked()
      requires Valid()
      modifies this`showSetup, this`autoHideEnabled, this`connectionPanelVisible, this`setupToggleText
      ensures Valid()
      ensures Setup() == AfterToggle(old(Setup()))
    {
      showSetup := !showSetup;
      if showSetup {
        autoHideEnabled := false;
      }
      UpdateSetupVisibility();
    }

    /** The copy-token button's handler (the clipboard itself is not modelled). */
    method TokenCopyClicked()
      modifies this`tokenCopyText
      ensures tokenCopyText == "Copied"
    {
      tokenCopyText := "Copied";
    }

    /** The device listener: rebuild the list from the snapshot, then decide
        whether the setup section is shown. */
    method DevicesChanged(devices: seq<DeviceInfo>)
      requires Valid()
      modifies this`listModel, this`showSetup, this`autoHideEnabled,
               this`connectionPanelVisible, this`setupToggleText
      ensures Valid()
      ensures |listModel| == |devices|
      ensures forall j :: 0 <= j < |devices| ==> listModel[j] == DeviceEntry(devices[j])
      ensures Setup() == AfterDevices(old(Setup()), devices)
    {
      listModel := [];
      var i := 0;
      while i < |devices|
        invariant 0 <= i <= |devices|
        invariant |listModel| == i
        invariant forall j :: 0 <= j < i ==> listModel[j] == DeviceEntry(devices[j])
        invariant Setup() == old(Setup()) && Valid()
      {
        listModel := listModel + [DeviceEntry(devices[i])];
        i := i + 1;
      }
      if devices == [] {
        autoHideEnabled := true;
        showSetup := true;
      } else if autoHideEnabled {
        showSetup := false;
      }
      UpdateSetupVisibility();
    }
  }
}
