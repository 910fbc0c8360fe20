/**
 * The guard logic of the mobile app's native audio-transcription hook:
 * the microphone-permission state and its caching, the order of checks in
 * `start`, the streaming gate on recorder buffers, and `stop`, `toggle`,
 * `isReady` and `canStart`. The speech model and the recorder are foreign
 * code; each call into them becomes an input saying how it came out.
 */
module AudioTranscription {
  import opened Wrappers

  datatype PermissionState = Unknown | Granted | Denied

  /** How the platform's permission request came back: with a result string, or by throwing. */
  datatype PermissionRequest = Answered(result: string) | Threw

  datatype PermissionDecision = PermissionDecision(state: PermissionState, allowed: bool)

  /** How a call to `start` ended. */
  datatype StartOutcome = AlreadyGenerating | PermissionMissing | RecorderMissing | RecorderFailed | Streaming

  /** One recorder buffer (channel 0 samples). */
  type Samples = seq<real>

  const PermissionRequiredMessage := "Microphone permission is required to start transcription."
  const RecorderNotReadyMessage := "Recorder is not ready yet."
  const RecorderStartFailedMessage := "Failed to start the audio recorder."
  const TranscriptionFailedMessage := "Transcription error. Please try again."
  const BufferFailedMessage := "Audio buffer processing failed."

  /** The permission state recorded after a request, and whether recording is allowed. */
  function DecidePermission(request: PermissionRequest): (d: PermissionDecision)
    ensures d.allowed <==> d.state == Granted
    ensures d.allowed <==> request == Answered("Granted")
    ensures d.state == Denied <==> request == Threw || request == Answered("Denied")
    ensures d.state == Unknown <==> request.Answered? && request.result != "Granted" && request.result != "Denied"
  {
    match request
    case Threw => PermissionDecision(Denied, false)
    case Answered(result) =>
      if result == "Granted" then PermissionDecision(Granted, true)
      else if result == "Denied" then PermissionDecision(Denied, false)
      else PermissionDecision(Unknown, false)
  }

  class TranscriptionHook {
    var permissionState: PermissionState
    var recorderReady: bool
    var error: Option<string>
    /** Whether `recorderRef` holds a recorder. */
    var recorderAttached: bool
    /** `streamingRef`: whether recorder buffers are forwarded to the model. */
    var streaming: bool
    /** Whether `start` has installed the recorder's audio handler. */
    var audioHandlerSet: bool
    /** Whether the recorder is recording, as far as its start and stop calls tell. */
    var recorderRunning: bool
    /** Number of permission requests made to the platform. */
    ghost var permissionRequests: nat
    /** Buffers handed to the speech model, in order. */
    ghost var inserted: seq<Samples>

    /** The hook after its mount effect, which creates the recorder when `recorderCreated`. */
    constructor (recorderCreated: bool)
      ensures permissionState == Unknown && error == None
      ensures recorderReady == recorderCreated && recorderAttached == recorderCreated
      ensures !streaming && !audioHandlerSet && !recorderRunning
      ensures permissionRequests == 0 && inserted == []
    {
      permissionState := Unknown;
      error := None;
      recorderReady := recorderCreated;
      recorderAttached := recorderCreated;
      streaming := false;
      audioHandlerSet := false;
      recorderRunning := false;
      permissionRequests := 0;
      inserted := [];
    }

    /** The hook's readiness: the model is loaded and the recorder exists. */
    function IsReady(modelIsReady: bool): (ready: bool)
      reads this
      ensures ready <==> modelIsReady && recorderReady
    {
      modelIsReady && recorderReady
    }

    /** Whether the start control is offered. */
    function CanStart(modelIsReady: bool): (can: bool)
      reads this
      ensures can ==> IsReady(modelIsReady)
      ensures permissionState == Denied ==> !can
      ensures IsReady(modelIsReady) && permissionState != Denied ==> can
    {
      IsReady(modelIsReady) && permissionState != Denied
    }

    /** Asks for microphone access unless it is already granted. */
    method EnsurePermissions(request: PermissionRequest) returns (allowed: bool)
      modifies this`permissionState, this`permissionRequests
      ensures old(permissionState) == Granted ==>
                allowed && permissionState == Granted && permissionRequests == old(permissionRequests)
      ensures old(permissionState) != Granted ==>
                var d := DecidePermission(request);
                allowed == d.allowed && permissionState == d.state &&
                permissionRequests == old(permissionRequests) + 1
    {
      if permissionState == Granted {
        return true;
      }
      permissionRequests := permissionRequests + 1;
      match request {
        case Threw =>
          permissionState := Denied;
          allowed := false;
        case Answered(result) =>
          if result == "Granted" {
            permissionState := Granted;
            allowed := true;
          } else if result == "Denied" {
            permissionState := Denied;
            allowed := false;
          } else {
            permissionState := Unknown;
            allowed := false;
          }
      }
    }

    /** Stops forwarding buffers and stops the recorder and the model stream;
        failures of either stop are swallowed. */
    method Stop(recorderStopThrows: bool)
      modifies this`streaming, this`recorderRunning
      ensures !streaming
      ensures recorderRunning == (old(recorderRunning) && (!recorderAttached || recorderStopThrows))
    {
      streaming := false;
      if recorderAttached && !recorderStopThrows {
        recorderRunning := false;
      }
    }

    /** `start` up to the point where it awaits the model's stream. */
    method Start(isGenerating: bool, request: PermissionRequest, recorderStartThrows: bool)
      returns (outcome: StartOutcome)
      modifies this`error, this`permissionState, this`permissionRequests, this`streaming,
               this`audioHandlerSet, this`recorderRunning
      ensures outcome == AlreadyGenerating <==> isGenerating
      ensures isGenerating ==>
                error == old(error) && streaming == old(streaming) &&
                permissionState == old(permissionState) && permissionRequests == old(permissionRequests)
      ensures !isGenerating && old(permissionState) == Granted ==>
                permissionState == Granted && permissionRequests == old(permissionRequests)
      ensures !isGenerating && old(permissionState) != Granted ==>
                permissionState == DecidePermission(request).state &&
                permissionRequests == old(permissionRequests) + 1
      ensures outcome in {AlreadyGenerating, PermissionMissing, RecorderMissing} ==>
                audioHandlerSet == old(audioHandlerSet) && recorderRunning == old(recorderRunning)
      ensures outcome == PermissionMissing <==>
                !isGenerating && old(permissionState) != Granted && !DecidePermission(request).allowed
      ensures outcome == PermissionMissing ==> error == Some(PermissionRequiredMessage) && streaming == old(streaming)
      ensures outcome == RecorderMissing <==>
                !isGenerating && outcome != PermissionMissing && !recorderAttached
      ensures outcome == RecorderMissing ==> error == Some(RecorderNotReadyMessage) && streaming == old(streaming)
      ensures outcome == RecorderFailed <==>
                !isGenerating && outcome != PermissionMissing && recorderAttached && recorderStartThrows
      ensures outcome == RecorderFailed ==>
                error == Some(RecorderStartFailedMessage) && !streaming && audioHandlerSet &&
                recorderRunning == old(recorderRunning)
      ensures outcome == Streaming ==> error == None && streaming && audioHandlerSet && recorderRunning
    {
      if isGenerating {
        return AlreadyGenerating;
      }
      error := None;
      var allowed := EnsurePermissions(request);
      if !allowed {
        error := Some(PermissionRequiredMessage);
        return PermissionMissing;
      }
      if !recorderAttached {
        error := Some(RecorderNotReadyMessage);
        return RecorderMissing;
      }
      streaming := true;
      audioHandlerSet := true;
      if recorderStartThrows {
        error := Some(RecorderStartFailedMessage);
        streaming := false;
        return RecorderFailed;
      }
      recorderRunning := true;
      outcome := Streaming;
    }

    /** The rest of `start`, once the model's stream has ended or failed. */
    method StreamSettled(streamThrew: bool, recorderStopThrows: bool)
      modifies this`error, this`streaming, this`recorderRunning
      ensures streamThrew ==>
                error == Some(TranscriptionFailedMessage) && !streaming &&
                recorderRunning == (old(recorderRunning) && (!recorderAttached || recorderStopThrows))
      ensures !streamThrew ==> error == old(error) && streaming == old(streaming) &&
                               recorderRunning == old(recorderRunning)
    {
      if streamThrew {
        error := Some(TranscriptionFailedMessage);
        Stop(recorderStopThrows);
      }
    }

    /** The recorder's audio handler receiving one buffer. */
    method OnAudioReady(samples: Samples, insertThrows: bool, recorderStopThrows: bool)
      modifies this`error, this`streaming, this`recorderRunning, this`inserted
      ensures !(audioHandlerSet && old(streaming)) ==>
                inserted == old(inserted) && error == old(error) && streaming == old(streaming) &&
                recorderRunning == old(recorderRunning)
      ensures audioHandlerSet && old(streaming) && !insertThrows ==>
                inserted == old(inserted) + [samples] && error == old(error) && streaming &&
                recorderRunning == old(recorderRunning)
      ensures audioHandlerSet && old(streaming) && insertThrows ==>
                inserted == old(inserted) && error == Some(BufferFailedMessage) && !streaming &&
                recorderRunning == (old(recorderRunning) && (!recorderAttached || recorderStopThrows))
    {
      if !audioHandlerSet || !streaming {
        return;
      }
      if insertThrows {
        error := Some(BufferFailedMessage);
        Stop(recorderStopThrows);
      } else {
        inserted := inserted + [samples];
      }
    }

    /** `toggle`: stop while the model is generating, otherwise start. */
    method Toggle(isGenerating: bool, request: PermissionRequest, recorderStartThrows: bool,
                  recorderStopThrows: bool)
      returns (started: Option<StartOutcome>)
      modifies this`error, this`permissionState, this`permissionRequests, this`streaming,
               this`audioHandlerSet, this`recorderRunning
      // generating: behaves as Stop
      ensures isGenerating ==>
                started == None && !streaming && error == old(error) &&
                permissionState == old(permissionState) && permissionRequests == old(permissionRequests) &&
                audioHandlerSet == old(audioHandlerSet) &&
                recorderRunning == (old(recorderRunning) && (!recorderAttached || recorderStopThrows))
      // otherwise: behaves as Start
      ensures !isGenerating ==> started.Some? && started.value != AlreadyGenerating
      ensures !isGenerating && old(permissionState) == Granted ==>
                permissionState == Granted && permissionRequests == old(permissionRequests)
      ensures !isGenerating && old(permissionState) != Granted ==>
                permissionState == DecidePermission(request).state &&
                permissionRequests == old(permissionRequests) + 1
      ensures started == Some(PermissionMissing) <==>
                !isGenerating && old(permissionState) != Granted && !DecidePermission(request).allowed
      ensures started == Some(RecorderMissing) <==>
                !isGenerating && started != Some(PermissionMissing) && !recorderAttached
      ensures started == Some(RecorderFailed) <==>
                !isGenerating && started != Some(PermissionMissing) && recorderAttached && recorderStartThrows
      ensures started == Some(PermissionMissing) ==> error == Some(PermissionRequiredMessage)
      ensures started == Some(RecorderMissing) ==> error == Some(RecorderNotReadyMessage)
      ensures started in {Some(PermissionMissing), Some(RecorderMissing)} ==>
                streaming == old(streaming) && audioHandlerSet == old(audioHandlerSet) &&
                recorderRunning == old(recorderRunning)
      ensures started == Some(RecorderFailed) ==>
                error == Some(RecorderStartFailedMessage) && !streaming && audioHandlerSet &&
                recorderRunning == old(recorderRunning)
      ensures started == Some(Streaming) ==> error == None && streaming && audioHandlerSet && recorderRunning
    {
      if isGenerating {
        Stop(recorderStopThrows);
        return None;
      }
      var outcome := Start(false, request, recorderStartThrows);
      started := Some(outcome);
    }
  }
}
