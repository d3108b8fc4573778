/**
 * The renderer of `App.jsx`, the earlier variant over the JavaScript
 * recorder hook: the record toggle (where starting asks for a destination),
 * the emergency-stop button, the elapsed-seconds counter and the record
 * button's enablement, which has no save-path condition.
 */
module AppJsx {
  import opened Wrappers
  import opened RecorderCore
  import Recorder
  import HookJs
  import MainProcess

  /** The record button's `isDisabled` expression. */
  function RecordDisabled(isInitialized: bool, error: Option<string>): bool
  {
    !isInitialized || error.Some?
  }

  /** While idle and free of errors, the button is enabled exactly when
      the hook is initialised, and an enabled button starts a recording
      unless the user cancels the save dialog; no save path is needed. */
  lemma EnabledButtonStarts(s: HookState, dialog: Option<SaveDialogResult>)
    requires Valid(s) && s.recorderState == Inactive && s.error == None
    ensures !RecordDisabled(s.isInitialized, s.error) <==> s.hasRecorder
    ensures !RecordDisabled(s.isInitialized, s.error) ==>
      (HookJs.StartStep(s, dialog).0 == None <==> dialog != Some(Canceled))
  {
  }

  class App {
    var isRecording: bool
    var recordingTime: nat
    var isAlwaysOnTop: bool
    /** The recorder hook the component uses. */
    const recorder: Recorder.AudioRecorder

    /** The hook is valid, and the counter is 0 whenever not recording. */
    predicate Valid()
      reads this, recorder
    {
      recorder.Valid() && (!isRecording ==> recordingTime == 0)
    }

    constructor(recorder: Recorder.AudioRecorder)
      requires recorder.Valid()
      ensures Valid() && this.recorder == recorder
      ensures !isRecording && recordingTime == 0 && !isAlwaysOnTop
    {
      this.recorder := recorder;
      isRecording, recordingTime, isAlwaysOnTop := false, 0, false;
    }

    /** A tick of the one-second interval, which runs only while recording. */
    method Tick()
      requires Valid() && isRecording
      modifies this`recordingTime
      ensures Valid() && recordingTime == old(recordingTime) + 1
    {
      recordingTime := recordingTime + 1;
    }

    /** `handleRecordToggle`; `dialog` is what the hook's save dialog yields
        (None without a host API). Recording begins only once the start has
        resolved; stopping always ends it and resets the counter. */
    method HandleRecordToggle(dialog: Option<SaveDialogResult>) returns (startError: Option<StartError>)
      requires Valid()
      modifies this`isRecording, this`recordingTime, recorder
      ensures Valid()
      ensures !old(isRecording) ==>
        && (startError, recorder.State()) == HookJs.StartStep(old(recorder.State()), dialog)
        && isRecording == startError.None?
        && recordingTime == old(recordingTime)
      ensures old(isRecording) ==>
        && startError == None
        && recorder.State() == StopStep(old(recorder.State()))
        && !isRecording && recordingTime == 0
    {
      if !isRecording {
        startError := HookJs.StartRecording(recorder, dialog);
        if startError.None? {
          isRecording := true;
        }
      } else {
        recorder.StopRecording();
        isRecording := false;
        recordingTime := 0;
        startError := None;
      }
    }

    /** The emergency-stop button, which exists only while recording: the
        hook's `emergencyStop`, then recording is off and the counter reset. */
    method EmergencyStopClick(iso: string)
      requires Valid() && isRecording
      modifies this`isRecording, this`recordingTime, recorder
      ensures Valid()
      ensures recorder.State() == EmergencyStopStep(old(recorder.State()), iso)
      ensures !isRecording && recordingTime == 0
    {
      recorder.EmergencyStop(iso);
      isRecording := false;
      recordingTime := 0;
    }

    /** `handleAlwaysOnTopToggle`; `host` is null when there is no host API. */
    method HandleAlwaysOnTopToggle(host: MainProcess.Main?)
      requires Valid() && (host != null ==> host.Valid())
      modifies this`isAlwaysOnTop, host
      ensures Valid()
      ensures host == null ==> isAlwaysOnTop == old(isAlwaysOnTop)
      ensures host != null ==>
        host.Valid() && (host.alwaysOnTop, isAlwaysOnTop) == MainProcess.Toggle(host.mainWindow, old(host.alwaysOnTop))
    {
      if host != null {
        var newState := host.ToggleAlwaysOnTop();
        isAlwaysOnTop := newState;
      }
    }
  }
}
