/**
 * The recorder hook as an object whose handlers update its fields in
 * place. Every method is proved against the matching transition of
 * `RecorderCore`. The operations both hooks share live here; the two
 * variants of `startRecording` are in `HookTs` and `HookJs`.
 */
module Recorder {
  import opened Wrappers
  import opened RecorderCore
  import Naming

  class AudioRecorder {
    var hasRecorder: bool
    var recorderState: RecorderState
    var timesliceMs: nat
    var handlersAttached: bool
    var stopEventPending: bool
    var recordingData: seq<Chunk>
    var currentFilePath: Option<string>
    var error: Option<string>
    var isInitialized: bool
    var autoSaveArmed: bool
    var autoSavePeriodMs: nat
    var downloads: seq<Download>

    /** The fields, as one record. */
    function State(): HookState
      reads this
    {
      HookState(hasRecorder, recorderState, timesliceMs, handlersAttached, stopEventPending,
                recordingData, currentFilePath, error, isInitialized, autoSaveArmed,
                autoSavePeriodMs, downloads)
    }

    predicate Valid()
      reads this
    {
      RecorderCore.Valid(State())
    }

    /** The hook on mount: no recorder, no data, no path, no error. */
    constructor()
      ensures Valid() && State() == InitialState()
    {
      hasRecorder, recorderState, timesliceMs := false, Inactive, 0;
      handlersAttached, stopEventPending := false, false;
      recordingData, currentFilePath, error := [], None, None;
      isInitialized, autoSaveArmed, autoSavePeriodMs := false, false, 0;
      downloads := [];
    }

    /** `initializeAudio`, called while there is no recorder yet. */
    method InitializeAudio(outcome: DeviceOutcome)
      requires Valid() && !hasRecorder
      modifies this
      ensures Valid() && State() == InitializeStep(old(State()), outcome)
    {
      error := None;
      match outcome {
        case Opened =>
          hasRecorder := true;
          recorderState := Inactive;
          isInitialized := true;
        case DeviceError(message) =>
          error := Some(message);
      }
    }

    /** The common tail of both `startRecording` variants. */
    method BeginSession()
      requires Valid() && hasRecorder && recorderState == Inactive
      modifies this
      ensures Valid() && State() == RecorderCore.BeginSession(old(State()))
    {
      recordingData := [];
      error := None;
      handlersAttached := true;
      recorderState := Recording;
      timesliceMs := TimesliceMs;
      autoSaveArmed := true;
      autoSavePeriodMs := AutoSavePeriodMs;
    }

    /** A `dataavailable` event carrying `chunk`. */
    method OnDataAvailable(chunk: Chunk)
      requires Valid()
      modifies this
      ensures Valid() && State() == DataStep(old(State()), chunk)
    {
      if handlersAttached && Size(chunk) > 0 {
        recordingData := recordingData + [chunk];
      }
    }

    /** An `error` event of the recorder. */
    method OnRecorderError(message: string)
      requires Valid()
      modifies this
      ensures Valid() && State() == RecorderErrorStep(old(State()), message)
    {
      if handlersAttached {
        error := Some(message);
      }
    }

    /** `stopRecording`. */
    method StopRecording()
      requires Valid()
      modifies this
      ensures Valid() && State() == StopStep(old(State()))
    {
      if hasRecorder && recorderState == Recording {
        recorderState := Inactive;
        stopEventPending := true;
      }
      autoSaveArmed := false;
    }

    /** `saveChunkData`, the emergency save. */
    method SaveChunkData(iso: string)
      requires Valid()
      modifies this
      ensures Valid() && State() == SaveChunkStep(old(State()), iso)
    {
      if |recordingData| > 0 {
        downloads := downloads + [Download(Naming.EmergencyName(iso), Concat(recordingData), WebmMime)];
      }
    }

    /** `saveRecording`, the final save. */
    method SaveRecording(iso: string)
      requires Valid()
      modifies this
      ensures Valid() && State() == SaveRecordingStep(old(State()), iso)
    {
      if |recordingData| == 0 {
        return;
      }
      var name;
      if currentFilePath.Some? && currentFilePath.value != "" {
        name := Naming.DownloadName(currentFilePath.value);
      } else {
        name := Naming.RecordingName(iso);
      }
      downloads := downloads + [Download(name, Concat(recordingData), WebmMime)];
    }

    /** The recorder's 'stop' event: `onstop` clears the autosave interval
        and saves the recording. */
    method OnStop(iso: string)
      requires Valid()
      modifies this
      ensures Valid() && State() == OnStopStep(old(State()), iso)
    {
      if stopEventPending {
        stopEventPending := false;
        autoSaveArmed := false;
        SaveRecording(iso);
      }
    }

    /** A tick of the five-minute autosave interval. */
    method OnAutoSaveTick(iso: string)
      requires Valid()
      modifies this
      ensures Valid() && State() == AutoSaveStep(old(State()), iso)
    {
      if autoSaveArmed {
        SaveChunkData(iso);
      }
    }

    /** `emergencyStop`: stop, then save what is buffered. */
    method EmergencyStop(iso: string)
      requires Valid()
      modifies this
      ensures Valid() && State() == EmergencyStopStep(old(State()), iso)
    {
      StopRecording();
      SaveChunkData(iso);
    }
  }
}
