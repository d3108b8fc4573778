/**
 * The TypeScript recorder hook (`useAudioRecorder.ts`): its
 * `startRecording` refuses to start without a save path, and it adds
 * `selectSaveLocation` and the default-path lookup.
 */
module HookTs {
  import opened Wrappers
  import opened RecorderCore
  import Naming
  import Recorder

  /** `startRecording`: "not ready" unless a recorder exists and is
      inactive, then "no destination" unless the save path is non-empty;
      a rejection changes nothing. */
  function StartStep(s: HookState): (r: (Option<StartError>, HookState))
    ensures r.0 == Some(NotReady) <==> !s.hasRecorder || s.recorderState != Inactive
    ensures r.0 == Some(NoDestination) <==>
      s.hasRecorder && s.recorderState == Inactive && !HasPath(s.currentFilePath)
    ensures r.0 != Some(DialogCanceled)
    ensures r.0.Some? ==> r.1 == s
    ensures r.0.None? ==>
      && r.1.recordingData == [] && r.1.error == None
      && r.1.recorderState == Recording && r.1.timesliceMs == 1000
      && r.1.autoSaveArmed && r.1.autoSavePeriodMs == 300000
      && r.1.currentFilePath == s.currentFilePath && r.1.downloads == s.downloads
  {
    if !s.hasRecorder || s.recorderState != Inactive then (Some(NotReady), s)
    else if !HasPath(s.currentFilePath) then (Some(NoDestination), s)
    else (None, BeginSession(s))
  }

  /** `saveDialog.filePath || null`. */
  function PathOrNull(filePath: Option<string>): (r: Option<string>)
    ensures HasPath(r) <==> HasPath(filePath)
    ensures r.None? || r == filePath
  {
    if filePath.Some? && filePath.value != "" then filePath else None
  }

  /** `selectSaveLocation`; `dialog` is None when there is no host API.
      False, with the path kept, when there is no host or the dialog is
      cancelled; otherwise true, with the path set to the chosen file or
      to null. */
  function SelectSaveLocationStep(s: HookState, dialog: Option<SaveDialogResult>): (r: (bool, HookState))
    ensures r.0 <==> dialog.Some? && dialog.value.Chosen?
    ensures !r.0 ==> r.1 == s
    ensures r.0 ==> r.1 == s.(currentFilePath := PathOrNull(dialog.value.filePath))
  {
    match dialog
    case None => (false, s)
    case Some(Canceled) => (false, s)
    case Some(Chosen(filePath)) => (true, s.(currentFilePath := PathOrNull(filePath)))
  }

  /** What `getDefaultSavePath()` gives the hook on mount. */
  datatype DefaultPathLookup = NoHostApi | LookupFailed | Resolved(path: string)

  /** `setDefaultSavePath`: the path is set only when the lookup resolves. */
  function DefaultSavePathStep(s: HookState, lookup: DefaultPathLookup): (t: HookState)
    ensures lookup.Resolved? ==> t == s.(currentFilePath := Some(lookup.path))
    ensures !lookup.Resolved? ==> t == s
  {
    if lookup.Resolved? then s.(currentFilePath := Some(lookup.path)) else s
  }

  /** A recording from start to saved file: from an inactive recorder with a
      save path, start, receive `events`, stop, and let the 'stop' event
      fire. The chunk list then holds exactly the non-empty chunks in
      arrival order, and the one final download (when there is data) is
      named after the path's basename and holds all their bytes. */
  lemma {:induction false} RecordingSession(s: HookState, events: seq<Chunk>, iso: string)
    requires Valid(s) && s.hasRecorder && s.recorderState == Inactive && HasPath(s.currentFilePath)
    ensures var (err, started) := StartStep(s);
      var fed := Feed(started, events);
      var stopped := StopStep(fed);
      var saved := OnStopStep(stopped, iso);
      && err == None
      && fed.recorderState == Recording
      && fed.recordingData == NonEmptyChunks(events)
      && stopped.recorderState == Inactive && !stopped.autoSaveArmed
      && saved.recordingData == NonEmptyChunks(events)
      && !saved.stopEventPending
      && saved.downloads == s.downloads +
           (if NonEmptyChunks(events) == [] then []
            else [Download(Naming.DownloadName(s.currentFilePath.value), Concat(NonEmptyChunks(events)), WebmMime)])
  {
    var started := StartStep(s).1;
    FeedAppends(started, events);
    AppendAllIsFilter([], events);
    assert [] + NonEmptyChunks(events) == NonEmptyChunks(events);
  }

  /** A rejected start leaves the chunk list, the error and the path as
      they were; in particular a previous take is not discarded. */
  lemma StartRejectionKeepsTake(s: HookState)
    requires !HasPath(s.currentFilePath) || !s.hasRecorder || s.recorderState != Inactive
    ensures var (err, t) := StartStep(s);
      err.Some? && t.recordingData == s.recordingData && t.error == s.error
      && t.currentFilePath == s.currentFilePath
  {
  }

  /** `startRecording` on the hook object. */
  method StartRecording(rec: Recorder.AudioRecorder) returns (err: Option<StartError>)
    requires rec.Valid()
    modifies rec
    ensures rec.Valid() && (err, rec.State()) == StartStep(old(rec.State()))
  {
    if !rec.hasRecorder || rec.recorderState != Inactive {
      return Some(NotReady);
    }
    if rec.currentFilePath.None? || rec.currentFilePath.value == "" {
      return Some(NoDestination);
    }
    rec.BeginSession();
    err := None;
  }

  /** The TypeScript `onerror` handler records the fixed message
      `MediaRecorder error`, whatever the event carries. */
  method OnRecorderError(rec: Recorder.AudioRecorder)
    requires rec.Valid()
    modifies rec
    ensures rec.Valid() && rec.State() == RecorderErrorStep(old(rec.State()), RecorderErrorMessage)
  {
    rec.OnRecorderError(RecorderErrorMessage);
  }

  /** `selectSaveLocation` on the hook object. */
  method SelectSaveLocation(rec: Recorder.AudioRecorder, dialog: Option<SaveDialogResult>)
    returns (chosen: bool)
    requires rec.Valid()
    modifies rec
    ensures rec.Valid() && (chosen, rec.State()) == SelectSaveLocationStep(old(rec.State()), dialog)
  {
    if dialog.None? || dialog.value.Canceled? {
      return false;
    }
    rec.currentFilePath := PathOrNull(dialog.value.filePath);
    chosen := true;
  }

  /** `setDefaultSavePath` on the hook object. */
  method SetDefaultSavePath(rec: Recorder.AudioRecorder, lookup: DefaultPathLookup)
    requires rec.Valid()
    modifies rec
    ensures rec.Valid() && rec.State() == DefaultSavePathStep(old(rec.State()), lookup)
  {
    if lookup.Resolved? {
      rec.currentFilePath := Some(lookup.path);
    }
  }
}
