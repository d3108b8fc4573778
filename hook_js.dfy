/**
 * The JavaScript recorder hook (`useAudioRecorder.js`): its
 * `startRecording` asks the host for a destination itself and, without a
 * host API, starts with no destination at all.
 */
module HookJs {
  import opened Wrappers
  import opened RecorderCore
  import Naming
  import Recorder

  /** `startRecording`; `dialog` is None when there is no host API.
      "Not ready" unless a recorder exists and is inactive; a cancelled
      dialog rejects before anything changes; a chosen file (possibly
      undefined) becomes the path before the session begins. */
  function StartStep(s: HookState, dialog: Option<SaveDialogResult>): (r: (Option<StartError>, HookState))
    ensures r.0 == Some(NotReady) <==> !s.hasRecorder || s.recorderState != Inactive
    ensures r.0 == Some(DialogCanceled) <==>
      s.hasRecorder && s.recorderState == Inactive && dialog == Some(Canceled)
    ensures r.0 != Some(NoDestination)
    ensures r.0.Some? ==> r.1 == s
    ensures r.0.None? ==>
      && r.1.recordingData == [] && r.1.error == None
      && r.1.recorderState == Recording && r.1.timesliceMs == 1000
      && r.1.autoSaveArmed && r.1.autoSavePeriodMs == 300000
      && r.1.downloads == s.downloads
      && r.1.currentFilePath == (if dialog.None? then s.currentFilePath else dialog.value.filePath)
  {
    if !s.hasRecorder || s.recorderState != Inactive then (Some(NotReady), s)
    else match dialog
      case Some(Canceled) => (Some(DialogCanceled), s)
      case Some(Chosen(filePath)) => (None, BeginSession(s.(currentFilePath := filePath)))
      case None => (None, BeginSession(s))
  }

  /** Without a host API the JavaScript hook starts whenever the recorder is
      ready, whatever the path; the final save then falls back to a
      timestamped name when there is no path. */
  lemma StartWithoutHostNeedsNoPath(s: HookState, events: seq<Chunk>, iso: string)
    requires Valid(s) && s.hasRecorder && s.recorderState == Inactive && s.currentFilePath == None
    requires NonEmptyChunks(events) != []
    ensures var (err, started) := StartStep(s, None);
      var saved := OnStopStep(StopStep(Feed(started, events)), iso);
      err == None
      && saved.downloads == s.downloads +
           [Download(Naming.RecordingName(iso), Concat(NonEmptyChunks(events)), WebmMime)]
  {
    var started := StartStep(s, None).1;
    FeedAppends(started, events);
    AppendAllIsFilter([], events);
    assert [] + NonEmptyChunks(events) == NonEmptyChunks(events);
  }

  /** `startRecording` on the hook object. */
  method StartRecording(rec: Recorder.AudioRecorder, dialog: Option<SaveDialogResult>)
    returns (err: Option<StartError>)
    requires rec.Valid()
    modifies rec
    ensures rec.Valid() && (err, rec.State()) == StartStep(old(rec.State()), dialog)
  {
    if !rec.hasRecorder || rec.recorderState != Inactive {
      return Some(NotReady);
    }
    if dialog.Some? {
      if dialog.value.Canceled? {
        return Some(DialogCanceled);
      }
      rec.currentFilePath := dialog.value.filePath;
    }
    rec.BeginSession();
    err := None;
  }
}
