/**
 * The recording controller common to both recorder hooks
 * (`useAudioRecorder.ts` and `useAudioRecorder.js`): the recorder state,
 * the append-only chunk list, the downloads the hook triggers, and the
 * transitions both hooks share, as functions on one state record.
 *
 * The hook keeps its state in React state cells and refs and reads it
 * through closures; this model keeps one record that every handler reads
 * at the moment it runs.
 */
module RecorderCore {
  import opened Wrappers
  import Naming

  /** An encoded chunk, the `Blob` carried by a `dataavailable` event. */
  datatype Chunk = Chunk(bytes: seq<bv8>)

  /** `blob.size`. */
  function Size(c: Chunk): nat
  {
    |c.bytes|
  }

  /** `MediaRecorder.state`. */
  datatype RecorderState = Inactive | Recording | Paused

  /** A download triggered through a temporary anchor: the `download`
      attribute, the bytes of the blob and the blob's MIME type. */
  datatype Download = Download(filename: string, content: seq<bv8>, mimeType: string)

  /** The reasons `startRecording` rejects. */
  datatype StartError = NotReady | NoDestination | DialogCanceled

  /** Result of opening the microphone and building the recorder. */
  datatype DeviceOutcome = Opened | DeviceError(message: string)

  /** What the host's `showSaveDialog()` resolves to. */
  datatype SaveDialogResult = Canceled | Chosen(filePath: Option<string>)

  /** The `timeslice` passed to `mediaRecorder.start`. */
  const TimesliceMs: nat := 1000
  /** The period of the autosave interval: five minutes. */
  const AutoSavePeriodMs: nat := 5 * 60 * 1000
  /** Every blob the hook builds is labelled with this type. */
  const WebmMime: string := "audio/webm"
  /** The error the `onerror` handler records in the TypeScript hook. */
  const RecorderErrorMessage: string := "MediaRecorder error"

  datatype HookState = HookState(
    hasRecorder: bool,             // mediaRecorder !== null
    recorderState: RecorderState,  // mediaRecorder.state
    timesliceMs: nat,              // timeslice of the last mediaRecorder.start
    handlersAttached: bool,        // ondataavailable, onstop and onerror are set
    stopEventPending: bool,        // stop() was called, its 'stop' event has not fired
    recordingData: seq<Chunk>,
    currentFilePath: Option<string>,
    error: Option<string>,
    isInitialized: bool,
    autoSaveArmed: bool,           // autoSaveIntervalRef holds a live interval
    autoSavePeriodMs: nat,
    downloads: seq<Download>)      // every download triggered so far, oldest first

  /** The state right after the hook mounts. */
  function InitialState(): HookState
  {
    HookState(false, Inactive, 0, false, false, [], None, None, false, false, 0, [])
  }

  /** What every reachable state satisfies. */
  predicate Valid(s: HookState)
  {
    && (s.hasRecorder <==> s.isInitialized)
    && (!s.hasRecorder ==> s.recorderState == Inactive && !s.handlersAttached)
    && (s.recorderState != Inactive ==> s.handlersAttached)
    && (s.stopEventPending ==> s.handlersAttached)
    && (s.autoSaveArmed ==> s.handlersAttached)
  }

  /** JavaScript truthiness of `currentFilePath`: neither null nor empty. */
  predicate HasPath(path: Option<string>)
  {
    path.Some? && path.value != ""
  }

  // ---------------------------------------------------------------------
  // The chunk list.

  /** The `ondataavailable` handler: `if (event.data.size > 0)` append. */
  function AppendChunk(data: seq<Chunk>, c: Chunk): (r: seq<Chunk>)
    ensures r == data || r == data + [c]
  {
    if Size(c) > 0 then data + [c] else data
  }

  /** Appends the chunks of a run of `dataavailable` events, in arrival order. */
  function AppendAll(data: seq<Chunk>, events: seq<Chunk>): seq<Chunk>
    decreases events
  {
    if events == [] then data else AppendAll(AppendChunk(data, events[0]), events[1..])
  }

  /** The non-empty chunks of `events`, in order (independent definition). */
  function NonEmptyChunks(events: seq<Chunk>): (r: seq<Chunk>)
    ensures |r| <= |events|
    ensures forall i :: 0 <= i < |r| ==> Size(r[i]) > 0
    ensures forall c :: c in r <==> c in events && Size(c) > 0
  {
    if events == [] then []
    else (if Size(events[0]) > 0 then [events[0]] else []) + NonEmptyChunks(events[1..])
  }

  /** A run of events extends the list by exactly its non-empty chunks, in
      arrival order, and leaves what was there untouched. */
  lemma {:induction false} AppendAllIsFilter(data: seq<Chunk>, events: seq<Chunk>)
    ensures AppendAll(data, events) == data + NonEmptyChunks(events)
    decreases events
  {
    if events != [] {
      var rest := NonEmptyChunks(events[1..]);
      AppendAllIsFilter(AppendChunk(data, events[0]), events[1..]);
      if Size(events[0]) > 0 {
        assert AppendChunk(data, events[0]) == data + [events[0]];
        assert NonEmptyChunks(events) == [events[0]] + rest;
        assert data + [events[0]] + rest == data + ([events[0]] + rest);
      } else {
        assert AppendChunk(data, events[0]) == data;
        assert NonEmptyChunks(events) == [] + rest == rest;
      }
    }
  }

  /** After N events that all carry data, starting from an empty list, the
      list holds exactly those N chunks in the order they arrived. */
  lemma {:induction false} AppendAllNonEmpty(events: seq<Chunk>)
    requires forall i :: 0 <= i < |events| ==> Size(events[i]) > 0
    ensures AppendAll([], events) == events
  {
    AppendAllIsFilter([], events);
    NonEmptyChunksKeepsNonEmpty(events);
  }

  lemma {:induction false} NonEmptyChunksKeepsNonEmpty(events: seq<Chunk>)
    requires forall i :: 0 <= i < |events| ==> Size(events[i]) > 0
    ensures NonEmptyChunks(events) == events
  {
    if events != [] {
      NonEmptyChunksKeepsNonEmpty(events[1..]);
      assert [events[0]] + events[1..] == events;
    }
  }

  /** The bytes of `new Blob(chunks)`: the chunks' bytes, concatenated in order. */
  function Concat(chunks: seq<Chunk>): (r: seq<bv8>)
    ensures |r| == TotalSize(chunks)
  {
    if chunks == [] then [] else chunks[0].bytes + Concat(chunks[1..])
  }

  /** `chunks.reduce((total, chunk) => total + chunk.size, 0)`. */
  function TotalSize(chunks: seq<Chunk>): (r: nat)
    ensures forall i :: 0 <= i < |chunks| ==> Size(chunks[i]) <= r
    ensures r == 0 <==> forall i :: 0 <= i < |chunks| ==> Size(chunks[i]) == 0
  {
    if chunks == [] then 0 else Size(chunks[0]) + TotalSize(chunks[1..])
  }

  lemma {:induction false} TotalSizeAppend(a: seq<Chunk>, b: seq<Chunk>)
    ensures TotalSize(a + b) == TotalSize(a) + TotalSize(b)
  {
    if a == [] {
      assert a + b == b;
    } else {
      assert (a + b)[0] == a[0];
      assert (a + b)[1..] == a[1..] + b;
      TotalSizeAppend(a[1..], b);
    }
  }

  lemma {:induction false} ConcatAppend(a: seq<Chunk>, b: seq<Chunk>)
    ensures Concat(a + b) == Concat(a) + Concat(b)
  {
    if a == [] {
      assert a + b == b;
    } else {
      assert (a + b)[0] == a[0];
      assert (a + b)[1..] == a[1..] + b;
      ConcatAppend(a[1..], b);
    }
  }

  /** The blob's size is the sum of its chunks' sizes, and chunk `i`
      occupies the bytes from the size of the chunks before it onwards:
      nothing is dropped, duplicated or reordered. */
  lemma {:induction false} ConcatLayout(chunks: seq<Chunk>, i: nat)
    requires i < |chunks|
    ensures |Concat(chunks)| == TotalSize(chunks)
    ensures TotalSize(chunks[..i]) + Size(chunks[i]) <= |Concat(chunks)|
    ensures Concat(chunks)[TotalSize(chunks[..i]) .. TotalSize(chunks[..i]) + Size(chunks[i])]
         == chunks[i].bytes
  {
    assert chunks == chunks[..i] + [chunks[i]] + chunks[i + 1..];
    ConcatAppend(chunks[..i] + [chunks[i]], chunks[i + 1..]);
    ConcatAppend(chunks[..i], [chunks[i]]);
    TotalSizeAppend(chunks[..i] + [chunks[i]], chunks[i + 1..]);
    TotalSizeAppend(chunks[..i], [chunks[i]]);
    assert Concat([chunks[i]]) == chunks[i].bytes;
  }


  // ---------------------------------------------------------------------
  // The two saves.

  /** `saveChunkData`: nothing for an empty list, otherwise one webm
      download named `emergency-save-<timestamp>.webm` of all chunks. */
  function EmergencyDownload(data: seq<Chunk>, iso: string): (r: Option<Download>)
    ensures r.None? <==> data == []
    ensures r.Some? ==> r.value.mimeType == WebmMime && r.value.content == Concat(data)
  {
    if |data| > 0 then Some(Download(Naming.EmergencyName(iso), Concat(data), WebmMime))
    else None
  }

  /** `saveRecording`: nothing for an empty list; with a path, the path's
      last segment (or `recording.webm`); without, `recording-<timestamp>.webm`.
      The data is always a webm download, whatever the name says. */
  function FinalDownload(data: seq<Chunk>, path: Option<string>, iso: string): (r: Option<Download>)
    ensures r.None? <==> data == []
    ensures r.Some? ==> r.value.mimeType == WebmMime && r.value.content == Concat(data)
  {
    if |data| == 0 then None
    else if HasPath(path) then Some(Download(Naming.DownloadName(path.value), Concat(data), WebmMime))
    else Some(Download(Naming.RecordingName(iso), Concat(data), WebmMime))
  }

  /** An emergency download carries every chunk's bytes in order, is labelled
      webm, and has a colon-free name of the form `emergency-save-…webm`. */
  lemma EmergencyDownloadContents(data: seq<Chunk>, iso: string, i: nat)
    requires |iso| >= 19 && i < |data|
    ensures var d := EmergencyDownload(data, iso).value;
      && |d.content| == TotalSize(data)
      && TotalSize(data[..i]) + Size(data[i]) <= |d.content|
      && d.content[TotalSize(data[..i]) .. TotalSize(data[..i]) + Size(data[i])] == data[i].bytes
      && d.filename[..15] == "emergency-save-"
      && d.filename[|d.filename| - 5..] == ".webm"
      && |d.filename| == 39
      && ':' !in d.filename
  {
    ConcatLayout(data, i);
    Naming.TimestampedNameShape("emergency-save", iso, "webm");
    var name := Naming.EmergencyName(iso);
    assert name[..15] == name[..14] + [name[14]];
    assert name[34..] == [name[34]] + name[35..];
  }

  /** The final download's name: the basename of a non-empty path when it
      has one, `recording.webm` when that basename is empty, and a
      timestamped `recording-…webm` when there is no path. */
  lemma FinalDownloadName(data: seq<Chunk>, path: Option<string>, iso: string)
    requires data != [] && |iso| >= 19
    ensures var name := FinalDownload(data, path, iso).value.filename;
      && (HasPath(path) && Naming.Basename(path.value) != "" ==> name == Naming.Basename(path.value))
      && (HasPath(path) && Naming.Basename(path.value) == "" ==> name == "recording.webm")
      && (!HasPath(path) ==>
            name[..10] == "recording-" && name[|name| - 5..] == ".webm" && ':' !in name)
  {
    Naming.TimestampedNameShape("recording", iso, "webm");
    var name := Naming.RecordingName(iso);
    assert name[..10] == name[..9] + [name[9]];
    assert name[29..] == [name[29]] + name[30..];
  }

  // ---------------------------------------------------------------------
  // Transitions both hooks share.

  /** Appends a download, if there is one, to the record of downloads. */
  function Emit(s: HookState, d: Option<Download>): HookState
  {
    if d.Some? then s.(downloads := s.downloads + [d.value]) else s
  }

  /** `initializeAudio`: clears the error, then either installs a fresh
      inactive recorder and sets `isInitialized`, or records the error. */
  function InitializeStep(s: HookState, outcome: DeviceOutcome): (t: HookState)
    requires !s.hasRecorder
    ensures outcome.Opened? ==>
      t == s.(error := None, hasRecorder := true, recorderState := Inactive, isInitialized := true)
    ensures outcome.DeviceError? ==> t == s.(error := Some(outcome.message))
  {
    match outcome
    case Opened =>
      s.(error := None, hasRecorder := true, recorderState := Inactive, isInitialized := true)
    case DeviceError(message) => s.(error := Some(message))
  }

  /** The part of `startRecording` after its guards: empty the list, clear
      the error, attach the handlers, start with a one-second timeslice and
      arm the five-minute autosave. */
  function BeginSession(s: HookState): (t: HookState)
    ensures Valid(s) && s.hasRecorder ==> Valid(t)
    ensures t.recorderState == Recording && t.recordingData == [] && t.error == None
    ensures t.autoSaveArmed && t.autoSavePeriodMs == AutoSavePeriodMs && t.timesliceMs == TimesliceMs
    ensures t.hasRecorder == s.hasRecorder && t.currentFilePath == s.currentFilePath
    ensures t.downloads == s.downloads && t.stopEventPending == s.stopEventPending
  {
    s.(recordingData := [], error := None, handlersAttached := true,
       recorderState := Recording, timesliceMs := TimesliceMs,
       autoSaveArmed := true, autoSavePeriodMs := AutoSavePeriodMs)
  }

  /** A `dataavailable` event, handled only once `startRecording` has
      attached the handler. */
  function DataStep(s: HookState, c: Chunk): (t: HookState)
    ensures t.(recordingData := s.recordingData) == s
    ensures |s.recordingData| <= |t.recordingData| && t.recordingData[..|s.recordingData|] == s.recordingData
    ensures t.recordingData != s.recordingData <==> s.handlersAttached && Size(c) > 0
  {
    if s.handlersAttached then s.(recordingData := AppendChunk(s.recordingData, c)) else s
  }

  /** A run of `dataavailable` events, in arrival order. */
  function Feed(s: HookState, events: seq<Chunk>): (t: HookState)
    ensures t.(recordingData := s.recordingData) == s
    ensures |s.recordingData| <= |t.recordingData| && t.recordingData[..|s.recordingData|] == s.recordingData
    decreases events
  {
    if events == [] then s else Feed(DataStep(s, events[0]), events[1..])
  }

  /** Events change only the chunk list, which grows by their non-empty
      chunks in order once the handler is attached. */
  lemma {:induction false} FeedAppends(s: HookState, events: seq<Chunk>)
    ensures Feed(s, events) ==
      if s.handlersAttached then s.(recordingData := AppendAll(s.recordingData, events)) else s
    decreases events
  {
    if events != [] {
      FeedAppends(DataStep(s, events[0]), events[1..]);
    }
  }

  /** `stopRecording`: `stop()` only from `recording`, which turns the
      recorder inactive and queues its 'stop' event; the autosave interval
      is cleared in every case. */
  function StopStep(s: HookState): (t: HookState)
    ensures !t.autoSaveArmed && t.recordingData == s.recordingData && t.downloads == s.downloads
    ensures t.recorderState != Recording || !s.hasRecorder
    ensures t.stopEventPending == (s.stopEventPending || (s.hasRecorder && s.recorderState == Recording))
    ensures !(s.hasRecorder && s.recorderState == Recording) ==> t == s.(autoSaveArmed := false)
    ensures t.(recorderState := s.recorderState, stopEventPending := s.stopEventPending,
               autoSaveArmed := s.autoSaveArmed) == s
  {
    var stopped :=
      if s.hasRecorder && s.recorderState == Recording
      then s.(recorderState := Inactive, stopEventPending := true)
      else s;
    stopped.(autoSaveArmed := false)
  }

  /** Stopping twice is the same as stopping once. */
  lemma StopIdempotent(s: HookState)
    requires Valid(s)
    ensures StopStep(StopStep(s)) == StopStep(s)
  {
  }

  /** `saveChunkData`: at most one download; the chunk list and every other
      part of the state are left as they were. */
  function SaveChunkStep(s: HookState, iso: string): (t: HookState)
    ensures t.(downloads := s.downloads) == s
    ensures |t.downloads| == |s.downloads| + (if s.recordingData == [] then 0 else 1)
    ensures t.downloads[..|s.downloads|] == s.downloads
    ensures t.downloads == s.downloads +
      (if s.recordingData == [] then [] else [EmergencyDownload(s.recordingData, iso).value])
  {
    Emit(s, EmergencyDownload(s.recordingData, iso))
  }

  /** `saveRecording`: the final download of the whole list, if it is
      non-empty; every other part of the state is left as it was. */
  function SaveRecordingStep(s: HookState, iso: string): (t: HookState)
    ensures t.(downloads := s.downloads) == s
    ensures t.downloads == s.downloads +
      (if s.recordingData == [] then []
       else [FinalDownload(s.recordingData, s.currentFilePath, iso).value])
  {
    Emit(s, FinalDownload(s.recordingData, s.currentFilePath, iso))
  }

  /** The recorder's 'stop' event: the `onstop` handler clears the autosave
      interval and then saves the recording. */
  function OnStopStep(s: HookState, iso: string): (t: HookState)
    ensures !s.stopEventPending ==> t == s
    ensures s.stopEventPending ==>
      && !t.stopEventPending && !t.autoSaveArmed
      && t.recordingData == s.recordingData && t.recorderState == s.recorderState
      && t.downloads == s.downloads +
           (if s.recordingData == [] then []
            else [FinalDownload(s.recordingData, s.currentFilePath, iso).value])
    ensures s.stopEventPending ==>
      t.(downloads := s.downloads) == s.(stopEventPending := false, autoSaveArmed := false)
  {
    if s.stopEventPending
    then SaveRecordingStep(s.(stopEventPending := false, autoSaveArmed := false), iso)
    else s
  }

  /** A tick of the autosave interval: an emergency save while armed. */
  function AutoSaveStep(s: HookState, iso: string): (t: HookState)
    ensures t.(downloads := s.downloads) == s
    ensures !s.autoSaveArmed ==> t == s
    ensures |s.downloads| <= |t.downloads| <= |s.downloads| + 1
  {
    if s.autoSaveArmed then SaveChunkStep(s, iso) else s
  }

  /** `emergencyStop`: `stopRecording()` followed by `saveChunkData()`. */
  function EmergencyStopStep(s: HookState, iso: string): (t: HookState)
    ensures !t.autoSaveArmed && t.recordingData == s.recordingData
    ensures t.recorderState != Recording || !s.hasRecorder
    ensures t.stopEventPending == (s.stopEventPending || (s.hasRecorder && s.recorderState == Recording))
    ensures t.downloads == s.downloads +
      (if s.recordingData == [] then [] else [EmergencyDownload(s.recordingData, iso).value])
    ensures t.(downloads := s.downloads) == StopStep(s)
  {
    SaveChunkStep(StopStep(s), iso)
  }

  /** The `onerror` handler records an error once attached. */
  function RecorderErrorStep(s: HookState, message: string): (t: HookState)
    ensures t.(error := s.error) == s
    ensures s.handlersAttached ==> t.error == Some(message)
    ensures !s.handlersAttached ==> t == s
  {
    if s.handlersAttached then s.(error := Some(message)) else s
  }

  /** An autosave while recording does not interrupt the recording: the
      recorder keeps recording, the chunk list keeps every chunk, the
      autosave stays armed, and a non-empty list yields exactly one
      emergency download of all of it. */
  lemma AutoSaveKeepsRecording(s: HookState, iso: string)
    requires s.autoSaveArmed
    ensures var t := AutoSaveStep(s, iso);
      && t.recorderState == s.recorderState
      && t.recordingData == s.recordingData
      && t.autoSaveArmed
      && (s.recordingData != [] ==>
            t.downloads == s.downloads + [Download(Naming.EmergencyName(iso), Concat(s.recordingData), WebmMime)])
      && (s.recordingData == [] ==> t == s)
  {
  }

  /** Every shared transition keeps the state valid. */
  lemma SharedStepsKeepValid(s: HookState, c: Chunk, iso: string, message: string)
    requires Valid(s)
    ensures Valid(DataStep(s, c)) && Valid(StopStep(s)) && Valid(OnStopStep(s, iso))
    ensures Valid(AutoSaveStep(s, iso)) && Valid(EmergencyStopStep(s, iso))
    ensures Valid(RecorderErrorStep(s, message))
  {
  }
}
