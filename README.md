# Podcast recorder: recording controller, meter and window logic in Dafny

This project models the sequential logic of a small Electron podcast
recorder. It has a React renderer, two versions of a recorder hook, a volume
meter and an Electron main process. The model covers:

- **The recorder hook** (`useAudioRecorder.ts`, and the older
  `useAudioRecorder.js`). Its state is the `MediaRecorder` (absent, or
  `inactive`/`recording`), an append-only chunk list, the save path, the
  last error, and the five-minute autosave interval. The model covers the
  start guards and the filter that appends only non-empty chunks. It also
  covers stop, the recorder's `stop` event, the emergency save, the final
  save and the choice of save location.
  - `RecorderCore` states every transition as a function on one state
    record. `Recorder.AudioRecorder` is the hook as an object: its
    handlers update its fields, and each is proved against its function.
  - `HookTs` and `HookJs` hold the two variants of `startRecording`.
- **File names** (`Naming`): `<prefix>-<first 19 ISO characters, colons
  made hyphens>.<ext>`, and the basename `path.split('/').pop() ||
  'recording.webm'`.
- **The meter's frame step** (`Meter`): the level clamped to [-60, 0] dB,
  the clipping threshold, the peak-hold rule and its delayed decay, and the
  geometry of the bar, the peak marker and the scale.
- **Renderer helpers** (`Display`, `AppTsx`, `AppJsx`): `formatTime`, the
  kilobyte label, the default input device and device changes, the record
  toggle, the emergency-stop button, the elapsed-seconds counter and the
  record button's enablement.
- **Main process** (`MainProcess`): the window lifecycle flags, the
  always-on-top toggle and the save dialog's default name.

Downloads are modelled as emitted `Download(filename, bytes, "audio/webm")`
records. The current time enters as an ISO-8601 string parameter. The
host API's presence and the user's answers to dialogs also enter as
parameters. Timers (the one-second timeslice, the autosave interval, the
one-second counter and the 100 ms peak decay) become explicit tick and
event methods.

The code has no PCM/WAV or MP3 encoder, no privileged file write and no
format fallback. It always triggers a browser download of the raw webm
blob, even when a path ending in `.wav` is set. Its only states are the
recorder's own `inactive`/`recording` and the stop event still to come.

## Model

| member | source | states |
|---|---|---|
| Naming.Slice19 | src/hooks/useAudioRecorder.ts:191 | `slice(0, 19)` keeps the first 19 characters, or all of a shorter string |
| Naming.ReplaceColons | src/hooks/useAudioRecorder.ts:191 | `replace(/:/g, '-')` keeps the length, turns every colon into `-` and keeps every other character |
| Naming.TimestampedName | src/hooks/useAudioRecorder.ts:191 | `<prefix>-<stamp>.<ext>`: starts with the prefix, ends with the extension, and the stamp between them holds no colon |
| Naming.TimestampedNameShape | src/hooks/useAudioRecorder.ts:220 | a timestamped name is prefix, `-`, 19 stamp characters, `.`, extension; no colon if prefix and extension have none; `EmergencyName` and `RecordingName` are its `emergency-save`/`webm` and `recording`/`webm` instances |
| Naming.TimestampRoundTrip | src/hooks/useAudioRecorder.ts:191 | for an ISO timestamp, putting the two colons back into the name's stamp field yields the timestamp's first 19 characters |
| Naming.DialogDefaultNameShape | src/main/main.js:72 | the dialog's default name (`DialogDefaultName`) is `recording-` + 19 colon-free characters + `.wav`, 33 characters long |
| Naming.Split | src/hooks/useAudioRecorder.ts:210 | `split('/')` yields at least one segment, none containing `/` |
| Naming.JoinSplit | src/hooks/useAudioRecorder.ts:210 | joining the segments with `/` gives the path back |
| Naming.SplitJoin | src/hooks/useAudioRecorder.ts:210 | splitting a join of slash-free segments gives the segments back |
| Naming.SplitSlashFree | src/hooks/useAudioRecorder.ts:210 | a slash-free string is its own single segment |
| Naming.SplitCons | src/hooks/useAudioRecorder.ts:210 | splitting `a/b` with slash-free `a` gives `a` followed by the segments of `b` |
| Naming.BasenameIsLastSegment | src/hooks/useAudioRecorder.ts:210 | `pop()` of the split is the suffix after the last `/`, or the whole path when it has none |
| Naming.Basename | src/hooks/useAudioRecorder.ts:210 | `pop()` of the split never contains `/` |
| Naming.DownloadName | src/hooks/useAudioRecorder.ts:210 | the final download name is non-empty and slash-free: a suffix of the path or `recording.webm` |
| Naming.DownloadNameFallback | src/hooks/useAudioRecorder.js:169 | `recording.webm` is used exactly when the path is empty or ends in `/` |
| RecorderCore.NonEmptyChunks | src/hooks/useAudioRecorder.ts:144-148 | the chunks of a run of events that have data, in order |
| RecorderCore.AppendChunk | src/hooks/useAudioRecorder.ts:144-148 | the handler's update is append-only: the list is kept or gains exactly the event's chunk at the end |
| RecorderCore.AppendAllIsFilter | src/hooks/useAudioRecorder.ts:144-148 | a run of `dataavailable` events (`AppendAll`) appends exactly its non-empty chunks, in arrival order, after the existing ones |
| RecorderCore.AppendAllNonEmpty | src/hooks/useAudioRecorder.js:103-107 | after N events with data on an empty list, the list is exactly those N chunks in order |
| RecorderCore.NonEmptyChunksKeepsNonEmpty | src/hooks/useAudioRecorder.ts:145 | filtering chunks that all have data keeps them all |
| RecorderCore.TotalSizeAppend | src/renderer/App.tsx:488-491 | the summed size of two lists is the sum of their sizes |
| RecorderCore.TotalSize | src/renderer/App.tsx:488-491 | the summed size bounds every chunk's size, and is 0 exactly when every chunk is empty |
| RecorderCore.Concat | src/hooks/useAudioRecorder.ts:187 | the blob's length is the sum of the chunk sizes |
| RecorderCore.ConcatAppend | src/hooks/useAudioRecorder.ts:203 | the blob of two lists is the concatenation of their blobs |
| RecorderCore.ConcatLayout | src/hooks/useAudioRecorder.ts:187 | chunk i sits in the blob right after the chunks before it, so nothing is lost or reordered |
| RecorderCore.EmergencyDownload | src/hooks/useAudioRecorder.ts:185-197 | no download for an empty list, otherwise one webm download of all chunks |
| RecorderCore.EmergencyDownloadContents | src/hooks/useAudioRecorder.ts:185-197 | the emergency download holds every chunk in order and is named `emergency-save-….webm` (39 characters, no colon) |
| RecorderCore.FinalDownload | src/hooks/useAudioRecorder.ts:200-226 | no download for an empty list, otherwise one webm download of all chunks, even under a `.wav` name |
| RecorderCore.FinalDownloadName | src/hooks/useAudioRecorder.ts:205-225 | with a path: its basename, or `recording.webm` when that is empty; without one: `recording-….webm`, colon-free |
| RecorderCore.InitializeStep | src/hooks/useAudioRecorder.ts:35-83 | success clears the error, installs an inactive recorder and sets `isInitialized`, keeping everything else; failure only records the error |
| RecorderCore.BeginSession | src/hooks/useAudioRecorder.ts:139-170 | from a valid state with a recorder: a valid state that is recording, with an empty list, no error, the 1000 ms timeslice and the 300000 ms autosave armed; path, downloads and pending stop event kept |
| RecorderCore.StopStep | src/hooks/useAudioRecorder.ts:175-182 | only the recorder state, the pending stop event and the autosave change; the autosave is always cleared; `stop()`, and with it the pending 'stop' event, happens exactly when the recorder is recording; otherwise nothing else changes |
| RecorderCore.StopIdempotent | src/hooks/useAudioRecorder.ts:175-182 | a second stop changes nothing |
| RecorderCore.SaveChunkStep | src/hooks/useAudioRecorder.ts:185-197 | the emergency save changes nothing but the downloads; a non-empty list adds exactly its emergency download (`EmergencyDownload`), an empty one adds nothing |
| RecorderCore.SaveRecordingStep | src/hooks/useAudioRecorder.ts:200-226 | the final save changes nothing but the downloads; a non-empty list adds exactly its final download (`FinalDownload` under the current path), an empty one adds nothing |
| RecorderCore.DataStep | src/hooks/useAudioRecorder.ts:144-148 | only the chunk list changes, append-only, and it changes exactly when the handler is attached and the chunk has data |
| RecorderCore.Feed | src/hooks/useAudioRecorder.ts:144-148 | a run of events changes only the chunk list, and only by appending |
| RecorderCore.OnStopStep | src/hooks/useAudioRecorder.ts:151-156 | without a pending stop event nothing happens; with one, the event is consumed, the autosave cleared, the list kept, and the final download of the list added when it is non-empty; nothing else changes (error, path, recorder and handlers kept) |
| RecorderCore.AutoSaveStep | src/hooks/useAudioRecorder.ts:168-170 | only the downloads change, by at most one, and nothing happens while the interval is not armed |
| RecorderCore.EmergencyStopStep | src/hooks/useAudioRecorder.ts:236-243 | the autosave is cleared, the list kept, the recorder no longer recording, the 'stop' event pending when the recorder was recording, and the emergency download of the list added when non-empty; apart from the download the state is exactly that of `stopRecording`, so the error and the save path are never changed |
| RecorderCore.RecorderErrorStep | src/hooks/useAudioRecorder.ts:159-162 | only the error changes, and only once the handlers are attached |
| RecorderCore.FeedAppends | src/hooks/useAudioRecorder.ts:144-148 | events change only the chunk list, and only once the handler is attached |
| RecorderCore.AutoSaveKeepsRecording | src/hooks/useAudioRecorder.ts:167-170 | an autosave tick keeps recording, keeps every chunk, stays armed, and downloads the whole list when non-empty |
| RecorderCore.SharedStepsKeepValid | src/hooks/useAudioRecorder.ts:144-197 | data, error, stop, stop-event, autosave and emergency-stop transitions keep the state invariant |
| Recorder.AudioRecorder.constructor | src/hooks/useAudioRecorder.ts:22-32 | the hook starts with no recorder, no data, no path, no error and no autosave |
| Recorder.AudioRecorder.InitializeAudio | src/hooks/useAudioRecorder.ts:35-83 | performs the initialisation transition in place |
| Recorder.AudioRecorder.BeginSession | src/hooks/useAudioRecorder.ts:140-170 | empties the list, clears the error, attaches the handlers, starts with a 1000 ms timeslice, arms the 300000 ms autosave |
| Recorder.AudioRecorder.OnDataAvailable | src/hooks/useAudioRecorder.ts:144-148 | appends the chunk at the end only when it has data and the handler is attached |
| Recorder.AudioRecorder.OnRecorderError | src/hooks/useAudioRecorder.ts:159-162 | the recorder's error event records the error |
| Recorder.AudioRecorder.StopRecording | src/hooks/useAudioRecorder.ts:175-182 | performs the stop transition in place: `stop()` only from `recording`, the autosave always cleared |
| Recorder.AudioRecorder.SaveChunkData | src/hooks/useAudioRecorder.ts:185-197 | performs the emergency save and never touches the chunk list |
| Recorder.AudioRecorder.SaveRecording | src/hooks/useAudioRecorder.ts:200-226 | performs the final save with the basename-or-timestamp name |
| Recorder.AudioRecorder.OnStop | src/hooks/useAudioRecorder.ts:151-156 | the stop event clears the autosave before saving the recording |
| Recorder.AudioRecorder.OnAutoSaveTick | src/hooks/useAudioRecorder.ts:168-170 | an autosave tick makes an emergency save while the interval is armed |
| Recorder.AudioRecorder.EmergencyStop | src/hooks/useAudioRecorder.ts:236-243 | stop, then save what is buffered |
| HookTs.StartStep | src/hooks/useAudioRecorder.ts:130-172 | "not ready" iff no inactive recorder; "no destination" iff ready but the path is null or empty; a rejection changes nothing; success resets list and error and starts recording |
| HookTs.PathOrNull | src/hooks/useAudioRecorder.ts:123 | `filePath \|\| null` has a path exactly when the dialog gave a non-empty one |
| HookTs.SelectSaveLocationStep | src/hooks/useAudioRecorder.ts:117-127 | false with the path kept when there is no host API or the dialog is cancelled; otherwise true, with the path set to the file or null |
| HookTs.DefaultSavePathStep | src/hooks/useAudioRecorder.ts:86-95 | the default path is stored only when the lookup resolves |
| HookTs.RecordingSession | src/hooks/useAudioRecorder.ts:130-226 | start, events, stop and the stop event leave the non-empty chunks in order and one download named after the path's basename |
| HookTs.StartRejectionKeepsTake | src/hooks/useAudioRecorder.ts:131-138 | a rejected start keeps the previous chunk list, error and path |
| HookTs.OnRecorderError | src/hooks/useAudioRecorder.ts:159-162 | the TypeScript `onerror` records the fixed message `MediaRecorder error` |
| HookTs.StartRecording | src/hooks/useAudioRecorder.ts:130-172 | performs the TypeScript start in place and returns its error |
| HookTs.SelectSaveLocation | src/hooks/useAudioRecorder.ts:117-127 | performs the save-location choice in place and returns whether a file was chosen |
| HookTs.SetDefaultSavePath | src/hooks/useAudioRecorder.ts:86-95 | performs the default-path lookup in place |
| HookJs.StartStep | src/hooks/useAudioRecorder.js:85-131 | "not ready" iff no inactive recorder; a cancelled dialog rejects with nothing changed; otherwise the dialog's path (possibly undefined) is set before the reset, and no path is required |
| HookJs.StartWithoutHostNeedsNoPath | src/hooks/useAudioRecorder.js:91-185 | without a host API a pathless start succeeds and the final save uses `recording-….webm` |
| HookJs.StartRecording | src/hooks/useAudioRecorder.js:85-131 | performs the JavaScript start in place and returns its error |
| Meter.Sum | src/components/VolumeMeters.tsx:51 | the sum of the magnitudes is at most 255 per bin |
| Meter.SumZero | src/components/VolumeMeters.tsx:51 | the sum is zero iff every bin is zero |
| Meter.Audible | src/components/VolumeMeters.tsx:51-57 | `normalizedLevel > 0` holds iff some frequency bin is non-zero |
| Meter.NormalizedLevel | src/components/VolumeMeters.tsx:52-53 | the normalised mean lies in [0, 1] and is positive iff some bin is |
| Meter.Clamp | src/components/VolumeMeters.tsx:58 | the clamp lands in [-60, 0], keeps values already there, and saturates at both ends |
| Meter.DisplayLevel | src/components/VolumeMeters.tsx:56-58 | the displayed level always lies in [-60, 0] |
| Meter.Analyze | src/components/VolumeMeters.tsx:50-71 | a frame's level is in [-60, 0] and it clips iff the level is above -3 |
| Meter.SilenceShowsFloor | src/components/VolumeMeters.tsx:51-70 | all-zero bins show exactly -60 and do not clip, whatever the dB conversion |
| Meter.ClippingNeedsSignal | src/components/VolumeMeters.tsx:56-70 | a clipping frame has a non-zero bin and a converted level above -3 |
| Meter.RaisePeak | src/components/VolumeMeters.tsx:64-65 | the peak after a frame is the old peak or the level, and at least both |
| Meter.BarWidth | src/components/VolumeMeters.tsx:89-103 | the bar width is never negative and at most the meter width |
| Meter.BarWidthMonotone | src/components/VolumeMeters.tsx:89 | a louder level gives a wider bar: empty at -60, full at 0 |
| Meter.ScaleXIncreasing | src/components/VolumeMeters.tsx:120 | on a meter of positive width a larger dB value is drawn further right |
| Meter.ScaleX | src/components/VolumeMeters.tsx:120 | -60 dB is drawn at `meterX` and 0 dB at `meterX + meterWidth` |
| Meter.PeakMarkerX | src/components/VolumeMeters.tsx:106-110 | the peak marker is drawn iff the peak is above -60 |
| Meter.ScaleTicks | src/components/VolumeMeters.tsx:118-127 | the seven scale ticks are placed at their dB positions, left to right, from `meterX` to `meterX + meterWidth` |
| Meter.VolumeMeter.constructor | src/components/VolumeMeters.tsx:18-20 | level 0, peak 0, not clipping, no decay pending |
| Meter.VolumeMeter.Draw | src/components/VolumeMeters.tsx:37-72 | a frame stores and reports the level and clipping flag; the peak is raised, with a decay scheduled, only when the level is above it; a peak at 0 stays at 0 |
| Meter.VolumeMeter.DecayTick | src/components/VolumeMeters.tsx:66 | a pending decay multiplies the peak by 0.95; with none pending nothing changes |
| Meter.VolumeMeter.PeakMarker | src/components/VolumeMeters.tsx:106-110 | while the peak is at rest the marker sits at the 0 dB end |
| Meter.PeakNeverRaised | src/components/VolumeMeters.tsx:19-67 | starting from 0, no run of frames ever raises the peak |
| Meter.PeakHoldsMaximum | src/components/VolumeMeters.tsx:64-65 | before any decay, the held peak is at least every level shown |
| Meter.PeakAfter | src/components/VolumeMeters.tsx:64-65 | the held peak after a run of frames is the starting peak or one of the levels shown |
| Meter.PeakAfterAtLeast | src/components/VolumeMeters.tsx:64-65 | frames never lower the held peak |
| Display.DigitChar | src/renderer/App.tsx:145 | digit characters are decimal digits |
| Display.DigitValue | src/renderer/App.tsx:145 | a digit's value is below 10 |
| Display.Decimal | src/renderer/App.tsx:145 | `toString()` of a natural number is a non-empty string of digits |
| Display.DecimalRoundTrip | src/renderer/App.tsx:145 | reading the digits of n back gives n |
| Display.DecimalLength | src/renderer/App.tsx:145 | one digit iff below 10, at most two iff below 100 |
| Display.LeadingZero | src/renderer/App.tsx:145 | `padStart` with a zero keeps the value |
| Display.PaddedDecimal | src/renderer/App.tsx:145 | padded digits keep the value, have at least two digits, and exactly two iff below 100 |
| Display.Pad2 | src/renderer/App.tsx:145 | `padStart(2, '0')` yields two characters, or the string itself when it is longer |
| Display.Pad2Shape | src/renderer/App.tsx:145 | the padding is zeros placed before the string |
| Display.FormatTime | src/renderer/App.tsx:142-146 | the display has at least five characters with the `:` third from the end (also src/renderer/App.jsx:80-84) |
| Display.ParseClock | src/renderer/App.tsx:142-146 | the display of m minutes and s < 60 seconds reads back as m * 60 + s |
| Display.FormatTimeRoundTrip | src/renderer/App.tsx:142-146 | `formatTime` is readable back to the exact seconds (the same definition is at src/renderer/App.jsx:80-84) |
| Display.FormatTimeLength | src/renderer/App.jsx:80-84 | the display has at least 5 characters, and exactly 5 (`mm:ss`) iff under 6000 s |
| Display.Kilobytes | src/renderer/App.tsx:487-492 | `Math.round(S / 1024)` is the whole number within half a unit of S/1024, halves rounded up |
| Display.KilobytesUnique | src/renderer/App.tsx:487-492 | only one whole number is that close |
| Display.SizeLabel | src/renderer/App.tsx:484-495 | the size label is shown iff the chunk list is non-empty (also src/renderer/App.jsx:214-218) |
| Display.SizeLabelMatchesDownload | src/renderer/App.tsx:484-495 | the label is the rounded size of the blob the final save would download |
| MainProcess.DialogOptions | src/main/main.js:66-73 | the dialog offers wav and mp3 and a 33-character colon-free default name |
| MainProcess.Toggle | src/main/main.js:56-63 | with a window the flag is negated and the new value returned; without one nothing changes and false is returned |
| MainProcess.ToggleTwice | src/main/main.js:56-63 | two toggles restore the original flag |
| MainProcess.Main.constructor | src/main/main.js:4 | no window before the app is ready |
| MainProcess.Main.CreateWindow | src/main/main.js:6-37 | creating the window makes it the main window, not on top |
| MainProcess.Main.OnReady | src/main/main.js:39-41 | when ready, one window exists and `activate` is handled |
| MainProcess.Main.OnActivate | src/main/main.js:42-46 | `activate` creates a window only when none exists |
| MainProcess.Main.OnWindowClosed | src/main/main.js:34-36 | `closed` resets the main window to null |
| MainProcess.Main.OnAllWindowsClosed | src/main/main.js:49-53 | all windows closed quits unless the platform is `darwin` |
| MainProcess.Main.ToggleAlwaysOnTop | src/main/main.js:56-63 | the handler applies the toggle rule to the window |
| MainProcess.Main.ShowSaveDialog | src/main/main.js:66-76 | with a window the dialog is shown with the timestamped `.wav` default and its result returned; without one, null |
| AppTsx.AudioInputs | src/renderer/App.tsx:54-56 | exactly the devices of kind `audioinput`, no more than were enumerated |
| AppTsx.AudioInputsAppend | src/renderer/App.tsx:54-56 | `filter` keeps the enumeration order: filtering a concatenation concatenates the filtered parts |
| AppTsx.FirstAudioInput | src/renderer/App.tsx:54-62 | the first audio input in enumeration order heads the filtered list |
| AppTsx.FallbackIsFirstAudioInput | src/renderer/App.tsx:60-62 | with no `default` device, the device selected on start-up is the first audio input in enumeration order |
| AppTsx.FindIndex | src/renderer/App.tsx:87-89 | `find` stops at the first device with the id, or finds none |
| AppTsx.Find | src/renderer/App.tsx:87-89 | a found device is listed and has the id, and no earlier device has it (the first match); none is found iff no listed device has it |
| AppTsx.DefaultDevice | src/renderer/App.tsx:60-62 | the `default` input if present, else the first; none for an empty list |
| AppTsx.InputSourceLabel | src/renderer/App.tsx:65 | the device's label when it has one, and exactly the default label `マイク` when it has none |
| AppTsx.ButtonMatchesStartGuard | src/renderer/App.tsx:443-445 | idle and error-free, the record button is enabled iff `startRecording` would succeed |
| AppTsx.EnabledButtonHasDestination | src/renderer/App.tsx:443-445 | an enabled idle button never leads to the no-destination rejection |
| AppTsx.App.constructor | src/renderer/App.tsx:26-34 | not recording, counter 0, no devices |
| AppTsx.App.LoadDevices | src/renderer/App.tsx:50-73 | stores the inputs and selects the default one with its label; an empty list or a failed enumeration keeps the selection |
| AppTsx.App.HandleDeviceChange | src/renderer/App.tsx:85-93 | always selects the id; updates the label only when the id is listed |
| AppTsx.App.Tick | src/renderer/App.tsx:100-102 | each tick while recording adds exactly 1 |
| AppTsx.App.HandleRecordToggle | src/renderer/App.tsx:110-122 | idle: starts, and records only if the start succeeded; recording: stops, records no more, and the counter returns to 0 |
| AppTsx.App.HandleSelectSaveLocation | src/renderer/App.tsx:133-139 | runs the hook's save-location choice |
| AppTsx.App.HandleAlwaysOnTopToggle | src/renderer/App.tsx:125-130 | with a host, the shown flag is the main process's reply; without one it is unchanged |
| AppJsx.EnabledButtonStarts | src/renderer/App.jsx:165 | the button is enabled iff the hook is initialised and error-free; an enabled idle button starts unless the dialog is cancelled |
| AppJsx.App.constructor | src/renderer/App.jsx:24-27 | not recording, counter 0 |
| AppJsx.App.Tick | src/renderer/App.jsx:44-54 | each tick while recording adds exactly 1 |
| AppJsx.App.HandleRecordToggle | src/renderer/App.jsx:57-69 | recording begins only after the start resolves; stopping ends it and resets the counter |
| AppJsx.App.EmergencyStopClick | src/renderer/App.jsx:172-186 | usable only while recording; runs the hook's emergency stop and always ends with recording off |
| AppJsx.App.HandleAlwaysOnTopToggle | src/renderer/App.jsx:72-77 | with a host, the shown flag is the main process's reply |

## Left out

- Media capture and the Web Audio graph are outside the model: `getUserMedia`, `AudioContext`, the gain and analyser nodes, `MediaRecorder` internals and `setInputGain`. The recorder is an abstract object with a state and events. Opening the device is an outcome parameter.
- Blob, object-URL and anchor mechanics are outside the model. A save is a `Download(filename, bytes, "audio/webm")` record.
- React's render and closure semantics are abstracted. Every handler reads one state record at the moment it runs. In the source, `startRecording` is memoised on `[mediaRecorder]` alone, so the values it reads are those of the render in which the recorder was installed. Read that way, the TypeScript start's path check sees the path of that render, so a save location chosen afterwards does not reach it. Likewise, the `onstop` save and the autosave see the chunk list of that render, which is empty, so they would download nothing. The model reads the current values instead, which is what the handlers are evidently written for.
- Peak hold: the meter's peak starts at 0 dB (src/components/VolumeMeters.tsx:19), and no displayed level exceeds 0 dB. So, as written, the peak is never raised, its decay never runs, and the marker stays at the right-hand end. `Meter.PeakNeverRaised` states this. `Meter.PeakHoldsMaximum` states the peak-hold rule for any starting peak.
- Recorder.AudioRecorder.InitializeAudio: modelled only while no recorder exists. The hook calls it once on mount. Re-initialising over a live recorder, whose old events would still fire, is not modelled.
- MainProcess.Main.OnWindowClosed: requires a main window. The `closed` event only comes from that window.
- AppTsx.App.Tick and AppJsx.App.Tick: require recording. The interval exists only while recording.
- AppJsx.App.EmergencyStopClick: requires recording. The button is rendered only then.
- Real time is modelled as explicit tick and event methods: the timeslice, the autosave interval, the elapsed-seconds tick and the 100 ms peak decay.
- The loading overlay and its 1500 ms timer (src/renderer/App.tsx:76-82) are left out. They only hide the interface for the first 1.5 seconds.
- JavaScript numbers are doubles. The model uses unbounded naturals for seconds and byte counts, which agree with the source only below 2^53, where doubles are exact. That covers `formatTime`, the elapsed counter and the kilobyte label.
- Asynchronous handlers are treated as atomic steps. Examples are the awaited dialog in the JavaScript start and the awaited save in `onstop`. Nothing interleaves inside one handler.
- The decibel conversion `20 * Math.log10(x)` is the parameter `toDb`. Floating-point rounding is not modelled; levels are Dafny reals.
- When there are no bins, the source's average is NaN and its `> 0` test fails. The model gives the floor level in that case without computing a NaN.
- The meter's early return when the analyser or canvas is missing becomes a `ready` flag. The meter's own `AudioContext`, its effect re-subscription and the canvas drawing calls are left out.
- The `getDefaultSavePath` and `writeFile` bridge calls have no handlers in the main process. The default-path lookup's outcome is a parameter, and no privileged write exists.
- The `AudioVisualizer` waveform, the input-gain percentage label, the title and input-source text fields, layout, styling and window creation options are left out.
- `MediaRecorder`'s `paused` state is part of the type, but nothing in the source pauses.
