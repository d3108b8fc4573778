/**
 * The renderer of `App.tsx`: the input-device choice, the record toggle,
 * the elapsed-seconds counter, the record button's enablement and the
 * always-on-top toggle, over the TypeScript recorder hook.
 */
module AppTsx {
  import opened Wrappers
  import opened RecorderCore
  import Recorder
  import HookTs
  import MainProcess

  /** A `MediaDeviceInfo`: the fields the renderer reads. */
  datatype MediaDeviceInfo = MediaDeviceInfo(deviceId: string, kind: string, deviceLabel: string)

  /** The label shown for a device that reports none ("microphone"). */
  const DefaultInputLabel: string := "\U{30DE}\U{30A4}\U{30AF}"

  /** `devices.filter(device => device.kind === 'audioinput')`. */
  function AudioInputs(devices: seq<MediaDeviceInfo>): (r: seq<MediaDeviceInfo>)
    ensures |r| <= |devices|
    ensures forall d :: d in r <==> d in devices && d.kind == "audioinput"
  {
    if devices == [] then []
    else (if devices[0].kind == "audioinput" then [devices[0]] else []) + AudioInputs(devices[1..])
  }

  /** `filter` keeps the enumeration order: filtering a concatenation is
      concatenating the filtered parts. */
  lemma {:induction false} AudioInputsAppend(a: seq<MediaDeviceInfo>, b: seq<MediaDeviceInfo>)
    ensures AudioInputs(a + b) == AudioInputs(a) + AudioInputs(b)
  {
    if a == [] {
      assert a + b == b;
    } else {
      assert (a + b)[0] == a[0];
      assert (a + b)[1..] == a[1..] + b;
      AudioInputsAppend(a[1..], b);
    }
  }

  /** Without a device whose id is `default`, the device chosen on start-up
      is the first audio input in enumeration order. */
  lemma FallbackIsFirstAudioInput(devices: seq<MediaDeviceInfo>, k: nat)
    requires k < |devices| && devices[k].kind == "audioinput"
    requires forall j :: 0 <= j < k ==> devices[j].kind != "audioinput"
    requires forall j :: 0 <= j < |devices| ==> devices[j].deviceId != "default"
    ensures DefaultDevice(AudioInputs(devices)) == Some(devices[k])
  {
    var inputs := AudioInputs(devices);
    FirstAudioInput(devices, k);
    assert forall j :: 0 <= j < |inputs| ==> inputs[j].deviceId != "default" by {
      forall j | 0 <= j < |inputs| ensures inputs[j].deviceId != "default" {
        assert inputs[j] in devices;
      }
    }
  }

  /** The first audio input in enumeration order heads the filtered list. */
  lemma {:induction false} FirstAudioInput(devices: seq<MediaDeviceInfo>, k: nat)
    requires k < |devices| && devices[k].kind == "audioinput"
    requires forall j :: 0 <= j < k ==> devices[j].kind != "audioinput"
    ensures |AudioInputs(devices)| > 0 && AudioInputs(devices)[0] == devices[k]
  {
    if k > 0 {
      FirstAudioInput(devices[1..], k - 1);
      assert AudioInputs(devices) == AudioInputs(devices[1..]);
    }
  }

  /** The index `find` stops at: the first device with id `id`, or -1. */
  function FindIndex(devices: seq<MediaDeviceInfo>, id: string): (k: int)
    ensures -1 <= k < |devices|
    ensures k >= 0 ==> devices[k].deviceId == id
    ensures forall j :: 0 <= j < |devices| && (k == -1 || j < k) ==> devices[j].deviceId != id
    decreases |devices|
  {
    if devices == [] then -1
    else if devices[0].deviceId == id then 0
    else
      var k := FindIndex(devices[1..], id);
      if k == -1 then -1 else k + 1
  }

  /** `devices.find(device => device.deviceId === id)`. */
  function Find(devices: seq<MediaDeviceInfo>, id: string): (r: Option<MediaDeviceInfo>)
    ensures r.Some? ==> r.value in devices && r.value.deviceId == id
    ensures r.None? <==> forall j :: 0 <= j < |devices| ==> devices[j].deviceId != id
    ensures r.Some? ==>
      exists k :: 0 <= k < |devices| && r.value == devices[k] &&
        forall j :: 0 <= j < k ==> devices[j].deviceId != id
  {
    var k := FindIndex(devices, id);
    if k >= 0 then Some(devices[k]) else None
  }

  /** The device chosen on start-up: the input whose id is `default`, else
      the first input; none for an empty list. */
  function DefaultDevice(inputs: seq<MediaDeviceInfo>): (r: Option<MediaDeviceInfo>)
    ensures r.None? <==> inputs == []
    ensures r.Some? ==> r.value in inputs
    ensures (exists j :: 0 <= j < |inputs| && inputs[j].deviceId == "default") ==>
      r.Some? && r.value.deviceId == "default"
    ensures r.Some? && r.value.deviceId != "default" ==> r.value == inputs[0]
  {
    var d := Find(inputs, "default");
    if d.Some? then d else if |inputs| > 0 then Some(inputs[0]) else None
  }

  /** `device.label || 'マイク'`. */
  function InputSourceLabel(d: MediaDeviceInfo): (r: string)
    ensures r != ""
    ensures d.deviceLabel != "" ==> r == d.deviceLabel
    ensures d.deviceLabel == "" ==> r == DefaultInputLabel
  {
    if d.deviceLabel == "" then DefaultInputLabel else d.deviceLabel
  }

  /** The record button's `disabled` expression. */
  function RecordDisabled(isInitialized: bool, error: Option<string>, isRecording: bool,
                          currentFilePath: Option<string>): bool
  {
    !isInitialized || error.Some? || (!isRecording && !HasPath(currentFilePath))
  }

  /** While idle and free of errors, the record button is enabled exactly
      when the hook's `startRecording` would succeed. */
  lemma ButtonMatchesStartGuard(s: HookState)
    requires Valid(s) && s.recorderState == Inactive && s.error == None
    ensures !RecordDisabled(s.isInitialized, s.error, false, s.currentFilePath)
        <==> HookTs.StartStep(s).0 == None
  {
  }

  /** An enabled record button never leads to the "no destination" rejection. */
  lemma EnabledButtonHasDestination(s: HookState)
    requires !RecordDisabled(s.isInitialized, s.error, false, s.currentFilePath)
    ensures HookTs.StartStep(s).0 != Some(NoDestination)
  {
  }

  class App {
    var isRecording: bool
    var recordingTime: nat
    var isAlwaysOnTop: bool
    var inputSource: string
    var audioDevices: seq<MediaDeviceInfo>
    var selectedDeviceId: string
    /** The recorder hook the component uses. */
    const recorder: Recorder.AudioRecorder

    /** The hook is valid, and the counter is 0 whenever not recording. */
    predicate Valid()
      reads this, recorder
    {
      recorder.Valid() && (!isRecording ==> recordingTime == 0)
    }

    constructor(recorder: Recorder.AudioRecorder)
      requires recorder.Valid()
      ensures Valid() && this.recorder == recorder
      ensures !isRecording && recordingTime == 0 && !isAlwaysOnTop
      ensures inputSource == "" && audioDevices == [] && selectedDeviceId == ""
    {
      this.recorder := recorder;
      isRecording, recordingTime, isAlwaysOnTop := false, 0, false;
      inputSource, audioDevices, selectedDeviceId := "", [], "";
    }

    /** The device-enumeration effect; `enumerated` is None when
        `enumerateDevices` rejects. The audio inputs are stored and the
        default one selected, if there is one. */
    method LoadDevices(enumerated: Option<seq<MediaDeviceInfo>>)
      requires Valid()
      modifies this`audioDevices, this`selectedDeviceId, this`inputSource
      ensures Valid()
      ensures enumerated.None? ==> unchanged(this)
      ensures enumerated.Some? ==> audioDevices == AudioInputs(enumerated.value)
      ensures enumerated.Some? && DefaultDevice(audioDevices).Some? ==>
        selectedDeviceId == DefaultDevice(audioDevices).value.deviceId
        && inputSource == InputSourceLabel(DefaultDevice(audioDevices).value)
      ensures enumerated.Some? && DefaultDevice(audioDevices).None? ==>
        selectedDeviceId == old(selectedDeviceId) && inputSource == old(inputSource)
    {
      if enumerated.None? {
        return;
      }
      var inputs := AudioInputs(enumerated.value);
      audioDevices := inputs;
      var defaultDevice := DefaultDevice(inputs);
      if defaultDevice.Some? {
        selectedDeviceId := defaultDevice.value.deviceId;
        inputSource := InputSourceLabel(defaultDevice.value);
      }
    }

    /** `handleDeviceChange`: the id is always selected; the input label
        follows only when the id belongs to a listed device. */
    method HandleDeviceChange(deviceId: string)
      requires Valid()
      modifies this`selectedDeviceId, this`inputSource
      ensures Valid()
      ensures selectedDeviceId == deviceId
      ensures Find(audioDevices, deviceId).Some? ==>
        inputSource == InputSourceLabel(Find(audioDevices, deviceId).value)
      ensures (forall j :: 0 <= j < |audioDevices| ==> audioDevices[j].deviceId != deviceId) ==>
        inputSource == old(inputSource)
    {
      selectedDeviceId := deviceId;
      var selectedDevice := Find(audioDevices, deviceId);
      if selectedDevice.Some? {
        inputSource := InputSourceLabel(selectedDevice.value);
      }
    }

    /** A tick of the one-second interval, which runs only while recording. */
    method Tick()
      requires Valid() && isRecording
      modifies this`recordingTime
      ensures Valid() && recordingTime == old(recordingTime) + 1
    {
      recordingTime := recordingTime + 1;
    }

    /** `handleRecordToggle`. Idle: start, and record only if the start
        resolved. Recording: stop and record no more, whereupon the timer
        effect resets the counter. */
    method HandleRecordToggle() returns (startError: Option<StartError>)
      requires Valid()
      modifies this`isRecording, this`recordingTime, recorder
      ensures Valid()
      ensures !old(isRecording) ==>
        && (startError, recorder.State()) == HookTs.StartStep(old(recorder.State()))
        && isRecording == startError.None?
        && recordingTime == old(recordingTime)
      ensures old(isRecording) ==>
        && startError == None
        && recorder.State() == StopStep(old(recorder.State()))
        && !isRecording && recordingTime == 0
    {
      if !isRecording {
        startError := HookTs.StartRecording(recorder);
        if startError.None? {
          isRecording := true;
        }
      } else {
        recorder.StopRecording();
        isRecording := false;
        recordingTime := 0;
        startError := None;
      }
    }

    /** `handleSelectSaveLocation`: the hook's `selectSaveLocation`, whose
        answer is not used. */
    method HandleSelectSaveLocation(dialog: Option<SaveDialogResult>)
      requires Valid()
      modifies recorder
      ensures Valid()
      ensures recorder.State() == HookTs.SelectSaveLocationStep(old(recorder.State()), dialog).1
    {
      var _ := HookTs.SelectSaveLocation(recorder, dialog);
    }

    /** `handleAlwaysOnTopToggle`; `host` is null when there is no host API.
        The displayed flag takes the main process's reply. */
    method HandleAlwaysOnTopToggle(host: MainProcess.Main?)
      requires Valid() && (host != null ==> host.Valid())
      modifies this`isAlwaysOnTop, host
      ensures Valid()
      ensures host == null ==> isAlwaysOnTop == old(isAlwaysOnTop)
      ensures host != null ==>
        host.Valid() && (host.alwaysOnTop, isAlwaysOnTop) == MainProcess.Toggle(host.mainWindow, old(host.alwaysOnTop))
    {
      if host != null {
        var newState := host.ToggleAlwaysOnTop();
        isAlwaysOnTop := newState;
      }
    }
  }
}
