/** The configuration surface of the external recording engine, as far as
    `src/recorder.rs` uses it.  The engine's own builder is not visible, so a
    configuration handed to it is modelled as the log of builder calls made. */
module Engine {
  import opened Common

  datatype VideoEncoderType = H264 | HEVC

  datatype AudioSource = Desktop | ActiveWindow

  /** One call on the engine's configuration builder. A volume carries the
      configured value; its narrowing to a 32-bit float is not modelled. */
  datatype BuilderCall =
    | Fps(numerator: U32, denominator: U32)
    | InputDimensions(width: U32, height: U32)
    | OutputDimensions(width: U32, height: U32)
    | CaptureAudio(enabled: bool)
    | CaptureMicrophone(enabled: bool)
    | WithAudioSource(source: AudioSource)
    | MicrophoneVolume(volume: real)
    | SystemVolume(volume: real)
    | MicrophoneDevice(device: Option<string>)
    | VideoEncoder(encoderType: VideoEncoderType)
    | VideoEncoderName(name: string)
    | CaptureCursor(enabled: bool)
    | OutputPath(path: string)
    | DebugMode(enabled: bool)
    | EnableReplayBuffer(enabled: bool)
    | ReplayBufferSeconds(seconds: U32)
}

/** `src/recorder.rs`: the recorder configuration, its defaults, the
    configuration builder exposed to the host, and the conversion into the
    engine's configuration. */
module Recorder {
  import opened Common
  import Engine

  datatype VideoEncoderType = H264 | HEVC

  datatype AudioSource = Desktop | ActiveWindow

  /** Floating-point volume, forwarded without interpretation. */
  type Volume = real

  /** `From<VideoEncoderType>`: each variant goes to the same-named engine
      variant; the map is total and one-to-one. */
  function ToEngineEncoderType(t: VideoEncoderType): (e: Engine.VideoEncoderType)
    ensures e == Engine.H264 <==> t == H264
    ensures e == Engine.HEVC <==> t == HEVC
  {
    match t
    case H264 => Engine.H264
    case HEVC => Engine.HEVC
  }

  /** `From<AudioSource>`: each variant goes to the same-named engine
      variant; the map is total and one-to-one. */
  function ToEngineAudioSource(s: AudioSource): (e: Engine.AudioSource)
    ensures e == Engine.Desktop <==> s == Desktop
    ensures e == Engine.ActiveWindow <==> s == ActiveWindow
  {
    match s
    case Desktop => Engine.Desktop
    case ActiveWindow => Engine.ActiveWindow
  }

  datatype RecorderConfig = RecorderConfig(
    fpsNumerator: U32,
    fpsDenominator: U32,
    inputWidth: Option<U32>,
    inputHeight: Option<U32>,
    outputWidth: U32,
    outputHeight: U32,
    captureAudio: bool,
    captureMicrophone: bool,
    audioSource: AudioSource,
    microphoneVolume: Option<Volume>,
    systemVolume: Option<Volume>,
    microphoneDevice: Option<string>,
    videoEncoderType: Option<VideoEncoderType>,
    videoEncoderName: Option<string>,
    captureCursor: bool,
    outputPath: string,
    debugMode: bool,
    enableReplayBuffer: bool,
    replayBufferSeconds: Option<U32>)

  /** `RecorderConfig::default`: no optional setting is chosen and the replay
      buffer is off; the values of the required settings are those that
      `DefaultForwardsOnlyRequiredSettings` shows being forwarded. */
  function DefaultConfig(): (c: RecorderConfig)
    ensures c.inputWidth == None && c.inputHeight == None
    ensures c.microphoneVolume == None && c.systemVolume == None && c.microphoneDevice == None
    ensures c.videoEncoderType == None && c.videoEncoderName == None
    ensures !c.enableReplayBuffer && c.replayBufferSeconds == None
  {
    RecorderConfig(
      fpsNumerator := 30,
      fpsDenominator := 1,
      inputWidth := None,
      inputHeight := None,
      outputWidth := 1920,
      outputHeight := 1080,
      captureAudio := true,
      captureMicrophone := false,
      audioSource := Desktop,
      microphoneVolume := None,
      systemVolume := None,
      microphoneDevice := None,
      videoEncoderType := None,
      videoEncoderName := None,
      captureCursor := true,
      outputPath := "recording.mp4",
      debugMode := false,
      enableReplayBuffer := false,
      replayBufferSeconds := None)
  }

  // ---------------------------------------------------------------------------
  // Fields and setters, as data
  // ---------------------------------------------------------------------------

  /** The fields of a configuration. */
  datatype Field =
    | FpsNumerator | FpsDenominator | InputWidth | InputHeight | OutputWidth | OutputHeight
    | CaptureAudioFlag | CaptureMicrophoneFlag | SourceOfAudio | MicrophoneVolumeLevel | SystemVolumeLevel
    | MicrophoneDeviceName | EncoderType | EncoderName | CaptureCursorFlag | PathOfOutput
    | DebugModeFlag | ReplayBufferFlag | ReplayBufferLength

  /** The value held in one field. */
  datatype FieldValue =
    | U32Value(n: U32)
    | OptionalU32(on: Option<U32>)
    | BoolValue(b: bool)
    | SourceValue(source: AudioSource)
    | OptionalVolume(ov: Option<Volume>)
    | StringValue(s: string)
    | OptionalString(os: Option<string>)
    | OptionalEncoder(oe: Option<VideoEncoderType>)

  function Get(c: RecorderConfig, f: Field): FieldValue {
    match f
    case FpsNumerator => U32Value(c.fpsNumerator)
    case FpsDenominator => U32Value(c.fpsDenominator)
    case InputWidth => OptionalU32(c.inputWidth)
    case InputHeight => OptionalU32(c.inputHeight)
    case OutputWidth => U32Value(c.outputWidth)
    case OutputHeight => U32Value(c.outputHeight)
    case CaptureAudioFlag => BoolValue(c.captureAudio)
    case CaptureMicrophoneFlag => BoolValue(c.captureMicrophone)
    case SourceOfAudio => SourceValue(c.audioSource)
    case MicrophoneVolumeLevel => OptionalVolume(c.microphoneVolume)
    case SystemVolumeLevel => OptionalVolume(c.systemVolume)
    case MicrophoneDeviceName => OptionalString(c.microphoneDevice)
    case EncoderType => OptionalEncoder(c.videoEncoderType)
    case EncoderName => OptionalString(c.videoEncoderName)
    case CaptureCursorFlag => BoolValue(c.captureCursor)
    case PathOfOutput => StringValue(c.outputPath)
    case DebugModeFlag => BoolValue(c.debugMode)
    case ReplayBufferFlag => BoolValue(c.enableReplayBuffer)
    case ReplayBufferLength => OptionalU32(c.replayBufferSeconds)
  }

  /** One call of a builder setter, with its arguments. */
  datatype Setting =
    | SetFps(numerator: U32, denominator: U32)
    | SetInputDimensions(width: U32, height: U32)
    | SetOutputDimensions(width: U32, height: U32)
    | SetCaptureAudio(capture: bool)
    | SetCaptureMicrophone(capture: bool)
    | SetAudioSource(source: AudioSource)
    | SetMicrophoneVolume(volume: Volume)
    | SetSystemVolume(volume: Volume)
    | SetMicrophoneDevice(deviceName: Option<string>)
    | SetVideoEncoder(encoderType: VideoEncoderType)
    | SetVideoEncoderName(name: string)
    | SetCaptureCursor(capture: bool)
    | SetOutputPath(path: string)
    | SetDebugMode(debug: bool)
    | SetEnableReplayBuffer(enable: bool)
    | SetReplayBufferSeconds(seconds: U32)

  /** The fields a setter writes, and the value it writes into each. */
  function Writes(s: Setting): map<Field, FieldValue> {
    match s
    case SetFps(n, d) => map[FpsNumerator := U32Value(n), FpsDenominator := U32Value(d)]
    case SetInputDimensions(w, h) => map[InputWidth := OptionalU32(Some(w)), InputHeight := OptionalU32(Some(h))]
    case SetOutputDimensions(w, h) => map[OutputWidth := U32Value(w), OutputHeight := U32Value(h)]
    case SetCaptureAudio(b) => map[CaptureAudioFlag := BoolValue(b)]
    case SetCaptureMicrophone(b) => map[CaptureMicrophoneFlag := BoolValue(b)]
    case SetAudioSource(a) => map[SourceOfAudio := SourceValue(a)]
    case SetMicrophoneVolume(v) => map[MicrophoneVolumeLevel := OptionalVolume(Some(v))]
    case SetSystemVolume(v) => map[SystemVolumeLevel := OptionalVolume(Some(v))]
    case SetMicrophoneDevice(d) => map[MicrophoneDeviceName := OptionalString(d)]
    case SetVideoEncoder(t) => map[EncoderType := OptionalEncoder(Some(t))]
    case SetVideoEncoderName(n) => map[EncoderName := OptionalString(Some(n))]
    case SetCaptureCursor(b) => map[CaptureCursorFlag := BoolValue(b)]
    case SetOutputPath(p) => map[PathOfOutput := StringValue(p)]
    case SetDebugMode(b) => map[DebugModeFlag := BoolValue(b)]
    case SetEnableReplayBuffer(b) => map[ReplayBufferFlag := BoolValue(b)]
    case SetReplayBufferSeconds(n) => map[ReplayBufferLength := OptionalU32(Some(n))]
  }

  /** The configuration after one setter call. */
  function Apply(c: RecorderConfig, s: Setting): RecorderConfig {
    match s
    case SetFps(n, d) => c.(fpsNumerator := n, fpsDenominator := d)
    case SetInputDimensions(w, h) => c.(inputWidth := Some(w), inputHeight := Some(h))
    case SetOutputDimensions(w, h) => c.(outputWidth := w, outputHeight := h)
    case SetCaptureAudio(b) => c.(captureAudio := b)
    case SetCaptureMicrophone(b) => c.(captureMicrophone := b)
    case SetAudioSource(a) => c.(audioSource := a)
    case SetMicrophoneVolume(v) => c.(microphoneVolume := Some(v))
    case SetSystemVolume(v) => c.(systemVolume := Some(v))
    case SetMicrophoneDevice(d) => c.(microphoneDevice := d)
    case SetVideoEncoder(t) => c.(videoEncoderType := Some(t))
    case SetVideoEncoderName(n) => c.(videoEncoderName := Some(n))
    case SetCaptureCursor(b) => c.(captureCursor := b)
    case SetOutputPath(p) => c.(outputPath := p)
    case SetDebugMode(b) => c.(debugMode := b)
    case SetEnableReplayBuffer(b) => c.(enableReplayBuffer := b)
    case SetReplayBufferSeconds(n) => c.(replayBufferSeconds := Some(n))
  }

  /** A setter changes exactly the fields it writes, to the values it writes;
      every other field keeps its value. */
  lemma ApplyWritesOnlyItsFields(c: RecorderConfig, s: Setting, f: Field)
    ensures Get(Apply(c, s), f) == if f in Writes(s) then Writes(s)[f] else Get(c, f)
  {
    if s.SetFps? || s.SetInputDimensions? || s.SetOutputDimensions? || s.SetCaptureAudio? {
      ApplyWritesGroup1(c, s, f);
    } else if s.SetCaptureMicrophone? || s.SetAudioSource? || s.SetMicrophoneVolume? || s.SetSystemVolume? {
      ApplyWritesGroup2(c, s, f);
    } else if s.SetMicrophoneDevice? || s.SetVideoEncoder? || s.SetVideoEncoderName? || s.SetCaptureCursor? {
      ApplyWritesGroup3(c, s, f);
    } else {
      ApplyWritesGroup4(c, s, f);
    }
  }

  lemma ApplyWritesGroup1(c: RecorderConfig, s: Setting, f: Field)
    requires s.SetFps? || s.SetInputDimensions? || s.SetOutputDimensions? || s.SetCaptureAudio?
    ensures Get(Apply(c, s), f) == if f in Writes(s) then Writes(s)[f] else Get(c, f)
  {
  }

  lemma ApplyWritesGroup2(c: RecorderConfig, s: Setting, f: Field)
    requires s.SetCaptureMicrophone? || s.SetAudioSource? || s.SetMicrophoneVolume? || s.SetSystemVolume?
    ensures Get(Apply(c, s), f) == if f in Writes(s) then Writes(s)[f] else Get(c, f)
  {
  }

  lemma ApplyWritesGroup3(c: RecorderConfig, s: Setting, f: Field)
    requires s.SetMicrophoneDevice? || s.SetVideoEncoder? || s.SetVideoEncoderName? || s.SetCaptureCursor?
    ensures Get(Apply(c, s), f) == if f in Writes(s) then Writes(s)[f] else Get(c, f)
  {
  }

  lemma ApplyWritesGroup4(c: RecorderConfig, s: Setting, f: Field)
    requires s.SetOutputPath? || s.SetDebugMode? || s.SetEnableReplayBuffer? || s.SetReplayBufferSeconds?
    ensures Get(Apply(c, s), f) == if f in Writes(s) then Writes(s)[f] else Get(c, f)
  {
  }

  /** Configurations that agree on every field are equal. */
  lemma ConfigsEqualByFields(c: RecorderConfig, d: RecorderConfig)
    requires forall f :: Get(c, f) == Get(d, f)
    ensures c == d
  {
    assert Get(c, FpsNumerator) == Get(d, FpsNumerator);
    assert Get(c, FpsDenominator) == Get(d, FpsDenominator);
    assert Get(c, InputWidth) == Get(d, InputWidth);
    assert Get(c, InputHeight) == Get(d, InputHeight);
    assert Get(c, OutputWidth) == Get(d, OutputWidth);
    assert Get(c, OutputHeight) == Get(d, OutputHeight);
    assert Get(c, CaptureAudioFlag) == Get(d, CaptureAudioFlag);
    assert Get(c, CaptureMicrophoneFlag) == Get(d, CaptureMicrophoneFlag);
    assert Get(c, SourceOfAudio) == Get(d, SourceOfAudio);
    assert Get(c, MicrophoneVolumeLevel) == Get(d, MicrophoneVolumeLevel);
    assert Get(c, SystemVolumeLevel) == Get(d, SystemVolumeLevel);
    assert Get(c, MicrophoneDeviceName) == Get(d, MicrophoneDeviceName);
    assert Get(c, EncoderType) == Get(d, EncoderType);
    assert Get(c, EncoderName) == Get(d, EncoderName);
    assert Get(c, CaptureCursorFlag) == Get(d, CaptureCursorFlag);
    assert Get(c, PathOfOutput) == Get(d, PathOfOutput);
    assert Get(c, DebugModeFlag) == Get(d, DebugModeFlag);
    assert Get(c, ReplayBufferFlag) == Get(d, ReplayBufferFlag);
    assert Get(c, ReplayBufferLength) == Get(d, ReplayBufferLength);
  }

  /** Last write wins: a setter that writes every field an earlier one wrote
      erases the earlier call. Calling a setter twice with the same arguments
      is the same as calling it once. */
  lemma LastWriteWins(c: RecorderConfig, first: Setting, second: Setting)
    requires Writes(first).Keys <= Writes(second).Keys
    ensures Apply(Apply(c, first), second) == Apply(c, second)
  {
    forall f ensures Get(Apply(Apply(c, first), second), f) == Get(Apply(c, second), f) {
      ApplyWritesOnlyItsFields(Apply(c, first), second, f);
      ApplyWritesOnlyItsFields(c, first, f);
      ApplyWritesOnlyItsFields(c, second, f);
    }
    ConfigsEqualByFields(Apply(Apply(c, first), second), Apply(c, second));
  }

  lemma SettersAreIdempotent(c: RecorderConfig, s: Setting)
    ensures Apply(Apply(c, s), s) == Apply(c, s)
  {
    LastWriteWins(c, s, s);
  }

  /** Setters that write different fields can be called in either order. */
  lemma DisjointSettersCommute(c: RecorderConfig, s: Setting, t: Setting)
    requires Writes(s).Keys !! Writes(t).Keys
    ensures Apply(Apply(c, s), t) == Apply(Apply(c, t), s)
  {
    forall f ensures Get(Apply(Apply(c, s), t), f) == Get(Apply(Apply(c, t), s), f) {
      CommuteAtField(c, s, t, f);
    }
    ConfigsEqualByFields(Apply(Apply(c, s), t), Apply(Apply(c, t), s));
  }

  lemma CommuteAtField(c: RecorderConfig, s: Setting, t: Setting, f: Field)
    requires Writes(s).Keys !! Writes(t).Keys
    ensures Get(Apply(Apply(c, s), t), f) == Get(Apply(Apply(c, t), s), f)
  {
    ApplyWritesOnlyItsFields(Apply(c, s), t, f);
    ApplyWritesOnlyItsFields(Apply(c, t), s, f);
    ApplyWritesOnlyItsFields(c, s, f);
    ApplyWritesOnlyItsFields(c, t, f);
  }

  /** `microphone_device(None)` clears a device set earlier. */
  lemma ClearingMicrophoneDevice(c: RecorderConfig, device: string)
    ensures Apply(Apply(c, SetMicrophoneDevice(Some(device))), SetMicrophoneDevice(None)) == c.(microphoneDevice := None)
  {
    LastWriteWins(c, SetMicrophoneDevice(Some(device)), SetMicrophoneDevice(None));
  }

  // ---------------------------------------------------------------------------
  // The builder
  // ---------------------------------------------------------------------------

  /** `RecorderConfigBuilder`: a configuration that each setter updates in place. */
  class RecorderConfigBuilder {
    var config: RecorderConfig

    constructor ()
      ensures config == DefaultConfig()
    {
      config := DefaultConfig();
    }

    method Fps(numerator: U32, denominator: U32)
      modifies this
      ensures config == Apply(old(config), SetFps(numerator, denominator))
    {
      config := config.(fpsNumerator := numerator, fpsDenominator := denominator);
    }

    method InputDimensions(width: U32, height: U32)
      modifies this
      ensures config == Apply(old(config), SetInputDimensions(width, height))
    {
      config := config.(inputWidth := Some(width), inputHeight := Some(height));
    }

    method OutputDimensions(width: U32, height: U32)
      modifies this
      ensures config == Apply(old(config), SetOutputDimensions(width, height))
    {
      config := config.(outputWidth := width, outputHeight := height);
    }

    method CaptureAudio(capture: bool)
      modifies this
      ensures config == Apply(old(config), SetCaptureAudio(capture))
    {
      config := config.(captureAudio := capture);
    }

    method CaptureMicrophone(capture: bool)
      modifies this
      ensures config == Apply(old(config), SetCaptureMicrophone(capture))
    {
      config := config.(captureMicrophone := capture);
    }

    method AudioSource(source: AudioSource)
      modifies this
      ensures config == Apply(old(config), SetAudioSource(source))
    {
      config := config.(audioSource := source);
    }

    method MicrophoneVolume(volume: Volume)
      modifies this
      ensures config == Apply(old(config), SetMicrophoneVolume(volume))
    {
      config := config.(microphoneVolume := Some(volume));
    }

    method SystemVolume(volume: Volume)
      modifies this
      ensures config == Apply(old(config), SetSystemVolume(volume))
    {
      config := config.(systemVolume := Some(volume));
    }

    method MicrophoneDevice(deviceName: Option<string>)
      modifies this
      ensures config == Apply(old(config), SetMicrophoneDevice(deviceName))
    {
      config := config.(microphoneDevice := deviceName);
    }

    method VideoEncoder(encoderType: VideoEncoderType)
      modifies this
      ensures config == Apply(old(config), SetVideoEncoder(encoderType))
    {
      config := config.(videoEncoderType := Some(encoderType));
    }

    method VideoEncoderName(name: string)
      modifies this
      ensures config == Apply(old(config), SetVideoEncoderName(name))
    {
      config := config.(videoEncoderName := Some(name));
    }

    method CaptureCursor(capture: bool)
      modifies this
      ensures config == Apply(old(config), SetCaptureCursor(capture))
    {
      config := config.(captureCursor := capture);
    }

    method OutputPath(path: string)
      modifies this
      ensures config == Apply(old(config), SetOutputPath(path))
    {
      config := config.(outputPath := path);
    }

    method DebugMode(debug: bool)
      modifies this
      ensures config == Apply(old(config), SetDebugMode(debug))
    {
      config := config.(debugMode := debug);
    }

    method EnableReplayBuffer(enable: bool)
      modifies this
      ensures config == Apply(old(config), SetEnableReplayBuffer(enable))
    {
      config := config.(enableReplayBuffer := enable);
    }

    method ReplayBufferSeconds(seconds: U32)
      modifies this
      ensures config == Apply(old(config), SetReplayBufferSeconds(seconds))
    {
      config := config.(replayBufferSeconds := Some(seconds));
    }

    /** A copy of the current configuration; the builder is left unchanged. */
    method Build() returns (c: RecorderConfig)
      ensures c == config
    {
      c := config;
    }
  }

  // ---------------------------------------------------------------------------
  // Conversion into the engine's configuration
  // ---------------------------------------------------------------------------

  /** The engine builder calls the conversion always makes, in source order. */
  function RequiredCalls(c: RecorderConfig): seq<Engine.BuilderCall> {
    [ Engine.Fps(c.fpsNumerator, c.fpsDenominator),
      Engine.OutputDimensions(c.outputWidth, c.outputHeight),
      Engine.CaptureAudio(c.captureAudio),
      Engine.CaptureMicrophone(c.captureMicrophone),
      Engine.WithAudioSource(ToEngineAudioSource(c.audioSource)),
      Engine.CaptureCursor(c.captureCursor),
      Engine.OutputPath(c.outputPath),
      Engine.DebugMode(c.debugMode) ]
  }

  /** Input dimensions are forwarded only when both are set. */
  function InputCall(c: RecorderConfig): seq<Engine.BuilderCall> {
    if c.inputWidth.Some? && c.inputHeight.Some?
    then [Engine.InputDimensions(c.inputWidth.value, c.inputHeight.value)] else []
  }

  function MicrophoneVolumeCall(c: RecorderConfig): seq<Engine.BuilderCall> {
    if c.microphoneVolume.Some? then [Engine.MicrophoneVolume(c.microphoneVolume.value)] else []
  }

  function SystemVolumeCall(c: RecorderConfig): seq<Engine.BuilderCall> {
    if c.systemVolume.Some? then [Engine.SystemVolume(c.systemVolume.value)] else []
  }

  function MicrophoneDeviceCall(c: RecorderConfig): seq<Engine.BuilderCall> {
    if c.microphoneDevice.Some? then [Engine.MicrophoneDevice(Some(c.microphoneDevice.value))] else []
  }

  function VideoEncoderCall(c: RecorderConfig): seq<Engine.BuilderCall> {
    if c.videoEncoderType.Some? then [Engine.VideoEncoder(ToEngineEncoderType(c.videoEncoderType.value))] else []
  }

  function VideoEncoderNameCall(c: RecorderConfig): seq<Engine.BuilderCall> {
    if c.videoEncoderName.Some? then [Engine.VideoEncoderName(c.videoEncoderName.value)] else []
  }

  /** The replay buffer is switched on only when enabled, and its length is
      forwarded only then. */
  function ReplayCalls(c: RecorderConfig): seq<Engine.BuilderCall> {
    if c.enableReplayBuffer then
      [Engine.EnableReplayBuffer(true)] +
      if c.replayBufferSeconds.Some? then [Engine.ReplayBufferSeconds(c.replayBufferSeconds.value)] else []
    else []
  }

  /** The engine builder calls made for the optional settings that are set,
      in source order. */
  function OptionalCalls(c: RecorderConfig): seq<Engine.BuilderCall> {
    InputCall(c) + MicrophoneVolumeCall(c) + SystemVolumeCall(c) + MicrophoneDeviceCall(c) +
    VideoEncoderCall(c) + VideoEncoderNameCall(c) + ReplayCalls(c)
  }

  /** `From<RecorderConfig> for WinRecorderConfig`: the engine builder calls
      made, in order. The eight required calls are always made, and at most
      one call per optional setting follows. */
  function ToEngineConfig(c: RecorderConfig): (calls: seq<Engine.BuilderCall>)
    ensures 8 <= |calls| <= 16
  {
    RequiredCalls(c) + OptionalCalls(c)
  }

  // ---------------------------------------------------------------------------
  // Which calls are made, and in which order
  // ---------------------------------------------------------------------------

  /** The position of each kind of engine builder call in the conversion's
      fixed order: the eight required calls, then the optional ones. */
  function CallRank(call: Engine.BuilderCall): nat {
    match call
    case Fps(_, _) => 0
    case OutputDimensions(_, _) => 1
    case CaptureAudio(_) => 2
    case CaptureMicrophone(_) => 3
    case WithAudioSource(_) => 4
    case CaptureCursor(_) => 5
    case OutputPath(_) => 6
    case DebugMode(_) => 7
    case InputDimensions(_, _) => 8
    case MicrophoneVolume(_) => 9
    case SystemVolume(_) => 10
    case MicrophoneDevice(_) => 11
    case VideoEncoder(_) => 12
    case VideoEncoderName(_) => 13
    case EnableReplayBuffer(_) => 14
    case ReplayBufferSeconds(_) => 15
  }

  predicate InCallOrder(calls: seq<Engine.BuilderCall>) {
    forall i, j :: 0 <= i < j < |calls| ==> CallRank(calls[i]) < CallRank(calls[j])
  }

  predicate RanksWithin(calls: seq<Engine.BuilderCall>, lo: nat, hi: nat) {
    forall k :: 0 <= k < |calls| ==> lo <= CallRank(calls[k]) < hi
  }

  /** At most one call, of rank `r`. */
  predicate RankedSlot(calls: seq<Engine.BuilderCall>, r: nat) {
    |calls| <= 1 && (|calls| == 1 ==> CallRank(calls[0]) == r)
  }

  /** The replay calls: the switch, then possibly the length. */
  predicate ReplaySlot(calls: seq<Engine.BuilderCall>) {
    |calls| <= 2 && (|calls| >= 1 ==> CallRank(calls[0]) == 14) && (|calls| == 2 ==> CallRank(calls[1]) == 15)
  }

  /** Two ordered runs of calls, the second ranked above the first, make one
      ordered run. */
  lemma InCallOrderAppend(s: seq<Engine.BuilderCall>, t: seq<Engine.BuilderCall>, lo: nat, mid: nat, hi: nat)
    requires lo <= mid <= hi
    requires InCallOrder(s) && RanksWithin(s, lo, mid)
    requires InCallOrder(t) && RanksWithin(t, mid, hi)
    ensures InCallOrder(s + t) && RanksWithin(s + t, lo, hi)
  {
    var u := s + t;
    forall k | 0 <= k < |u| ensures lo <= CallRank(u[k]) < hi {
      if k < |s| {
        assert u[k] == s[k] && lo <= CallRank(s[k]) < mid;
      } else {
        assert u[k] == t[k - |s|] && mid <= CallRank(t[k - |s|]) < hi;
      }
    }
    forall i, j | 0 <= i < j < |u| ensures CallRank(u[i]) < CallRank(u[j]) {
      if j < |s| {
        assert u[i] == s[i] && u[j] == s[j];
      } else if i < |s| {
        assert u[i] == s[i] && u[j] == t[j - |s|];
      } else {
        assert u[i] == t[i - |s|] && u[j] == t[j - |s|];
      }
    }
  }

  lemma AtMostOneCall(calls: seq<Engine.BuilderCall>, r: nat)
    requires RankedSlot(calls, r)
    ensures InCallOrder(calls) && RanksWithin(calls, r, r + 1)
  {
  }

  /** Slots of ascending rank, concatenated, give one ordered run. */
  lemma SlotsInOrder(input: seq<Engine.BuilderCall>, micVolume: seq<Engine.BuilderCall>, sysVolume: seq<Engine.BuilderCall>,
                     device: seq<Engine.BuilderCall>, encoder: seq<Engine.BuilderCall>, encoderName: seq<Engine.BuilderCall>,
                     replay: seq<Engine.BuilderCall>)
    requires RankedSlot(input, 8) && RankedSlot(micVolume, 9) && RankedSlot(sysVolume, 10)
    requires RankedSlot(device, 11) && RankedSlot(encoder, 12) && RankedSlot(encoderName, 13)
    requires ReplaySlot(replay)
    ensures var all := input + micVolume + sysVolume + device + encoder + encoderName + replay;
      InCallOrder(all) && RanksWithin(all, 8, 16)
  {
    AtMostOneCall(input, 8);
    AtMostOneCall(micVolume, 9);
    InCallOrderAppend(input, micVolume, 8, 9, 10);
    var run := input + micVolume;
    AtMostOneCall(sysVolume, 10);
    InCallOrderAppend(run, sysVolume, 8, 10, 11);
    run := run + sysVolume;
    AtMostOneCall(device, 11);
    InCallOrderAppend(run, device, 8, 11, 12);
    run := run + device;
    AtMostOneCall(encoder, 12);
    InCallOrderAppend(run, encoder, 8, 12, 13);
    run := run + encoder;
    AtMostOneCall(encoderName, 13);
    InCallOrderAppend(run, encoderName, 8, 13, 14);
    run := run + encoderName;
    assert InCallOrder(replay) && RanksWithin(replay, 14, 16);
    InCallOrderAppend(run, replay, 8, 14, 16);
  }

  /** In a run followed by a higher-ranked run, a call is looked up in the
      run its rank belongs to. */
  lemma MemberByRank(s: seq<Engine.BuilderCall>, t: seq<Engine.BuilderCall>, lo: nat, mid: nat, hi: nat, x: Engine.BuilderCall)
    requires RanksWithin(s, lo, mid) && RanksWithin(t, mid, hi)
    ensures CallRank(x) < mid ==> (x in s + t <==> x in s)
    ensures mid <= CallRank(x) ==> (x in s + t <==> x in t)
  {
    if x in s {
      var k :| 0 <= k < |s| && s[k] == x;
    }
    if x in t {
      var k :| 0 <= k < |t| && t[k] == x;
    }
  }

  /** The conditional calls fill their slots. */
  lemma OptionalSlotsRanked(c: RecorderConfig)
    ensures RankedSlot(InputCall(c), 8) && RankedSlot(MicrophoneVolumeCall(c), 9)
    ensures RankedSlot(SystemVolumeCall(c), 10) && RankedSlot(MicrophoneDeviceCall(c), 11)
    ensures RankedSlot(VideoEncoderCall(c), 12) && RankedSlot(VideoEncoderNameCall(c), 13)
    ensures ReplaySlot(ReplayCalls(c))
  {
  }

  /** The optional calls are made in source order, after every required one. */
  lemma OptionalCallsInOrder(c: RecorderConfig)
    ensures InCallOrder(OptionalCalls(c)) && RanksWithin(OptionalCalls(c), 8, 16)
  {
    OptionalSlotsRanked(c);
    SlotsInOrder(InputCall(c), MicrophoneVolumeCall(c), SystemVolumeCall(c), MicrophoneDeviceCall(c),
                 VideoEncoderCall(c), VideoEncoderNameCall(c), ReplayCalls(c));
  }

  /** The conversion makes its calls in the source's fixed order, so each
      kind of call is made at most once. Together with the membership laws
      below this fixes the whole call list of every configuration. */
  lemma ConversionCallsInSourceOrder(c: RecorderConfig)
    ensures InCallOrder(ToEngineConfig(c))
    ensures forall i, j ::
      (0 <= i < |ToEngineConfig(c)| && 0 <= j < |ToEngineConfig(c)| &&
       CallRank(ToEngineConfig(c)[i]) == CallRank(ToEngineConfig(c)[j])) ==> i == j
  {
    OptionalCallsInOrder(c);
    RequiredCallsRanked(c);
    assert InCallOrder(RequiredCalls(c));
    InCallOrderAppend(RequiredCalls(c), OptionalCalls(c), 0, 8, 16);
    KindsOfOrderedCallsDiffer(ToEngineConfig(c));
  }

  /** In an ordered run no two calls are of the same kind. */
  lemma KindsOfOrderedCallsDiffer(calls: seq<Engine.BuilderCall>)
    requires InCallOrder(calls)
    ensures forall i, j ::
      (0 <= i < |calls| && 0 <= j < |calls| && CallRank(calls[i]) == CallRank(calls[j])) ==> i == j
  {
  }

  /** A call of a required kind is made iff it is the required call of that kind. */
  lemma RequiredCallMember(c: RecorderConfig, x: Engine.BuilderCall)
    ensures x.Fps? ==> (x in ToEngineConfig(c) <==> x == Engine.Fps(c.fpsNumerator, c.fpsDenominator))
    ensures x.OutputDimensions? ==> (x in ToEngineConfig(c) <==> x == Engine.OutputDimensions(c.outputWidth, c.outputHeight))
    ensures x.CaptureAudio? ==> (x in ToEngineConfig(c) <==> x == Engine.CaptureAudio(c.captureAudio))
    ensures x.CaptureMicrophone? ==> (x in ToEngineConfig(c) <==> x == Engine.CaptureMicrophone(c.captureMicrophone))
    ensures x.WithAudioSource? ==> (x in ToEngineConfig(c) <==> x == Engine.WithAudioSource(ToEngineAudioSource(c.audioSource)))
    ensures x.CaptureCursor? ==> (x in ToEngineConfig(c) <==> x == Engine.CaptureCursor(c.captureCursor))
    ensures x.OutputPath? ==> (x in ToEngineConfig(c) <==> x == Engine.OutputPath(c.outputPath))
    ensures x.DebugMode? ==> (x in ToEngineConfig(c) <==> x == Engine.DebugMode(c.debugMode))
  {
    OptionalCallsInOrder(c);
    var required := RequiredCalls(c);
    forall k | 0 <= k < 8 ensures CallRank(required[k]) == k {
    }
  }

  /** In the required calls followed by the optional slots, a call of
      optional rank is looked up in the slot of its rank. */
  lemma RunsMember(required: seq<Engine.BuilderCall>, input: seq<Engine.BuilderCall>, micVolume: seq<Engine.BuilderCall>,
                   sysVolume: seq<Engine.BuilderCall>, device: seq<Engine.BuilderCall>, encoder: seq<Engine.BuilderCall>,
                   encoderName: seq<Engine.BuilderCall>, replay: seq<Engine.BuilderCall>, x: Engine.BuilderCall)
    requires RanksWithin(required, 0, 8)
    requires RanksWithin(input, 8, 9) && RanksWithin(micVolume, 9, 10) && RanksWithin(sysVolume, 10, 11)
    requires RanksWithin(device, 11, 12) && RanksWithin(encoder, 12, 13) && RanksWithin(encoderName, 13, 14)
    requires RanksWithin(replay, 14, 16)
    ensures var all := required + (input + micVolume + sysVolume + device + encoder + encoderName + replay);
      && (x.InputDimensions? ==> (x in all <==> x in input))
      && (x.MicrophoneVolume? ==> (x in all <==> x in micVolume))
      && (x.SystemVolume? ==> (x in all <==> x in sysVolume))
      && (x.MicrophoneDevice? ==> (x in all <==> x in device))
      && (x.VideoEncoder? ==> (x in all <==> x in encoder))
      && (x.VideoEncoderName? ==> (x in all <==> x in encoderName))
      && ((x.EnableReplayBuffer? || x.ReplayBufferSeconds?) ==> (x in all <==> x in replay))
  {
    var run := input;
    MemberByRank(run, micVolume, 8, 9, 10, x);
    InRangeAppend(run, micVolume, 8, 9, 10);
    run := run + micVolume;
    MemberByRank(run, sysVolume, 8, 10, 11, x);
    InRangeAppend(run, sysVolume, 8, 10, 11);
    run := run + sysVolume;
    MemberByRank(run, device, 8, 11, 12, x);
    InRangeAppend(run, device, 8, 11, 12);
    run := run + device;
    MemberByRank(run, encoder, 8, 12, 13, x);
    InRangeAppend(run, encoder, 8, 12, 13);
    run := run + encoder;
    MemberByRank(run, encoderName, 8, 13, 14, x);
    InRangeAppend(run, encoderName, 8, 13, 14);
    run := run + encoderName;
    MemberByRank(run, replay, 8, 14, 16, x);
    InRangeAppend(run, replay, 8, 14, 16);
    run := run + replay;
    MemberByRank(required, run, 0, 8, 16, x);
  }

  /** The required calls are ranked 0 to 7. */
  lemma RequiredCallsRanked(c: RecorderConfig)
    ensures RanksWithin(RequiredCalls(c), 0, 8)
    ensures forall k :: 0 <= k < 8 ==> CallRank(RequiredCalls(c)[k]) == k
  {
  }

  /** Every run of calls stays within the ranks of its kind. */
  lemma SlotsWithinRanks(c: RecorderConfig)
    ensures RanksWithin(RequiredCalls(c), 0, 8)
    ensures RanksWithin(InputCall(c), 8, 9) && RanksWithin(MicrophoneVolumeCall(c), 9, 10)
    ensures RanksWithin(SystemVolumeCall(c), 10, 11) && RanksWithin(MicrophoneDeviceCall(c), 11, 12)
    ensures RanksWithin(VideoEncoderCall(c), 12, 13) && RanksWithin(VideoEncoderNameCall(c), 13, 14)
    ensures RanksWithin(ReplayCalls(c), 14, 16)
  {
    OptionalSlotsRanked(c);
    RequiredCallsRanked(c);
    AtMostOneCall(InputCall(c), 8);
    AtMostOneCall(MicrophoneVolumeCall(c), 9);
    AtMostOneCall(SystemVolumeCall(c), 10);
    AtMostOneCall(MicrophoneDeviceCall(c), 11);
    AtMostOneCall(VideoEncoderCall(c), 12);
    AtMostOneCall(VideoEncoderNameCall(c), 13);
  }

  /** A call of an optional kind is made iff it is in the slot of its kind. */
  lemma OptionalCallMember(c: RecorderConfig, x: Engine.BuilderCall)
    ensures x.InputDimensions? ==> (x in ToEngineConfig(c) <==> x in InputCall(c))
    ensures x.MicrophoneVolume? ==> (x in ToEngineConfig(c) <==> x in MicrophoneVolumeCall(c))
    ensures x.SystemVolume? ==> (x in ToEngineConfig(c) <==> x in SystemVolumeCall(c))
    ensures x.MicrophoneDevice? ==> (x in ToEngineConfig(c) <==> x in MicrophoneDeviceCall(c))
    ensures x.VideoEncoder? ==> (x in ToEngineConfig(c) <==> x in VideoEncoderCall(c))
    ensures x.VideoEncoderName? ==> (x in ToEngineConfig(c) <==> x in VideoEncoderNameCall(c))
    ensures (x.EnableReplayBuffer? || x.ReplayBufferSeconds?) ==> (x in ToEngineConfig(c) <==> x in ReplayCalls(c))
  {
    SlotsWithinRanks(c);
    RunsMember(RequiredCalls(c), InputCall(c), MicrophoneVolumeCall(c), SystemVolumeCall(c), MicrophoneDeviceCall(c),
               VideoEncoderCall(c), VideoEncoderNameCall(c), ReplayCalls(c), x);
  }

  lemma InRangeAppend(s: seq<Engine.BuilderCall>, t: seq<Engine.BuilderCall>, lo: nat, mid: nat, hi: nat)
    requires lo <= mid <= hi && RanksWithin(s, lo, mid) && RanksWithin(t, mid, hi)
    ensures RanksWithin(s + t, lo, hi)
  {
    forall k | 0 <= k < |s + t| ensures lo <= CallRank((s + t)[k]) < hi {
      if k < |s| {
        assert (s + t)[k] == s[k];
      } else {
        assert (s + t)[k] == t[k - |s|];
      }
    }
  }

  // ---------------------------------------------------------------------------
  // What is forwarded
  // ---------------------------------------------------------------------------

  /** The frame rate is always forwarded, with the configured values and no others. */
  lemma ForwardsFrameRate(c: RecorderConfig)
    ensures forall n: U32, d: U32 :: Engine.Fps(n, d) in ToEngineConfig(c) <==>
      n == c.fpsNumerator && d == c.fpsDenominator
  {
    forall n: U32, d: U32 ensures Engine.Fps(n, d) in ToEngineConfig(c) <==> n == c.fpsNumerator && d == c.fpsDenominator {
      RequiredCallMember(c, Engine.Fps(n, d));
    }
  }

  lemma ForwardsOutputDimensions(c: RecorderConfig)
    ensures forall w: U32, h: U32 :: Engine.OutputDimensions(w, h) in ToEngineConfig(c) <==>
      w == c.outputWidth && h == c.outputHeight
  {
    forall w: U32, h: U32 ensures Engine.OutputDimensions(w, h) in ToEngineConfig(c) <==> w == c.outputWidth && h == c.outputHeight {
      RequiredCallMember(c, Engine.OutputDimensions(w, h));
    }
  }

  /** The audio flag is always forwarded, with the configured value and no other. */
  lemma ForwardsCaptureAudio(c: RecorderConfig)
    ensures forall b: bool :: Engine.CaptureAudio(b) in ToEngineConfig(c) <==> b == c.captureAudio
  {
    forall b: bool ensures Engine.CaptureAudio(b) in ToEngineConfig(c) <==> b == c.captureAudio {
      RequiredCallMember(c, Engine.CaptureAudio(b));
    }
  }

  lemma ForwardsCaptureMicrophone(c: RecorderConfig)
    ensures forall b: bool :: Engine.CaptureMicrophone(b) in ToEngineConfig(c) <==> b == c.captureMicrophone
  {
    forall b: bool ensures Engine.CaptureMicrophone(b) in ToEngineConfig(c) <==> b == c.captureMicrophone {
      RequiredCallMember(c, Engine.CaptureMicrophone(b));
    }
  }

  /** The audio source is always forwarded, converted to the same-named engine variant. */
  lemma ForwardsAudioSource(c: RecorderConfig)
    ensures forall a: Engine.AudioSource :: Engine.WithAudioSource(a) in ToEngineConfig(c) <==> a == ToEngineAudioSource(c.audioSource)
  {
    forall a: Engine.AudioSource ensures Engine.WithAudioSource(a) in ToEngineConfig(c) <==> a == ToEngineAudioSource(c.audioSource) {
      RequiredCallMember(c, Engine.WithAudioSource(a));
    }
  }

  lemma ForwardsCaptureCursor(c: RecorderConfig)
    ensures forall b: bool :: Engine.CaptureCursor(b) in ToEngineConfig(c) <==> b == c.captureCursor
  {
    forall b: bool ensures Engine.CaptureCursor(b) in ToEngineConfig(c) <==> b == c.captureCursor {
      RequiredCallMember(c, Engine.CaptureCursor(b));
    }
  }

  lemma ForwardsOutputPath(c: RecorderConfig)
    ensures forall p: string :: Engine.OutputPath(p) in ToEngineConfig(c) <==> p == c.outputPath
  {
    forall p: string ensures Engine.OutputPath(p) in ToEngineConfig(c) <==> p == c.outputPath {
      RequiredCallMember(c, Engine.OutputPath(p));
    }
  }

  lemma ForwardsDebugMode(c: RecorderConfig)
    ensures forall b: bool :: Engine.DebugMode(b) in ToEngineConfig(c) <==> b == c.debugMode
  {
    forall b: bool ensures Engine.DebugMode(b) in ToEngineConfig(c) <==> b == c.debugMode {
      RequiredCallMember(c, Engine.DebugMode(b));
    }
  }

  /** Input dimensions are forwarded exactly when both width and height are
      set, and then with those values; a lone width or height is dropped. */
  lemma ForwardsInputDimensionsOnlyWhenBothSet(c: RecorderConfig)
    ensures forall w: U32, h: U32 :: Engine.InputDimensions(w, h) in ToEngineConfig(c) <==>
      c.inputWidth == Some(w) && c.inputHeight == Some(h)
  {
    forall w: U32, h: U32 ensures Engine.InputDimensions(w, h) in ToEngineConfig(c) <==> c.inputWidth == Some(w) && c.inputHeight == Some(h) {
      OptionalCallMember(c, Engine.InputDimensions(w, h));
    }
  }

  /** Each volume is forwarded exactly when it is set, with the value set. */
  lemma ForwardsMicrophoneVolumeWhenSet(c: RecorderConfig)
    ensures forall v: real :: Engine.MicrophoneVolume(v) in ToEngineConfig(c) <==> c.microphoneVolume == Some(v)
  {
    forall v: real ensures Engine.MicrophoneVolume(v) in ToEngineConfig(c) <==> c.microphoneVolume == Some(v) {
      OptionalCallMember(c, Engine.MicrophoneVolume(v));
    }
  }

  lemma ForwardsSystemVolumeWhenSet(c: RecorderConfig)
    ensures forall v: real :: Engine.SystemVolume(v) in ToEngineConfig(c) <==> c.systemVolume == Some(v)
  {
    forall v: real ensures Engine.SystemVolume(v) in ToEngineConfig(c) <==> c.systemVolume == Some(v) {
      OptionalCallMember(c, Engine.SystemVolume(v));
    }
  }

  /** The microphone device is forwarded exactly when it is set, and never
      forwarded as absent. */
  lemma ForwardsMicrophoneDeviceWhenSet(c: RecorderConfig)
    ensures forall d: Option<string> :: Engine.MicrophoneDevice(d) in ToEngineConfig(c) <==> d.Some? && c.microphoneDevice == d
  {
    forall d: Option<string> ensures Engine.MicrophoneDevice(d) in ToEngineConfig(c) <==> d.Some? && c.microphoneDevice == d {
      OptionalCallMember(c, Engine.MicrophoneDevice(d));
    }
  }

  /** The encoder type is forwarded exactly when set, converted to the
      same-named engine variant. */
  lemma ForwardsEncoderTypeWhenSet(c: RecorderConfig)
    ensures forall e: Engine.VideoEncoderType :: Engine.VideoEncoder(e) in ToEngineConfig(c) <==>
      c.videoEncoderType.Some? && e == ToEngineEncoderType(c.videoEncoderType.value)
  {
    forall e: Engine.VideoEncoderType ensures Engine.VideoEncoder(e) in ToEngineConfig(c) <==> c.videoEncoderType.Some? && e == ToEngineEncoderType(c.videoEncoderType.value) {
      OptionalCallMember(c, Engine.VideoEncoder(e));
    }
  }

  /** The encoder name is forwarded exactly when set, with the name set. */
  lemma ForwardsEncoderNameWhenSet(c: RecorderConfig)
    ensures forall n: string :: Engine.VideoEncoderName(n) in ToEngineConfig(c) <==> c.videoEncoderName == Some(n)
  {
    forall n: string ensures Engine.VideoEncoderName(n) in ToEngineConfig(c) <==> c.videoEncoderName == Some(n) {
      OptionalCallMember(c, Engine.VideoEncoderName(n));
    }
  }

  /** The replay buffer is switched on only when the configuration enables
      it, and is never explicitly switched off. */
  lemma ForwardsReplayBufferOnlyWhenEnabled(c: RecorderConfig)
    ensures Engine.EnableReplayBuffer(true) in ToEngineConfig(c) <==> c.enableReplayBuffer
    ensures Engine.EnableReplayBuffer(false) !in ToEngineConfig(c)
  {
    OptionalCallMember(c, Engine.EnableReplayBuffer(true));
    OptionalCallMember(c, Engine.EnableReplayBuffer(false));
  }

  /** The replay length is forwarded only when the replay buffer is enabled
      and a length is set; a length set while it is disabled is ignored. */
  lemma ForwardsReplaySecondsOnlyWhenEnabled(c: RecorderConfig)
    ensures forall n: U32 :: Engine.ReplayBufferSeconds(n) in ToEngineConfig(c) <==>
      c.enableReplayBuffer && c.replayBufferSeconds == Some(n)
  {
    forall n: U32 ensures Engine.ReplayBufferSeconds(n) in ToEngineConfig(c) <==> c.enableReplayBuffer && c.replayBufferSeconds == Some(n) {
      OptionalCallMember(c, Engine.ReplayBufferSeconds(n));
    }
  }

  /** The default configuration forwards only the required settings, with
      the default values, and leaves the replay buffer off. */
  lemma DefaultForwardsOnlyRequiredSettings()
    ensures ToEngineConfig(DefaultConfig()) == [
      Engine.Fps(30, 1),
      Engine.OutputDimensions(1920, 1080),
      Engine.CaptureAudio(true),
      Engine.CaptureMicrophone(false),
      Engine.WithAudioSource(Engine.Desktop),
      Engine.CaptureCursor(true),
      Engine.OutputPath("recording.mp4"),
      Engine.DebugMode(false)]
  {
  }
}
