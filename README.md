# Window snapshot and recorder configuration, in Dafny

This project models the two core pieces of a native screen-recording add-on for
Windows:

- **The window/monitor snapshot engine** (`src/window_info.rs`). One call of
  `get_all_windows` does four things:
  - it reads the foreground window;
  - it enumerates the monitors into a directory of
    `(monitor handle, MonitorDimensions)` entries;
  - it walks every top-level window;
  - for each visible window with a non-zero process id, it builds a
    `WindowInfo`: the title, the class name, the pid, the executable's full
    path and file name, whether the window is focused, and the monitor the
    window is on.

  Every Win32 answer is an input record (`MonitorReply`, `WindowReply`,
  `ProcessReply`, `Desktop`), so the engine becomes a deterministic
  computation. The two enumeration callbacks are methods of accumulator
  classes (`MonitorCollector`, `EnumWindowsData`) that update a sequence field
  in place. The enumeration primitives `EnumDisplayMonitors` and `EnumWindows`
  drive those callbacks in loops, and `GetAllWindows` calls the two in turn. They are proved against the specification functions
  `Directory`, `Windows` and `Snapshot`, and the properties the engine
  promises are proved about those functions.
- **The recorder configuration** (`src/recorder.rs`):
  - `RecorderConfig` and its defaults;
  - the mutable `RecorderConfigBuilder` with its sixteen setters and `build`;
  - the conversions of the encoder-type and audio-source enums;
  - the translation of a `RecorderConfig` into the external engine's
    configuration.

  That translation is modelled as the sequence of builder calls it makes on
  the engine (`Engine.BuilderCall`). Setters are also described as data
  (`Setting`, `Writes`, `Apply`), which makes laws about them provable:
  - last write wins;
  - setters are idempotent;
  - setters that write different fields commute.

Files:
- `common.dfy`: `Option`, `Result`, `U32`/`I32`, wrapping `i32`, and
  order-preserving `Filter`/`Map` with their lemmas.
- `window_info.dfy`: module `WindowEnumeration`, the snapshot engine.
- `window_properties.dfy`: module `WindowProperties`, the properties of a
  snapshot.
- `recorder.dfy`: the modules `Engine` and `Recorder`.

## Model

| member | source | states |
|---|---|---|
| Common.WrapI32 | src/window_info.rs:88-96 | the result is the `i32` congruent to the input modulo 2^32 (wrapping subtraction, `as i32`), and equals the input when the input is in range |
| WindowEnumeration.Measure | src/window_info.rs:88-97 | width is `right - left`, height is `bottom - top`, and index is the given position, each exact whenever it fits in `i32` |
| WindowEnumeration.MonitorCollector.constructor | src/window_info.rs:45 | the monitor directory starts empty |
| WindowEnumeration.MonitorCollector.Visit | src/window_info.rs:73-102 | a monitor whose info query succeeds is appended with its measured size and the current directory length as index; a failed query leaves the directory unchanged |
| WindowEnumeration.EnumDisplayMonitors | src/window_info.rs:45-52 | running the callback over every monitor, in order, leaves exactly `Directory(replies)` in the collector |
| WindowEnumeration.DirectoryStep | src/window_info.rs:87-98 | one more monitor visit extends the directory by at most that monitor's entry, indexed by the directory length before it |
| WindowEnumeration.ReadText | src/window_info.rs:114-129 | the text is a prefix of the buffer, of the reported length when it is positive and empty otherwise |
| WindowEnumeration.ComponentStart | src/window_info.rs:189-190 | the index is just past the last separator: the unit before it is a separator and no separator follows it |
| WindowEnumeration.FileName | src/window_info.rs:189-193 | the file name contains no separator and is never `.` or `..` |
| WindowEnumeration.GetProcessExecutablePath | src/window_info.rs:171-202 | the full path is non-empty iff the process opened and the image query reported a positive size; in that case the path is the first `size` units of the buffer and the executable is its file name, otherwise both texts are empty; an opened handle is closed exactly once, and no handle event occurs when the open fails |
| WindowEnumeration.FindMonitor | src/window_info.rs:217-221 | no result iff no directory entry has the handle; a result is the dimensions of the first entry with the handle |
| WindowEnumeration.WindowMonitorInfo | src/window_info.rs:204-252 | three-level fallback: (1) the first directory entry of the nearest monitor, with the null-policy result as the spanning flag; (2) else that monitor's measured size with index 0; (3) else 1920x1080 at index 0, not spanning. The flag is set only when the null-policy query returned null |
| WindowEnumeration.GetWindowMonitorInfo | src/window_info.rs:204-252 | the linear search with early return and the two fallbacks compute exactly `WindowMonitorInfo` |
| WindowEnumeration.Describe | src/window_info.rs:113-164 | the descriptor of a kept window: its handle and pid; focused iff its handle is the foreground handle; no product name; title and class name are prefixes of their buffers of the reported length (empty when not positive); the full path is non-empty iff the process image was resolved, then it is the first `size` units of the image buffer and the executable is its file name and the full path is the only argument, otherwise both texts and the argument list are empty; the monitor placement is `WindowMonitorInfo`'s |
| WindowEnumeration.EnumWindowsData.constructor | src/window_info.rs:55-59 | the accumulator holds the foreground handle and the finished monitor directory, and no windows |
| WindowEnumeration.EnumWindowsData.Visit | src/window_info.rs:104-169 | an invisible window or one with pid 0 leaves the list unchanged; any other window's descriptor is appended exactly once |
| WindowEnumeration.EnumWindows | src/window_info.rs:61-64 | running the callback over every window, in order, leaves exactly `Windows(windows, foreground, directory)` in the accumulator |
| WindowEnumeration.WindowsStep | src/window_info.rs:166 | one more window visit extends the result by at most that window's descriptor |
| WindowEnumeration.GetAllWindows | src/window_info.rs:39-71 | the result is `Snapshot(d)`: the error "Failed to enumerate windows" when the walk fails, otherwise the descriptors of the emitted windows, built against the complete monitor directory |
| WindowProperties.DirectoryIndicesContiguous | src/window_info.rs:87-98 | the directory has one entry per monitor whose query succeeded; while there are fewer than 2^31 entries, the indices are exactly 0..n-1 in visit order |
| WindowProperties.DirectoryIndexCountsEarlierMonitors | src/window_info.rs:87-98 | a monitor whose query succeeded sits at the position equal to the number of successful monitors before it; it carries its own handle and size, with that position as index; failed monitors consume no index |
| WindowProperties.KeptWindowsExactlyOnce | src/window_info.rs:108-137 | a visible window with non-zero pid is kept exactly as many times as it was visited; any other window is never kept |
| WindowProperties.WindowsFollowVisitOrder | src/window_info.rs:166 | the result of a walk is the result of its first part followed by the result of the rest |
| WindowProperties.SnapshotDescribesEmittedWindows | src/window_info.rs:39-169 | error iff the walk failed. Every reported descriptor is that of a visited visible window with non-zero pid. It is focused iff its handle is the foreground handle, and has no product name. Its title fits 512 units and its class name 256. Its arguments are its full path, or nothing when the path is unknown |
| WindowProperties.FocusedCountMatchesForeground | src/window_info.rs:143 | the number of focused descriptors equals the number of emitted windows whose handle is the foreground handle |
| WindowProperties.ExactlyOneFocused | src/window_info.rs:42-143 | when exactly one emitted window has the foreground handle, exactly one descriptor is focused |
| WindowProperties.FileNameOfJoin | src/window_info.rs:189-193 | a plain name is its own file name, and a directory joined to a plain name with `\` or `/` has that name as its file name |
| Recorder.DefaultConfig | src/recorder.rs:99-123 | the default configuration leaves every optional setting unset and the replay buffer off; its required values (30/1 fps, 1920x1080, audio on, microphone off, desktop audio, cursor on, "recording.mp4", debug off) are pinned by `DefaultForwardsOnlyRequiredSettings` together with the `Forwards…` lemmas |
| Recorder.ToEngineEncoderType | src/recorder.rs:50-57 | H264 maps to the engine's H264 and HEVC to HEVC, each iff |
| Recorder.ToEngineAudioSource | src/recorder.rs:66-73 | Desktop maps to the engine's Desktop and ActiveWindow to ActiveWindow, each iff |
| Recorder.ApplyWritesOnlyItsFields | src/recorder.rs:267-364 | after a setter call, each field it writes holds the written value and every other field is unchanged |
| Recorder.ConfigsEqualByFields | src/recorder.rs:77-97 | configurations that agree on all nineteen fields are equal |
| Recorder.LastWriteWins | src/recorder.rs:267-364 | a setter that writes every field an earlier setter wrote erases that earlier call |
| Recorder.SettersAreIdempotent | src/recorder.rs:267-364 | calling a setter twice with the same arguments equals calling it once |
| Recorder.DisjointSettersCommute | src/recorder.rs:267-364 | setters that write disjoint fields can be called in either order |
| Recorder.ClearingMicrophoneDevice | src/recorder.rs:319-322 | `microphone_device(None)` after a device was set leaves the configuration with no device and otherwise as before |
| Recorder.RecorderConfigBuilder.constructor | src/recorder.rs:260-265 | a new builder holds the default configuration (30/1 fps, 1920x1080, audio on, microphone off, desktop audio, cursor on, "recording.mp4", debug off, replay buffer off, every optional unset) |
| Recorder.RecorderConfigBuilder.Fps | src/recorder.rs:267-272 | sets the fps numerator and denominator; every other field is unchanged |
| Recorder.RecorderConfigBuilder.InputDimensions | src/recorder.rs:274-279 | sets both input dimensions; every other field is unchanged |
| Recorder.RecorderConfigBuilder.OutputDimensions | src/recorder.rs:281-286 | sets both output dimensions; every other field is unchanged |
| Recorder.RecorderConfigBuilder.CaptureAudio | src/recorder.rs:288-292 | sets the audio flag only |
| Recorder.RecorderConfigBuilder.CaptureMicrophone | src/recorder.rs:294-298 | sets the microphone flag only |
| Recorder.RecorderConfigBuilder.AudioSource | src/recorder.rs:300-304 | sets the audio source only |
| Recorder.RecorderConfigBuilder.MicrophoneVolume | src/recorder.rs:306-310 | sets the microphone volume only |
| Recorder.RecorderConfigBuilder.SystemVolume | src/recorder.rs:312-316 | sets the system volume only |
| Recorder.RecorderConfigBuilder.MicrophoneDevice | src/recorder.rs:318-322 | replaces the microphone device with the argument, which may clear it; nothing else changes |
| Recorder.RecorderConfigBuilder.VideoEncoder | src/recorder.rs:324-328 | sets the encoder type only |
| Recorder.RecorderConfigBuilder.VideoEncoderName | src/recorder.rs:330-334 | sets the encoder name only |
| Recorder.RecorderConfigBuilder.CaptureCursor | src/recorder.rs:336-340 | sets the cursor flag only |
| Recorder.RecorderConfigBuilder.OutputPath | src/recorder.rs:342-346 | sets the output path only |
| Recorder.RecorderConfigBuilder.DebugMode | src/recorder.rs:348-352 | sets the debug flag only |
| Recorder.RecorderConfigBuilder.EnableReplayBuffer | src/recorder.rs:354-358 | sets the replay-buffer flag only |
| Recorder.RecorderConfigBuilder.ReplayBufferSeconds | src/recorder.rs:360-364 | sets the replay length only |
| Recorder.RecorderConfigBuilder.Build | src/recorder.rs:366-369 | returns the builder's current configuration and changes nothing |
| Recorder.ToEngineConfig | src/recorder.rs:125-172 | the conversion's engine builder calls: at least the eight required calls and at most sixteen; their order and uniqueness are stated by `ConversionCallsInSourceOrder`, which call of each kind is made by the `Forwards…` lemmas below |
| Recorder.ConversionCallsInSourceOrder | src/recorder.rs:126-171 | the calls are made in the source's fixed order (the eight required calls, then input dimensions, volumes, device, encoder type, encoder name, replay flag, replay length), so no kind of call is made twice |
| Recorder.RequiredCallMember | src/recorder.rs:128-135 | a call of a required kind is made iff it equals the required call of that kind, built from the configured values |
| Recorder.OptionalCallMember | src/recorder.rs:137-168 | a call of an optional kind is made iff the conditional step for that kind produces it |
| Recorder.ForwardsFrameRate | src/recorder.rs:128 | an fps call is made iff its numerator and denominator are the configured ones |
| Recorder.ForwardsOutputDimensions | src/recorder.rs:129 | an output-dimensions call is made iff its width and height are the configured ones |
| Recorder.ForwardsCaptureAudio | src/recorder.rs:130 | an audio-capture call is made iff its flag is the configured one |
| Recorder.ForwardsCaptureMicrophone | src/recorder.rs:131 | a microphone-capture call is made iff its flag is the configured one |
| Recorder.ForwardsAudioSource | src/recorder.rs:132 | an audio-source call is made iff its source is the same-named engine variant of the configured one |
| Recorder.ForwardsCaptureCursor | src/recorder.rs:133 | a cursor-capture call is made iff its flag is the configured one |
| Recorder.ForwardsOutputPath | src/recorder.rs:134 | an output-path call is made iff its path is the configured one |
| Recorder.ForwardsDebugMode | src/recorder.rs:135 | a debug-mode call is made iff its flag is the configured one |
| Recorder.ForwardsInputDimensionsOnlyWhenBothSet | src/recorder.rs:137-141 | input dimensions are forwarded iff both width and height are set, and then with exactly those values |
| Recorder.ForwardsMicrophoneVolumeWhenSet | src/recorder.rs:143-145 | a microphone volume is forwarded iff it is set, with the value set |
| Recorder.ForwardsSystemVolumeWhenSet | src/recorder.rs:147-149 | a system volume is forwarded iff it is set, with the value set |
| Recorder.ForwardsMicrophoneDeviceWhenSet | src/recorder.rs:151-153 | a device is forwarded iff one is set, and an absent device is never forwarded |
| Recorder.ForwardsEncoderTypeWhenSet | src/recorder.rs:155-157 | an encoder-type call is made iff an encoder type is set, and then with the same-named engine variant |
| Recorder.ForwardsEncoderNameWhenSet | src/recorder.rs:159-161 | an encoder-name call is made iff an encoder name is set, and then with that name |
| Recorder.ForwardsReplayBufferOnlyWhenEnabled | src/recorder.rs:163-165 | the replay buffer is switched on iff the configuration enables it, and is never explicitly switched off |
| Recorder.ForwardsReplaySecondsOnlyWhenEnabled | src/recorder.rs:163-168 | a replay length is forwarded iff the replay buffer is enabled and a length is set; a length without the flag is ignored |
| Recorder.DefaultForwardsOnlyRequiredSettings | src/recorder.rs:99-172 | the default configuration produces exactly the eight required calls with the default values, in source order |

## Left out

- Win32 calls are not executed. Every answer the engine receives is an input
  record: visibility, text queries, pid, process open, image-path query,
  monitor queries, foreground window and the enumeration primitives'
  success. The models trust the documented buffer contract that a reported
  length never exceeds the buffer; the Rust slice would panic otherwise.
- Geometric intersection of windows and monitors is not modelled. "Spans
  several monitors" is exactly "the null-policy monitor query returned null",
  as the code computes it.
- UTF-16 decoding (`from_utf16_lossy`) is not modelled: texts are sequences
  of code units.
- FileName does not parse Windows path prefixes (drive letters such as `C:`,
  UNC and verbatim prefixes). It handles `\` and `/` separators, trailing
  separators, and `.` and `..` components. The path `C:` alone would have no
  file name in Rust, but the model gives `C:`.
- Handles are unbounded integers compared by value. The `hwnd as i64` cast is
  the identity.
- Arithmetic on monitor rectangles wraps as `i32`, as in a release build. A
  debug build would panic on overflow instead; that is not modelled.
- Recorder.ToEngineConfig: volumes are unbounded reals and the `f64 as f32`
  narrowing is not modelled, so a volume call carries the configured value.
  The engine builder's own `build()` is not modelled: the result is the list
  of builder calls. Which calls are made, their order and that no kind is
  made twice are proved (`ConversionCallsInSourceOrder` and the `Forwards…`
  lemmas).
- The setters' `&Self` return value, used only for chaining, is not
  modelled. Serialization, the host-binding attributes and the `Clone` in
  `build` are not modelled either.
- The pass-throughs to the external recording engine are not modelled:
  - `Recorder::new`, `with_process_name`, `start_recording`,
    `stop_recording` and `save_replay`, whose errors carry the prefixes
    "Failed to create recorder: ", "Failed to start recording: ",
    "Failed to stop recording: " and "Failed to save replay: ";
  - the audio-device and video-encoder enumerations ("Failed to enumerate
    audio devices: ", "Failed to enumerate video encoders: ") and
    `get_preferred_video_encoder_by_type`.

  The engine's behaviour is not visible, so the model has nothing to prove
  about them.
- `lib.rs` and the TypeScript examples are not part of this model.
