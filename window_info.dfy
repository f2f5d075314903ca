/** The window/monitor snapshot engine of `src/window_info.rs`.

    Every operating-system call the engine makes is replaced by the answer it
    gave, recorded in plain records: one `MonitorReply` per monitor visited by
    the monitor enumeration, one `WindowReply` per top-level window visited by
    the window walk, and a `Desktop` holding the foreground window, both visit
    orders and whether the window walk primitive failed.  With those answers
    fixed, `GetAllWindows` is a deterministic computation; `Snapshot` states
    what it returns. */
module WindowEnumeration {
  import opened Common

  /** One UTF-16 code unit. */
  newtype CodeUnit = x: int | 0 <= x < 0x1_0000

  /** Text as the code units the system returned; lossy UTF-16 decoding is not modelled. */
  type Text = seq<CodeUnit>

  /** Window and monitor handles are compared by value only; 0 is the null handle. */
  type Handle = int

  const NullHandle: Handle := 0

  /** Buffer capacities, in code units, of the three text queries. */
  const TitleCapacity: nat := 512
  const ClassNameCapacity: nat := 256
  const ImagePathCapacity: nat := 1024

  /** Dimensions reported when no monitor information can be obtained at all. */
  const FallbackMonitor := MonitorDimensions(1920, 1080, 0)

  const EnumerationError := "Failed to enumerate windows"

  // ---------------------------------------------------------------------------
  // Records of the source
  // ---------------------------------------------------------------------------

  datatype MonitorDimensions = MonitorDimensions(width: I32, height: I32, index: I32)

  /** One entry of the monitor directory: a monitor handle and its dimensions. */
  datatype MonitorEntry = MonitorEntry(handle: Handle, dims: MonitorDimensions)

  datatype WindowInfo = WindowInfo(
    className: Text,
    executable: Text,
    title: Text,
    pid: U32,
    productName: Option<Text>,
    hwnd: Handle,
    fullExe: Text,
    monitorDimensions: MonitorDimensions,
    intersectsMultiple: bool,
    focused: bool,
    arguments: seq<Text>)

  // ---------------------------------------------------------------------------
  // Answers of the operating system
  // ---------------------------------------------------------------------------

  /** A monitor rectangle in virtual-screen coordinates. */
  datatype Rect = Rect(left: I32, top: I32, right: I32, bottom: I32)

  /** One visit of the monitor enumeration: the monitor's handle, and the
      rectangle its info query returned, or None when that query failed. */
  datatype MonitorReply = MonitorReply(handle: Handle, info: Option<Rect>)

  /** A fixed-size text buffer after the system filled it, and the length the
      system reported. */
  datatype TextReply = TextReply(buffer: Text, count: int)

  /** The title query never reports more units than its 512-unit buffer holds. */
  type TitleReply = r: TextReply | |r.buffer| == TitleCapacity && r.count <= TitleCapacity
    witness TextReply(seq(TitleCapacity, _ => 0), 0)

  /** The class-name query never reports more units than its 256-unit buffer holds. */
  type ClassNameReply = r: TextReply | |r.buffer| == ClassNameCapacity && r.count <= ClassNameCapacity
    witness TextReply(seq(ClassNameCapacity, _ => 0), 0)

  /** The image-path query reports an unsigned size within its 1024-unit buffer. */
  type ImageReply = r: TextReply | |r.buffer| == ImagePathCapacity && 0 <= r.count <= ImagePathCapacity
    witness TextReply(seq(ImagePathCapacity, _ => 0), 0)

  /** The process queries for one pid: the handle the open call returned (None
      when it failed) and the image-path query's answer (None when it failed). */
  datatype ProcessReply = ProcessReply(handle: Option<Handle>, image: Option<ImageReply>)

  /** Everything the system answers about one visited window.
      `monitorOrNull` is the nearest-monitor query with the null-if-ambiguous
      policy; `nearestMonitor` the one with the never-null policy;
      `nearestInfo` the info query on that nearest monitor. */
  datatype WindowReply = WindowReply(
    hwnd: Handle,
    visible: bool,
    title: TitleReply,
    className: ClassNameReply,
    pid: U32,
    process: ProcessReply,
    monitorOrNull: Handle,
    nearestMonitor: Handle,
    nearestInfo: Option<Rect>)

  /** The state of the desktop as one call of the engine observes it. */
  datatype Desktop = Desktop(
    foreground: Handle,
    monitors: seq<MonitorReply>,
    windows: seq<WindowReply>,
    walkFailed: bool)

  // ---------------------------------------------------------------------------
  // Monitor directory
  // ---------------------------------------------------------------------------

  /** `right - left` and `bottom - top` as wrapping `i32` arithmetic. */
  function Measure(r: Rect, index: int): (d: MonitorDimensions)
    ensures -0x8000_0000 <= r.right - r.left < 0x8000_0000 ==> d.width == r.right - r.left
    ensures -0x8000_0000 <= r.bottom - r.top < 0x8000_0000 ==> d.height == r.bottom - r.top
    ensures 0 <= index < 0x8000_0000 ==> d.index == index
  {
    MonitorDimensions(WrapI32(r.right - r.left), WrapI32(r.bottom - r.top), WrapI32(index))
  }

  predicate Answered(m: MonitorReply) {
    m.info.Some?
  }

  /** The directory the monitor pass should build: the monitors whose info
      query succeeded, in visit order, each indexed by its position among them. */
  function Directory(replies: seq<MonitorReply>): seq<MonitorEntry>
  {
    var accepted := Filter(replies, Answered);
    seq(|accepted|, k requires 0 <= k < |accepted| =>
      MonitorEntry(accepted[k].handle, Measure(accepted[k].info.value, k)))
  }

  /** The monitor-directory accumulator that the monitor enumeration callback fills. */
  class MonitorCollector {
    var monitors: seq<MonitorEntry>

    constructor ()
      ensures monitors == []
    {
      monitors := [];
    }

    /** `enum_monitors_proc`: a monitor whose info query succeeded is pushed with
        the current directory length as its index; a failed query adds nothing.
        The callback always asks the enumeration to continue. */
    method Visit(reply: MonitorReply)
      modifies this
      ensures monitors == old(monitors) +
        if Answered(reply) then [MonitorEntry(reply.handle, Measure(reply.info.value, |old(monitors)|))] else []
    {
      if reply.info.Some? {
        var rect := reply.info.value;
        var width := WrapI32(rect.right - rect.left);
        var height := WrapI32(rect.bottom - rect.top);
        monitors := monitors + [MonitorEntry(reply.handle, MonitorDimensions(width, height, WrapI32(|monitors|)))];
      }
    }
  }

  // ---------------------------------------------------------------------------
  // Per-window helpers
  // ---------------------------------------------------------------------------

  /** The text a bounded query produced: the first `count` units of the
      buffer, or nothing when the reported length is not positive. */
  function ReadText(buffer: Text, count: int): (s: Text)
    requires count <= |buffer|
    ensures s <= buffer
    ensures |s| == if count > 0 then count else 0
  {
    if count > 0 then buffer[..count] else []
  }

  predicate IsSeparator(c: CodeUnit) {
    c == 0x5C || c == 0x2F
  }

  const Dot: CodeUnit := 0x2E

  /** The index just past the last separator of `path`, 0 when it has none. */
  function ComponentStart(path: Text): (i: nat)
    ensures i <= |path|
    ensures i > 0 ==> IsSeparator(path[i - 1])
    ensures forall j :: i <= j < |path| ==> !IsSeparator(path[j])
    decreases |path|
  {
    if path == [] then 0
    else if IsSeparator(path[|path| - 1]) then |path|
    else ComponentStart(path[..|path| - 1])
  }

  /** The final component of a path, as `Path::file_name` gives it: trailing
      separators and `.` components are skipped, and a path ending in `..` or
      consisting of separators only has no file name (the empty text). */
  function FileName(path: Text): (name: Text)
    ensures forall j :: 0 <= j < |name| ==> !IsSeparator(name[j])
    ensures name != [Dot] && name != [Dot, Dot]
    decreases |path|
  {
    if path == [] then []
    else if IsSeparator(path[|path| - 1]) then FileName(path[..|path| - 1])
    else
      var start := ComponentStart(path);
      var last := path[start..];
      if last == [Dot] then
        if start == 0 then [] else FileName(path[..start])
      else if last == [Dot, Dot] then []
      else last
  }

  /** Whether the executable path of a process was resolved. */
  predicate ImageResolved(p: ProcessReply) {
    p.handle.Some? && p.image.Some? && p.image.value.count > 0
  }

  /** What happens to an acquired process handle. */
  datatype HandleEvent = Opened(process: Handle) | Closed(process: Handle)

  /** The base name and full path of an executable, and the handle events
      that resolving them performed. */
  datatype ExecutablePath = ExecutablePath(executable: Text, fullExe: Text, events: seq<HandleEvent>)

  /** `get_process_executable_path`: the full image path and its file name
      when the process could be opened and its image path queried with a
      non-zero size, and two empty texts otherwise. A handle that was opened
      is closed exactly once, on every path. */
  function GetProcessExecutablePath(p: ProcessReply): (r: ExecutablePath)
    ensures r.fullExe != [] <==> ImageResolved(p)
    ensures ImageResolved(p) ==>
      r.fullExe <= p.image.value.buffer && |r.fullExe| == p.image.value.count && r.executable == FileName(r.fullExe)
    ensures !ImageResolved(p) ==> r.executable == [] && r.fullExe == []
    ensures p.handle.None? ==> r.events == []
    ensures p.handle.Some? ==> r.events == [Opened(p.handle.value), Closed(p.handle.value)]
  {
    match p.handle
    case None => ExecutablePath([], [], [])
    case Some(handle) =>
      if p.image.Some? && p.image.value.count > 0 then
        var fullPath := ReadText(p.image.value.buffer, p.image.value.count);
        ExecutablePath(FileName(fullPath), fullPath, [Opened(handle), Closed(handle)])
      else
        ExecutablePath([], [], [Opened(handle), Closed(handle)])
  }

  /** The dimensions of the first directory entry whose handle is `h`. */
  function FindMonitor(monitors: seq<MonitorEntry>, h: Handle): (r: Option<MonitorDimensions>)
    ensures r.None? <==> forall k :: 0 <= k < |monitors| ==> monitors[k].handle != h
    ensures r.Some? ==> exists k :: (0 <= k < |monitors| && monitors[k].handle == h && monitors[k].dims == r.value &&
      forall j :: 0 <= j < k ==> monitors[j].handle != h)
    decreases |monitors|
  {
    if monitors == [] then None
    else if monitors[0].handle == h then Some(monitors[0].dims)
    else
      var r := FindMonitor(monitors[1..], h);
      assert r.Some? ==> exists k :: (0 <= k < |monitors| && monitors[k].handle == h && monitors[k].dims == r.value &&
        forall j :: 0 <= j < k ==> monitors[j].handle != h) by {
        if r.Some? {
          var k :| 0 <= k < |monitors| - 1 && monitors[1..][k].handle == h && monitors[1..][k].dims == r.value &&
            forall j :: 0 <= j < k ==> monitors[1..][j].handle != h;
          assert forall j :: 1 <= j < k + 1 ==> monitors[j].handle != h by {
            forall j | 1 <= j < k + 1 ensures monitors[j].handle != h {
              assert monitors[j] == monitors[1..][j - 1];
            }
          }
        }
      }
      r
  }

  predicate InDirectory(monitors: seq<MonitorEntry>, h: Handle) {
    exists k :: 0 <= k < |monitors| && monitors[k].handle == h
  }

  /** `get_window_monitor_info`: the window's nearest monitor and whether the
      window spans several monitors, through a three-level fallback. */
  function WindowMonitorInfo(w: WindowReply, monitors: seq<MonitorEntry>): (r: (MonitorDimensions, bool))
    // found in the directory: the first matching entry, and the null-policy signal
    ensures InDirectory(monitors, w.nearestMonitor) ==>
      r.1 == (w.monitorOrNull == NullHandle) &&
      exists k :: 0 <= k < |monitors| && monitors[k].handle == w.nearestMonitor && r.0 == monitors[k].dims &&
        forall j :: 0 <= j < k ==> monitors[j].handle != w.nearestMonitor
    // not found, direct query succeeds: measured dimensions with index 0
    ensures !InDirectory(monitors, w.nearestMonitor) && w.nearestInfo.Some? ==>
      r == (Measure(w.nearestInfo.value, 0), w.monitorOrNull == NullHandle)
    // not found, direct query fails: the fixed default, never spanning
    ensures !InDirectory(monitors, w.nearestMonitor) && w.nearestInfo.None? ==> r == (FallbackMonitor, false)
    ensures r.1 ==> w.monitorOrNull == NullHandle
  {
    var intersects := w.monitorOrNull == NullHandle;
    match FindMonitor(monitors, w.nearestMonitor)
    case Some(dims) => (dims, intersects)
    case None =>
      match w.nearestInfo
      case Some(rect) => (Measure(rect, 0), intersects)
      case None => (FallbackMonitor, false)
  }

  /** The method form of `get_window_monitor_info`: a linear search with an
      early return, then the two fallbacks. */
  method GetWindowMonitorInfo(w: WindowReply, monitors: seq<MonitorEntry>)
    returns (dims: MonitorDimensions, intersects: bool)
    ensures (dims, intersects) == WindowMonitorInfo(w, monitors)
  {
    intersects := w.monitorOrNull == NullHandle;
    var monitor := w.nearestMonitor;
    var i := 0;
    while i < |monitors|
      invariant 0 <= i <= |monitors|
      invariant forall j :: 0 <= j < i ==> monitors[j].handle != monitor
    {
      if monitors[i].handle == monitor {
        return monitors[i].dims, intersects;
      }
      i := i + 1;
    }
    if w.nearestInfo.Some? {
      var rect := w.nearestInfo.value;
      dims := MonitorDimensions(WrapI32(rect.right - rect.left), WrapI32(rect.bottom - rect.top), 0);
      return;
    }
    dims, intersects := FallbackMonitor, false;
  }

  // ---------------------------------------------------------------------------
  // Window walk
  // ---------------------------------------------------------------------------

  /** A window survives the walk when it is visible and has a non-zero pid. */
  predicate Emitted(w: WindowReply) {
    w.visible && w.pid != 0
  }

  /** The descriptor the walk builds for an emitted window: its handle and
      pid, the texts its bounded queries returned, the executable path when
      it could be resolved (then also the only argument), its monitor
      placement, and whether it is the foreground window. */
  function Describe(w: WindowReply, foreground: Handle, monitors: seq<MonitorEntry>): (info: WindowInfo)
    ensures info.hwnd == w.hwnd && info.pid == w.pid
    ensures info.focused <==> w.hwnd == foreground
    ensures info.productName == None
    ensures info.title <= w.title.buffer && |info.title| == if w.title.count > 0 then w.title.count else 0
    ensures info.className <= w.className.buffer && |info.className| == if w.className.count > 0 then w.className.count else 0
    ensures info.fullExe != [] <==> ImageResolved(w.process)
    ensures ImageResolved(w.process) ==>
      info.fullExe <= w.process.image.value.buffer && |info.fullExe| == w.process.image.value.count &&
      info.executable == FileName(info.fullExe)
    ensures !ImageResolved(w.process) ==> info.executable == [] && info.fullExe == []
    ensures info.arguments == if ImageResolved(w.process) then [info.fullExe] else []
    ensures (info.monitorDimensions, info.intersectsMultiple) == WindowMonitorInfo(w, monitors)
  {
    var path := GetProcessExecutablePath(w.process);
    var placement := WindowMonitorInfo(w, monitors);
    WindowInfo(
      className := ReadText(w.className.buffer, w.className.count),
      executable := path.executable,
      title := ReadText(w.title.buffer, w.title.count),
      pid := w.pid,
      productName := None,
      hwnd := w.hwnd,
      fullExe := path.fullExe,
      monitorDimensions := placement.0,
      intersectsMultiple := placement.1,
      focused := w.hwnd == foreground,
      arguments := if path.fullExe != [] then [path.fullExe] else [])
  }

  /** The descriptors of the emitted windows, in visit order. */
  function Windows(windows: seq<WindowReply>, foreground: Handle, monitors: seq<MonitorEntry>): seq<WindowInfo>
  {
    Map(Filter(windows, Emitted), w => Describe(w, foreground, monitors))
  }

  /** What one call of `get_all_windows` returns. */
  function Snapshot(d: Desktop): Result<seq<WindowInfo>, string>
  {
    if d.walkFailed then Err(EnumerationError)
    else Ok(Windows(d.windows, d.foreground, Directory(d.monitors)))
  }

  /** `EnumWindowsData`: the accumulator the window walk callback fills. */
  class EnumWindowsData {
    var windows: seq<WindowInfo>
    const focusedHwnd: Handle
    const monitors: seq<MonitorEntry>

    constructor (focusedHwnd: Handle, monitors: seq<MonitorEntry>)
      ensures this.focusedHwnd == focusedHwnd && this.monitors == monitors && windows == []
    {
      this.focusedHwnd := focusedHwnd;
      this.monitors := monitors;
      windows := [];
    }

    /** `enum_windows_proc`: an invisible window or one whose pid is 0 is
        skipped; any other window is described and appended exactly once.
        The callback always asks the walk to continue. */
    method Visit(w: WindowReply)
      modifies this
      ensures windows == old(windows) + if Emitted(w) then [Describe(w, focusedHwnd, monitors)] else []
    {
      if !w.visible {
        return;
      }
      var title := ReadText(w.title.buffer, w.title.count);
      var className := ReadText(w.className.buffer, w.className.count);
      var pid := w.pid;
      if pid == 0 {
        return;
      }
      var path := GetProcessExecutablePath(w.process);
      var focused := w.hwnd == focusedHwnd;
      var dims, intersects := GetWindowMonitorInfo(w, monitors);
      var arguments := if path.fullExe != [] then [path.fullExe] else [];
      var info := WindowInfo(className, path.executable, title, pid, None, w.hwnd, path.fullExe,
                             dims, intersects, focused, arguments);
      windows := windows + [info];
    }
  }

  /** The monitor enumeration primitive: it visits every monitor in order and
      runs `enum_monitors_proc` on each, which never stops it early. */
  method EnumDisplayMonitors(replies: seq<MonitorReply>, collector: MonitorCollector)
    requires collector.monitors == []
    modifies collector
    ensures collector.monitors == Directory(replies)
  {
    var i := 0;
    while i < |replies|
      invariant 0 <= i <= |replies|
      invariant collector.monitors == Directory(replies[..i])
    {
      DirectoryStep(replies[..i], replies[i]);
      assert replies[..i + 1] == replies[..i] + [replies[i]];
      collector.Visit(replies[i]);
      i := i + 1;
    }
    assert replies[..i] == replies;
  }

  /** The window walk primitive: it visits every top-level window in order
      and runs `enum_windows_proc` on each, which never stops it early. */
  method EnumWindows(windows: seq<WindowReply>, data: EnumWindowsData)
    requires data.windows == []
    modifies data
    ensures data.windows == Windows(windows, data.focusedHwnd, data.monitors)
  {
    var j := 0;
    while j < |windows|
      invariant 0 <= j <= |windows|
      invariant data.windows == Windows(windows[..j], data.focusedHwnd, data.monitors)
    {
      WindowsStep(windows[..j], windows[j], data.focusedHwnd, data.monitors);
      assert windows[..j + 1] == windows[..j] + [windows[j]];
      data.Visit(windows[j]);
      j := j + 1;
    }
    assert windows[..j] == windows;
  }

  /** `get_all_windows`: capture the foreground window, run the monitor pass,
      then the window walk over the finished directory; a failed walk yields
      the error and no partial list. */
  method GetAllWindows(d: Desktop) returns (r: Result<seq<WindowInfo>, string>)
    ensures r == Snapshot(d)
  {
    var focusedHwnd := d.foreground;
    var collector := new MonitorCollector();
    EnumDisplayMonitors(d.monitors, collector);
    var data := new EnumWindowsData(focusedHwnd, collector.monitors);
    EnumWindows(d.windows, data);
    if d.walkFailed {
      return Err(EnumerationError);
    }
    return Ok(data.windows);
  }

  /** One more monitor visit extends the directory by at most the entry for
      that monitor, indexed by the directory's current length. */
  lemma DirectoryStep(replies: seq<MonitorReply>, m: MonitorReply)
    ensures Directory(replies + [m]) == Directory(replies) +
      if Answered(m) then [MonitorEntry(m.handle, Measure(m.info.value, |Directory(replies)|))] else []
  {
    assert (replies + [m])[..|replies|] == replies;
  }

  /** One more window visit extends the result by at most that window's descriptor. */
  lemma WindowsStep(windows: seq<WindowReply>, w: WindowReply, foreground: Handle, monitors: seq<MonitorEntry>)
    ensures Windows(windows + [w], foreground, monitors) == Windows(windows, foreground, monitors) +
      if Emitted(w) then [Describe(w, foreground, monitors)] else []
  {
    var f := w => Describe(w, foreground, monitors);
    assert (windows + [w])[..|windows|] == windows;
    if Emitted(w) {
      MapAppend(Filter(windows, Emitted), [w], f);
    }
  }
}
