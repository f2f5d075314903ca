/** Properties of the window/monitor snapshot engine. */
module WindowProperties {
  import opened Common
  import opened WindowEnumeration

  // ---------------------------------------------------------------------------
  // Monitor directory
  // ---------------------------------------------------------------------------

  /** The directory has one entry per monitor whose info query succeeded, and
      (below 2^31 entries, where `as i32` does not wrap) the indices are
      exactly 0, 1, ..., n - 1 in visit order. */
  lemma DirectoryIndicesContiguous(replies: seq<MonitorReply>)
    ensures |Directory(replies)| == |Filter(replies, Answered)|
    ensures |Directory(replies)| < 0x8000_0000 ==>
      forall k :: 0 <= k < |Directory(replies)| ==> Directory(replies)[k].dims.index == k
  {
  }

  /** A monitor whose info query succeeded gets, as its index, the number of
      monitors accepted before it; its width and height are taken from its own
      rectangle. Monitors whose query failed consume no index. */
  lemma {:induction false} DirectoryIndexCountsEarlierMonitors(replies: seq<MonitorReply>, j: nat)
    requires j < |replies| && Answered(replies[j])
    ensures var n := |Filter(replies[..j], Answered)|;
      n < |Directory(replies)| &&
      Directory(replies)[n] == MonitorEntry(replies[j].handle, Measure(replies[j].info.value, n))
  {
    var before, here, after := replies[..j], [replies[j]], replies[j + 1..];
    assert replies == before + here + after;
    FilterAppend(before + here, after, Answered);
    FilterAppend(before, here, Answered);
    assert Filter(here, Answered) == Filter([], Answered) + [replies[j]];
    var accepted := Filter(replies, Answered);
    assert accepted[|Filter(before, Answered)|] == replies[j];
  }

  // ---------------------------------------------------------------------------
  // Window walk
  // ---------------------------------------------------------------------------

  /** Every visible window with a non-zero pid is kept exactly as often as it
      was visited; every invisible window and every window with pid 0 is
      dropped. */
  lemma KeptWindowsExactlyOnce(windows: seq<WindowReply>, w: WindowReply)
    ensures multiset(Filter(windows, Emitted))[w] == if w.visible && w.pid != 0 then multiset(windows)[w] else 0
  {
    FilterMultiplicity(windows, Emitted, w);
  }

  /** The result follows visit order: the windows of a longer walk are those
      of its first part followed by those of the rest. */
  lemma WindowsFollowVisitOrder(first: seq<WindowReply>, rest: seq<WindowReply>, foreground: Handle, monitors: seq<MonitorEntry>)
    ensures Windows(first + rest, foreground, monitors) ==
      Windows(first, foreground, monitors) + Windows(rest, foreground, monitors)
  {
    FilterAppend(first, rest, Emitted);
    MapAppend(Filter(first, Emitted), Filter(rest, Emitted), w => Describe(w, foreground, monitors));
  }

  /** A failed walk returns the error and no list; otherwise every descriptor
      is that of a visited window that is visible with a non-zero pid, is
      focused exactly when its handle is the foreground handle, has no product
      name, has a bounded title and class name, has the full executable path as
      its only argument when that path is known, and carries the monitor
      placement `WindowMonitorInfo` gives for it (through `Describe`). */
  lemma SnapshotDescribesEmittedWindows(d: Desktop)
    ensures d.walkFailed ==> Snapshot(d) == Err(EnumerationError)
    ensures !d.walkFailed ==> Snapshot(d).Ok?
    ensures Snapshot(d).Ok? ==> (
      var r := Snapshot(d).value;
      forall k :: 0 <= k < |r| ==>
        && (exists w :: w in d.windows && w.visible && w.pid != 0 && r[k] == Describe(w, d.foreground, Directory(d.monitors)))
        && r[k].pid != 0
        && (r[k].focused <==> r[k].hwnd == d.foreground)
        && r[k].productName == None
        && |r[k].title| <= TitleCapacity && |r[k].className| <= ClassNameCapacity
        && r[k].arguments == (if r[k].fullExe != [] then [r[k].fullExe] else []))
  {
    if !d.walkFailed {
      var kept := Filter(d.windows, Emitted);
      forall k | 0 <= k < |kept| ensures kept[k] in d.windows {
        FilterMultiplicity(d.windows, Emitted, kept[k]);
        assert kept[k] in multiset(kept);
      }
    }
  }

  /** The windows that would be reported as focused: emitted ones whose handle
      is the foreground handle. */
  function ForegroundFilter(foreground: Handle): WindowReply -> bool {
    w => Emitted(w) && w.hwnd == foreground
  }

  predicate IsFocused(info: WindowInfo) {
    info.focused
  }

  /** The number of focused descriptors equals the number of emitted windows
      whose handle is the foreground handle. */
  lemma {:induction false} FocusedCountMatchesForeground(windows: seq<WindowReply>, foreground: Handle, monitors: seq<MonitorEntry>)
    ensures |Filter(Windows(windows, foreground, monitors), IsFocused)| == |Filter(windows, ForegroundFilter(foreground))|
    decreases |windows|
  {
    if windows != [] {
      var init, w := windows[..|windows| - 1], windows[|windows| - 1];
      assert windows == init + [w];
      WindowsStep(init, w, foreground, monitors);
      FocusedCountMatchesForeground(init, foreground, monitors);
      var tail := if Emitted(w) then [Describe(w, foreground, monitors)] else [];
      FilterAppend(Windows(init, foreground, monitors), tail, IsFocused);
      assert Filter(tail, IsFocused) == Filter([], IsFocused) + (if Emitted(w) && w.hwnd == foreground then tail else []);
    }
  }

  /** When the foreground handle belongs to exactly one emitted window,
      exactly one descriptor is focused. */
  lemma ExactlyOneFocused(d: Desktop)
    requires !d.walkFailed
    requires |Filter(d.windows, ForegroundFilter(d.foreground))| == 1
    ensures Snapshot(d).Ok? && |Filter(Snapshot(d).value, IsFocused)| == 1
  {
    FocusedCountMatchesForeground(d.windows, d.foreground, Directory(d.monitors));
  }

  // ---------------------------------------------------------------------------
  // Executable path
  // ---------------------------------------------------------------------------

  /** A single path component that `Path::file_name` returns unchanged. */
  predicate IsPlainName(name: Text) {
    name != [] && name != [Dot] && name != [Dot, Dot] &&
    forall j :: 0 <= j < |name| ==> !IsSeparator(name[j])
  }

  /** The base name taken from a full path is its final component: a plain
      name is its own file name, and joining a directory and a plain name with
      either separator gives back that name. */
  lemma FileNameOfJoin(dir: Text, sep: CodeUnit, name: Text)
    requires IsSeparator(sep) && IsPlainName(name)
    ensures FileName(name) == name
    ensures FileName(dir + [sep] + name) == name
  {
    var path := dir + [sep] + name;
    assert path[|dir|] == sep;
    assert forall j :: |dir| < j < |path| ==> path[j] == name[j - |dir| - 1];
    var i := ComponentStart(path);
    assert i > |dir|;
    assert i == |dir| + 1;
    assert path[i..] == name;
    assert path[|path| - 1] == name[|name| - 1];
    assert ComponentStart(name) == 0;
    assert name[0..] == name;
  }
}
