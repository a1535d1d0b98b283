/** The environment handed to session-bound tools: `get_wayland_env`
    (Linux/RemoteDeactivationLinux.py:182-258). The inherited environment is copied and
    the display variables are filled in only where they are absent; every decision leaves
    one line in a diagnostic trail. */
module SessionEnv {
  import opened Common
  import opened Text
  import opened Paths

  const XdgRuntimeDir := "XDG_RUNTIME_DIR"
  const WaylandDisplay := "WAYLAND_DISPLAY"
  const Display := "DISPLAY"
  const DbusAddress := "DBUS_SESSION_BUS_ADDRESS"
  const HyprlandSignature := "HYPRLAND_INSTANCE_SIGNATURE"

  lemma VariablesDistinct()
    ensures XdgRuntimeDir != WaylandDisplay && XdgRuntimeDir != Display && XdgRuntimeDir != DbusAddress
    ensures XdgRuntimeDir != HyprlandSignature && WaylandDisplay != Display && WaylandDisplay != DbusAddress
    ensures WaylandDisplay != HyprlandSignature && Display != DbusAddress && Display != HyprlandSignature
    ensures DbusAddress != HyprlandSignature
  {
    assert XdgRuntimeDir[0] != WaylandDisplay[0];
    assert |XdgRuntimeDir| == |WaylandDisplay| == 15 && |Display| == 7;
    assert |DbusAddress| == 24 && |HyprlandSignature| == 27;
  }

  const DefaultWayland := "wayland-0"
  const DefaultDisplay := ":0"
  const RuntimeDirPrefix := "/run/user/"
  const BusPrefix := "unix:path="

  /** What `os.stat` reports of one directory entry that `os.path.islink` does not call a link. */
  datatype EntryKind = Link | Socket | OtherFile | StatFails(error: string)

  /** What the host shows at a path: nothing (`os.path.exists` is false), or something
      whose listing is either its entries or an error. */
  datatype PathView = Absent | Present(listing: Listing)
  datatype Listing = Entries(entries: seq<(string, EntryKind)>) | Unlistable(error: string)

  /** `os.path.exists(path)`: the empty path never exists. */
  predicate Exists(path: string, fs: string -> PathView) {
    path != "" && fs(path).Present?
  }

  /** One line of the trail. */
  datatype TrailLine =
    | Header
    | UsingExisting(variable: string, value: string)
    | RuntimeDirDefaulted(path: string)
    | WaylandDetected(name: string)
    | WaylandNoSocket
    | WaylandScanFailed(error: string)
    | WaylandNoRuntimeDir
    | DisplayDefaulted
    | BusDefaulted(address: string)
    | BusNotASocket(path: string)
    | BusNoRuntimeDir
    | HyprlandMissing
  {
    /** The variable the line reports on (none for the header). */
    function Variable(): string {
      match this
      case Header => ""
      case UsingExisting(v, _) => v
      case RuntimeDirDefaulted(_) => XdgRuntimeDir
      case WaylandDetected(_) => WaylandDisplay
      case WaylandNoSocket => WaylandDisplay
      case WaylandScanFailed(_) => WaylandDisplay
      case WaylandNoRuntimeDir => WaylandDisplay
      case DisplayDefaulted => Display
      case BusDefaulted(_) => DbusAddress
      case BusNotASocket(_) => DbusAddress
      case BusNoRuntimeDir => DbusAddress
      case HyprlandMissing => HyprlandSignature
    }

    /** The text logged for the line. */
    function Text(): string {
      match this
      case Header => "Attempting to establish Wayland/X11 environment for subprocesses:"
      case UsingExisting(v, value) => "  - " + v + ": Using existing value: " + value
      case RuntimeDirDefaulted(path) => "  - XDG_RUNTIME_DIR: Not set, defaulted to " + path
      case WaylandDetected(name) =>
        "  - WAYLAND_DISPLAY: Not set, detected and set to " + name + " from XDG_RUNTIME_DIR"
      case WaylandNoSocket =>
        "  - WAYLAND_DISPLAY: Not set, no obvious socket in XDG_RUNTIME_DIR, defaulting to " + DefaultWayland
      case WaylandScanFailed(e) =>
        "  - WAYLAND_DISPLAY: Error detecting from XDG_RUNTIME_DIR (" + e + "), defaulting to " + DefaultWayland
      case WaylandNoRuntimeDir =>
        "  - WAYLAND_DISPLAY: Not set, XDG_RUNTIME_DIR also not available or invalid, defaulting to " + DefaultWayland
      case DisplayDefaulted => "  - DISPLAY: Not set, defaulting to " + DefaultDisplay
      case BusDefaulted(address) => "  - DBUS_SESSION_BUS_ADDRESS: Not set, defaulted to " + address
      case BusNotASocket(path) =>
        "  - DBUS_SESSION_BUS_ADDRESS: Not set, and default path " + path
        + " does not exist or is not a socket. GUI/session tools might fail."
      case BusNoRuntimeDir =>
        "  - DBUS_SESSION_BUS_ADDRESS: Not set, and XDG_RUNTIME_DIR is unavailable to guess. GUI/session tools might fail."
      case HyprlandMissing =>
        "  - HYPRLAND_INSTANCE_SIGNATURE: Not set in environment. Hyprland-specific tools (e.g., grimblast via hyprctl) may fail."
    }
  }

  // ------------------------------------------------------------ the Wayland socket scan

  /** The outcome of the list comprehension of lines 207-213. */
  datatype Scan = Candidates(names: seq<string>) | ScanFailed(error: string)

  /** An entry the scan keeps: its name starts with `wayland-` and it is a link or a socket. */
  predicate IsDisplaySocket(entry: (string, EntryKind)) {
    StartsWith(entry.0, "wayland-") && (entry.1.Link? || entry.1.Socket?)
  }

  /** An entry on which the scan's `os.stat` raises. */
  predicate BreaksScan(entry: (string, EntryKind)) {
    StartsWith(entry.0, "wayland-") && entry.1.StatFails?
  }

  /** The list comprehension of lines 207-213: `os.stat` is consulted only for entries
      named `wayland-...` that are not links, and one that raises ends the scan. */
  function ScanEntries(entries: seq<(string, EntryKind)>): Scan
    decreases |entries|
  {
    if |entries| == 0 then Candidates([])
    else
      var (name, kind) := entries[0];
      var rest := ScanEntries(entries[1..]);
      if !StartsWith(name, "wayland-") then rest
      else if kind.StatFails? then ScanFailed(kind.error)
      else if rest.ScanFailed? || kind.OtherFile? then rest
      else Candidates([name] + rest.names)
  }

  /** The scan fails exactly when `os.stat` raises on a `wayland-` entry that is not a
      link. */
  lemma {:induction false} ScanFailsIff(entries: seq<(string, EntryKind)>)
    ensures ScanEntries(entries).ScanFailed? <==> exists j :: 0 <= j < |entries| && BreaksScan(entries[j])
    decreases |entries|
  {
    if |entries| > 0 {
      var tail := entries[1..];
      ScanFailsIff(tail);
      if exists j :: 0 <= j < |tail| && BreaksScan(tail[j]) {
        var j :| 0 <= j < |tail| && BreaksScan(tail[j]);
        assert BreaksScan(entries[j + 1]);
      }
      if exists j :: 0 <= j < |entries| && BreaksScan(entries[j]) {
        var j :| 0 <= j < |entries| && BreaksScan(entries[j]);
        if j > 0 { assert BreaksScan(tail[j - 1]); }
      }
    }
  }

  /** Some `wayland-` entry makes the scan's `os.stat` raise. */
  predicate HasBreakingEntry(entries: seq<(string, EntryKind)>) {
    exists j :: 0 <= j < |entries| && BreaksScan(entries[j])
  }

  /** Some entry is a `wayland-` link or socket. */
  predicate HasDisplaySocket(entries: seq<(string, EntryKind)>) {
    exists j :: 0 <= j < |entries| && IsDisplaySocket(entries[j])
  }

  /** `name` is the name of a `wayland-` link or socket among `entries`. */
  predicate NamesDisplaySocket(entries: seq<(string, EntryKind)>, name: string) {
    exists j :: 0 <= j < |entries| && entries[j].0 == name && IsDisplaySocket(entries[j])
  }

  /** Every name the scan keeps is the name of a `wayland-` link or socket. */
  lemma {:induction false} ScanSound(entries: seq<(string, EntryKind)>)
    requires ScanEntries(entries).Candidates?
    ensures forall name :: name in ScanEntries(entries).names ==> NamesDisplaySocket(entries, name)
    decreases |entries|
  {
    if |entries| > 0 {
      var tail := entries[1..];
      var names := ScanEntries(entries).names;
      var rest := ScanEntries(tail);
      assert rest.Candidates?;
      ScanSound(tail);
      forall name | name in names
        ensures NamesDisplaySocket(entries, name)
      {
        if name in rest.names {
          var j :| 0 <= j < |tail| && tail[j].0 == name && IsDisplaySocket(tail[j]);
          assert entries[j + 1] == tail[j];
        } else {
          assert names != rest.names;
          assert names == [entries[0].0] + rest.names;
          assert entries[0].0 == name && IsDisplaySocket(entries[0]);
        }
      }
    }
  }

  /** The scan, when it does not fail, keeps the name of every `wayland-` link or socket. */
  lemma {:induction false} ScanComplete(entries: seq<(string, EntryKind)>)
    requires ScanEntries(entries).Candidates?
    ensures forall j :: 0 <= j < |entries| && IsDisplaySocket(entries[j]) ==>
      entries[j].0 in ScanEntries(entries).names
    decreases |entries|
  {
    if |entries| > 0 {
      var tail := entries[1..];
      var names := ScanEntries(entries).names;
      var rest := ScanEntries(tail);
      assert rest.Candidates?;
      ScanComplete(tail);
      assert forall x :: x in rest.names ==> x in names;
      forall j | 0 <= j < |entries| && IsDisplaySocket(entries[j])
        ensures entries[j].0 in names
      {
        if j > 0 {
          assert entries[j] == tail[j - 1];
        } else {
          assert names == [entries[0].0] + rest.names;
        }
      }
    }
  }

  /** The choice for WAYLAND_DISPLAY when it is absent, with its trail line. */
  function ChooseWayland(runtimeDir: string, fs: string -> PathView): (TrailLine, string) {
    if !Exists(runtimeDir, fs) then (WaylandNoRuntimeDir, DefaultWayland)
    else match fs(runtimeDir).listing
      case Unlistable(e) => (WaylandScanFailed(e), DefaultWayland)
      case Entries(entries) =>
        match ScanEntries(entries)
        case ScanFailed(e) => (WaylandScanFailed(e), DefaultWayland)
        case Candidates(names) =>
          if |names| == 0 then (WaylandNoSocket, DefaultWayland)
          else var name := Smallest(names); (WaylandDetected(name), name)
  }

  // ------------------------------------------------------------ the resolver

  /** A trail line about `variable` that says "using existing value" exactly when the
      variable was inherited. */
  predicate ReportsOn(line: TrailLine, variable: string, inherited: map<string, string>) {
    line.Variable() == variable && (line.UsingExisting? <==> variable in inherited)
  }

  /** Lines 194-200: XDG_RUNTIME_DIR defaults to `/run/user/<uid>`. */
  method ResolveRuntimeDir(env: map<string, string>, uid: nat)
    returns (env': map<string, string>, line: TrailLine)
    ensures forall v :: v in env' <==> v in env || v == XdgRuntimeDir
    ensures forall v :: v in env ==> env'[v] == env[v]
    ensures XdgRuntimeDir !in env ==> env'[XdgRuntimeDir] == RuntimeDirPrefix + NatText(uid)
    ensures ReportsOn(line, XdgRuntimeDir, env)
  {
    if XdgRuntimeDir !in env {
      var path := RuntimeDirPrefix + NatText(uid);
      env' := env[XdgRuntimeDir := path];
      line := RuntimeDirDefaulted(path);
    } else {
      env' := env;
      line := UsingExisting(XdgRuntimeDir, env[XdgRuntimeDir]);
    }
  }

  /** Lines 202-227: WAYLAND_DISPLAY is detected in the runtime directory or defaults to
      `wayland-0`. */
  method ResolveWayland(env: map<string, string>, fs: string -> PathView)
    returns (env': map<string, string>, line: TrailLine)
    requires XdgRuntimeDir in env
    ensures forall v :: v in env' <==> v in env || v == WaylandDisplay
    ensures forall v :: v in env ==> env'[v] == env[v]
    ensures WaylandDisplay !in env ==> env'[WaylandDisplay] == ChooseWayland(env[XdgRuntimeDir], fs).1
    ensures ReportsOn(line, WaylandDisplay, env)
  {
    if WaylandDisplay !in env {
      var (l, name) := ChooseWayland(env[XdgRuntimeDir], fs);
      env' := env[WaylandDisplay := name];
      line := l;
    } else {
      env' := env;
      line := UsingExisting(WaylandDisplay, env[WaylandDisplay]);
    }
  }

  /** Lines 229-234: DISPLAY defaults to `:0`. */
  method ResolveDisplay(env: map<string, string>)
    returns (env': map<string, string>, line: TrailLine)
    ensures forall v :: v in env' <==> v in env || v == Display
    ensures forall v :: v in env ==> env'[v] == env[v]
    ensures Display !in env ==> env'[Display] == DefaultDisplay
    ensures ReportsOn(line, Display, env)
  {
    if Display !in env {
      env' := env[Display := DefaultDisplay];
      line := DisplayDefaulted;
    } else {
      env' := env;
      line := UsingExisting(Display, env[Display]);
    }
  }

  /** Lines 236-249: the bus address is set only when `<runtime dir>/bus` exists and is a
      socket. */
  method ResolveBus(env: map<string, string>, fs: string -> PathView, busIsSocket: string -> bool)
    returns (env': map<string, string>, line: TrailLine)
    requires XdgRuntimeDir in env
    ensures forall v :: v in env' ==> v in env || v == DbusAddress
    ensures forall v :: v in env ==> v in env' && env'[v] == env[v]
    ensures DbusAddress !in env ==>
      var bus := PathJoin(env[XdgRuntimeDir], "bus");
      (DbusAddress in env' <==> Exists(env[XdgRuntimeDir], fs) && Exists(bus, fs) && busIsSocket(bus))
      && (DbusAddress in env' ==> env'[DbusAddress] == BusPrefix + bus)
    ensures ReportsOn(line, DbusAddress, env)
  {
    env' := env;
    if DbusAddress !in env {
      var runtimeDir := env[XdgRuntimeDir];
      if Exists(runtimeDir, fs) {
        var bus := PathJoin(runtimeDir, "bus");
        if Exists(bus, fs) && busIsSocket(bus) {
          env' := env[DbusAddress := BusPrefix + bus];
          line := BusDefaulted(BusPrefix + bus);
        } else {
          line := BusNotASocket(bus);
        }
      } else {
        line := BusNoRuntimeDir;
      }
    } else {
      line := UsingExisting(DbusAddress, env[DbusAddress]);
    }
  }

  /** Lines 251-255: the Hyprland instance signature is only reported, never set. */
  method ResolveHyprland(env: map<string, string>) returns (line: TrailLine)
    ensures ReportsOn(line, HyprlandSignature, env)
  {
    if HyprlandSignature !in env {
      line := HyprlandMissing;
    } else {
      line := UsingExisting(HyprlandSignature, env[HyprlandSignature]);
    }
  }

  /** Lines 194-234: the runtime directory, the Wayland display and the X display, each
      kept when inherited and defaulted otherwise. */
  method ResolveDisplays(inherited: map<string, string>, uid: nat, fs: string -> PathView)
    returns (env: map<string, string>, xdgLine: TrailLine, waylandLine: TrailLine, displayLine: TrailLine)
    ensures forall v :: v in env <==> v in inherited || v == XdgRuntimeDir || v == WaylandDisplay || v == Display
    ensures forall v :: v in inherited ==> env[v] == inherited[v]
    ensures XdgRuntimeDir !in inherited ==> env[XdgRuntimeDir] == RuntimeDirPrefix + NatText(uid)
    ensures Display !in inherited ==> env[Display] == DefaultDisplay
    ensures WaylandDisplay !in inherited ==>
      env[WaylandDisplay] == ChooseWayland(env[XdgRuntimeDir], fs).1
    ensures ReportsOn(xdgLine, XdgRuntimeDir, inherited) && ReportsOn(waylandLine, WaylandDisplay, inherited)
    ensures ReportsOn(displayLine, Display, inherited)
  {
    VariablesDistinct();
    var env1, env2;
    env1, xdgLine := ResolveRuntimeDir(inherited, uid);
    env2, waylandLine := ResolveWayland(env1, fs);
    env, displayLine := ResolveDisplay(env2);
  }

  /** `get_wayland_env` (the live body, lines 191-258). `uid` is `os.getuid()`; `fs` shows
      what is at each path; `busIsSocket` says whether `os.stat` of an existing path
      reports a socket. */
  method GetWaylandEnv(inherited: map<string, string>, uid: nat, fs: string -> PathView,
                       busIsSocket: string -> bool)
    returns (env: map<string, string>, trail: seq<TrailLine>)
    // nothing inherited is overwritten or dropped
    ensures forall v :: v in inherited ==> v in env && env[v] == inherited[v]
    // the only variables added are the three defaults and, possibly, the bus address
    ensures forall v :: v in env ==> v in inherited || v in {XdgRuntimeDir, WaylandDisplay, Display, DbusAddress}
    ensures XdgRuntimeDir in env && WaylandDisplay in env && Display in env
    ensures XdgRuntimeDir !in inherited ==> env[XdgRuntimeDir] == RuntimeDirPrefix + NatText(uid)
    ensures Display !in inherited ==> env[Display] == DefaultDisplay
    ensures WaylandDisplay !in inherited ==>
      env[WaylandDisplay] == ChooseWayland(env[XdgRuntimeDir], fs).1
    ensures DbusAddress !in inherited ==>
      var bus := PathJoin(env[XdgRuntimeDir], "bus");
      (DbusAddress in env <==> Exists(env[XdgRuntimeDir], fs) && Exists(bus, fs) && busIsSocket(bus))
      && (DbusAddress in env ==> env[DbusAddress] == BusPrefix + bus)
    // a header, then exactly one line per reported variable, in order
    ensures |trail| == 6 && trail[0] == Header
    ensures ReportsOn(trail[1], XdgRuntimeDir, inherited) && ReportsOn(trail[2], WaylandDisplay, inherited)
    ensures ReportsOn(trail[3], Display, inherited) && ReportsOn(trail[4], DbusAddress, inherited)
    ensures ReportsOn(trail[5], HyprlandSignature, inherited)
  {
    VariablesDistinct();
    var env3, xdgLine, waylandLine, displayLine := ResolveDisplays(inherited, uid, fs);
    var busLine;
    env, busLine := ResolveBus(env3, fs, busIsSocket);

    var hyprlandLine := ResolveHyprland(env);

    trail := [Header, xdgLine, waylandLine, displayLine, busLine, hyprlandLine];
  }

  /** The scan fails exactly on a breaking entry; otherwise it keeps some name exactly
      when there is a `wayland-` link or socket. */
  lemma ScanOutcome(entries: seq<(string, EntryKind)>)
    ensures ScanEntries(entries).ScanFailed? <==> HasBreakingEntry(entries)
    ensures ScanEntries(entries).Candidates? ==>
      (|ScanEntries(entries).names| > 0 <==> HasDisplaySocket(entries))
  {
    ScanFailsIff(entries);
    var scan := ScanEntries(entries);
    if scan.Candidates? {
      ScanSound(entries);
      ScanComplete(entries);
      if HasDisplaySocket(entries) {
        var j :| 0 <= j < |entries| && IsDisplaySocket(entries[j]);
        assert entries[j].0 in scan.names;
      }
      if |scan.names| > 0 {
        assert scan.names[0] in scan.names;
      }
    }
  }

  /** The detected display is the first, in Python's string order, of the runtime
      directory's `wayland-` entries that are links or sockets; it falls back to
      `wayland-0` when there is no such entry, the directory is missing or the scan
      raises. */
  lemma WaylandChoice(runtimeDir: string, fs: string -> PathView)
    ensures var (line, name) := ChooseWayland(runtimeDir, fs);
      line.Variable() == WaylandDisplay
      && (line.WaylandDetected? ==>
            && Exists(runtimeDir, fs) && fs(runtimeDir).listing.Entries?
            && var entries := fs(runtimeDir).listing.entries;
            && name == line.name
            && NamesDisplaySocket(entries, name)
            && (forall j :: 0 <= j < |entries| && IsDisplaySocket(entries[j]) ==> LexLeq(name, entries[j].0)))
      && (!line.WaylandDetected? ==> name == DefaultWayland)
      && (!Exists(runtimeDir, fs) ==> line == WaylandNoRuntimeDir)
    // and which of these happens: detection whenever the scan succeeds and finds an entry
    ensures var line := ChooseWayland(runtimeDir, fs).0;
      Exists(runtimeDir, fs) && fs(runtimeDir).listing.Unlistable? ==> line.WaylandScanFailed?
    ensures var line := ChooseWayland(runtimeDir, fs).0;
      Exists(runtimeDir, fs) && fs(runtimeDir).listing.Entries? && HasBreakingEntry(fs(runtimeDir).listing.entries) ==>
        line.WaylandScanFailed?
    ensures var line := ChooseWayland(runtimeDir, fs).0;
      (Exists(runtimeDir, fs) && fs(runtimeDir).listing.Entries? && !HasBreakingEntry(fs(runtimeDir).listing.entries)
       && HasDisplaySocket(fs(runtimeDir).listing.entries)) ==> line.WaylandDetected?
    ensures var line := ChooseWayland(runtimeDir, fs).0;
      (Exists(runtimeDir, fs) && fs(runtimeDir).listing.Entries? && !HasBreakingEntry(fs(runtimeDir).listing.entries)
       && !HasDisplaySocket(fs(runtimeDir).listing.entries)) ==> line == WaylandNoSocket
  {
    var (line, name) := ChooseWayland(runtimeDir, fs);
    if Exists(runtimeDir, fs) && fs(runtimeDir).listing.Entries? {
      ScanOutcome(fs(runtimeDir).listing.entries);
    }
    if line.WaylandDetected? {
      var entries := fs(runtimeDir).listing.entries;
      ScanSound(entries);
      ScanComplete(entries);
      var names := ScanEntries(entries).names;
      assert name == Smallest(names);
      forall j | 0 <= j < |entries| && IsDisplaySocket(entries[j])
        ensures LexLeq(name, entries[j].0)
      {
        assert entries[j].0 in names;
      }
    }
  }
}
