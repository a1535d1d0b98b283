/** Finding the cameras: the device search of `camera_command`
    (Linux/RemoteDeactivationLinux.py:919-969). `v4l2-ctl --list-devices` is asked first and
    its `/dev/video` lines are collected without repetition; when that yields nothing the
    nodes `/dev/video0` to `/dev/video9` are probed. */
module Camera {
  import opened Common
  import opened Text

  const VideoPrefix := "/dev/video"
  const ListDevicesArgv := ["v4l2-ctl", "--list-devices"]
  /** The number of `/dev/video` nodes probed. */
  const ProbeCount := 10

  predicate NoDuplicates(s: seq<string>) {
    forall i, j :: 0 <= i < j < |s| ==> s[i] != s[j]
  }

  // ------------------------------------------------------------------ the v4l2-ctl listing

  /** Lines 941-944: a line that is not blank, starts with a tab and, stripped, mentions
      `/dev/video`. */
  predicate IsDeviceLine(line: string) {
    Strip(line) != "" && |line| > 0 && line[0] == '\t' && Contains(Strip(line), VideoPrefix)
  }

  /** The device lines of `lines`, stripped, in order, repetitions kept. */
  function DeviceEntries(lines: seq<string>): seq<string> {
    if |lines| == 0 then []
    else
      var last := lines[|lines| - 1];
      DeviceEntries(lines[..|lines| - 1]) + (if IsDeviceLine(last) then [Strip(last)] else [])
  }

  /** `s` with repetitions dropped: the first occurrence of each element is kept, in order. */
  function Dedup(s: seq<string>): (d: seq<string>)
    ensures forall x :: x in d <==> x in s
    ensures NoDuplicates(d)
  {
    if |s| == 0 then []
    else
      var init := Dedup(s[..|s| - 1]);
      assert forall x :: x in s <==> x in s[..|s| - 1] || x == s[|s| - 1];
      if s[|s| - 1] in init then init else init + [s[|s| - 1]]
  }

  /** Appending one element extends the result only when the element is new. */
  lemma DedupSnoc(s: seq<string>, x: string)
    ensures Dedup(s + [x]) == if x in Dedup(s) then Dedup(s) else Dedup(s) + [x]
  {
    assert (s + [x])[..|s|] == s;
  }

  /** Some device line of `lines` strips to `x`. */
  predicate HasDeviceLine(lines: seq<string>, x: string) {
    exists k :: 0 <= k < |lines| && IsDeviceLine(lines[k]) && Strip(lines[k]) == x
  }

  /** Every entry comes from a device line. */
  lemma {:induction false} DeviceEntriesSound(lines: seq<string>, x: string)
    requires x in DeviceEntries(lines)
    ensures HasDeviceLine(lines, x)
    decreases |lines|
  {
    var init := lines[..|lines| - 1];
    var last := lines[|lines| - 1];
    if x in DeviceEntries(init) {
      DeviceEntriesSound(init, x);
      var k :| 0 <= k < |init| && IsDeviceLine(init[k]) && Strip(init[k]) == x;
      assert lines[k] == init[k];
    } else {
      assert IsDeviceLine(last) && Strip(last) == x;
    }
  }

  /** Every device line gives an entry. */
  lemma {:induction false} DeviceEntriesComplete(lines: seq<string>, k: nat)
    requires k < |lines| && IsDeviceLine(lines[k])
    ensures Strip(lines[k]) in DeviceEntries(lines)
    decreases |lines|
  {
    var init := lines[..|lines| - 1];
    if k < |init| {
      assert init[k] == lines[k];
      DeviceEntriesComplete(init, k);
    }
  }

  /** Lines 938-947: one pass over the output's lines. A line naming a device group only
      sets a name that is logged, so it changes nothing here. */
  method ParseDeviceList(stdout: string) returns (devices: seq<string>)
    ensures devices == Dedup(DeviceEntries(Split(stdout, '\n')))
  {
    var lines := Split(stdout, '\n');
    devices := [];
    for i := 0 to |lines|
      invariant devices == Dedup(DeviceEntries(lines[..i]))
    {
      var line := lines[i];
      assert lines[..i + 1][..i] == lines[..i];
      var entries := DeviceEntries(lines[..i]);
      assert DeviceEntries(lines[..i + 1]) == entries + (if IsDeviceLine(line) then [Strip(line)] else []);
      var stripped := Strip(line);
      if stripped != "" && |line| > 0 && line[0] == '\t' && Contains(stripped, VideoPrefix) {
        DedupSnoc(entries, stripped);
        if stripped !in devices {
          devices := devices + [stripped];
        }
      } else {
        assert entries + [] == entries;
      }
    }
    assert lines[..|lines|] == lines;
  }

  /** The listing holds every `/dev/video` line of the output once, and nothing else. */
  lemma ListingSoundAndComplete(stdout: string, x: string)
    ensures NoDuplicates(Dedup(DeviceEntries(Split(stdout, '\n'))))
    ensures x in Dedup(DeviceEntries(Split(stdout, '\n'))) <==> HasDeviceLine(Split(stdout, '\n'), x)
    ensures x in Dedup(DeviceEntries(Split(stdout, '\n'))) ==> Contains(x, VideoPrefix)
  {
    var lines := Split(stdout, '\n');
    if x in DeviceEntries(lines) {
      DeviceEntriesSound(lines, x);
    }
    if HasDeviceLine(lines, x) {
      var k :| 0 <= k < |lines| && IsDeviceLine(lines[k]) && Strip(lines[k]) == x;
      DeviceEntriesComplete(lines, k);
    }
  }

  /** Lines 930-955: the listing is used only when `v4l2-ctl` is installed and exits with
      status 0 within its five seconds; a failure, a timeout or an exception gives
      nothing. `env` is the environment the agent process itself runs in: the call of
      line 932 passes no `env=`, so `v4l2-ctl` inherits it, and `camera_command` does not
      call `get_wayland_env`. */
  function Listed(which: Which, run: Runner, env: Env): seq<string> {
    if !Installed(which, "v4l2-ctl") then []
    else
      var o := run(ListDevicesArgv, env);
      if o.Succeeded() then Dedup(DeviceEntries(Split(o.stdout, '\n'))) else []
  }

  // ------------------------------------------------------------------ probing /dev/video*

  function VideoPath(i: nat): string {
    VideoPrefix + NatText(i)
  }

  /** Different node numbers name different nodes. */
  lemma VideoPathsDistinct(i: nat, j: nat)
    requires i != j
    ensures VideoPath(i) != VideoPath(j)
  {
    NatTextRoundTrip(i);
    NatTextRoundTrip(j);
    assert NatText(i) == VideoPath(i)[|VideoPrefix|..];
    assert NatText(j) == VideoPath(j)[|VideoPrefix|..];
  }

  /** The existing nodes among `/dev/video0` to `/dev/video(n-1)`, in order. */
  function Probed(present: string -> bool, n: nat): seq<string> {
    if n == 0 then []
    else Probed(present, n - 1) + (if present(VideoPath(n - 1)) then [VideoPath(n - 1)] else [])
  }

  /** `d` is one of `/dev/video0` to `/dev/video(n-1)`. */
  predicate NodeBelow(d: string, n: nat) {
    exists i :: 0 <= i < n && d == VideoPath(i)
  }

  /** Probing finds only existing nodes among the first `n`. */
  lemma {:induction false} ProbedSound(present: string -> bool, n: nat)
    ensures forall d :: d in Probed(present, n) ==> present(d) && NodeBelow(d, n)
  {
    if n > 0 {
      ProbedSound(present, n - 1);
      forall d | d in Probed(present, n - 1) ensures NodeBelow(d, n) {
        var i :| 0 <= i < n - 1 && d == VideoPath(i);
      }
      assert NodeBelow(VideoPath(n - 1), n);
    }
  }

  /** Probing finds every existing node among the first `n`. */
  lemma {:induction false} ProbedComplete(present: string -> bool, n: nat)
    ensures forall i :: 0 <= i < n && present(VideoPath(i)) ==> VideoPath(i) in Probed(present, n)
  {
    if n > 0 {
      ProbedComplete(present, n - 1);
    }
  }

  /** Probing finds each node once. */
  lemma {:induction false} ProbedDistinct(present: string -> bool, n: nat)
    ensures NoDuplicates(Probed(present, n))
  {
    if n > 0 {
      ProbedDistinct(present, n - 1);
      ProbedSound(present, n - 1);
      var init := Probed(present, n - 1);
      forall d | d in init ensures d != VideoPath(n - 1) {
        var i :| 0 <= i < n - 1 && d == VideoPath(i);
        VideoPathsDistinct(i, n - 1);
      }
    }
  }

  /** The probe of lines 958-964, run when the listing found nothing. */
  method ProbeNodes(present: string -> bool) returns (devices: seq<string>)
    ensures devices == Probed(present, ProbeCount)
  {
    devices := [];
    for i := 0 to ProbeCount
      invariant devices == Probed(present, i)
    {
      var path := VideoPath(i);
      if present(path) {
        ProbedSound(present, i);
        if path in devices {
          var k :| 0 <= k < i && path == VideoPath(k);
          VideoPathsDistinct(k, i);
        }
        if path !in devices {
          devices := devices + [path];
        }
      }
    }
  }

  /** The cameras the handler goes on to try. */
  function Cameras(which: Which, run: Runner, env: Env, present: string -> bool): seq<string> {
    var listed := Listed(which, run, env);
    if listed != [] then listed else Probed(present, ProbeCount)
  }

  /** Whichever way they were found, the cameras are `/dev/video` paths without
      repetition; when the listing gives nothing they are exactly the existing nodes
      `/dev/video0` to `/dev/video9`. */
  lemma CamerasFacts(which: Which, run: Runner, env: Env, present: string -> bool)
    ensures NoDuplicates(Cameras(which, run, env, present))
    ensures forall d :: d in Cameras(which, run, env, present) ==> Contains(d, VideoPrefix)
    ensures Listed(which, run, env) == [] ==>
      forall i :: 0 <= i < ProbeCount ==> (VideoPath(i) in Cameras(which, run, env, present) <==> present(VideoPath(i)))
  {
    var listed := Listed(which, run, env);
    if listed == [] {
      ProbedSound(present, ProbeCount);
      ProbedComplete(present, ProbeCount);
      ProbedDistinct(present, ProbeCount);
      forall d | d in Probed(present, ProbeCount) ensures Contains(d, VideoPrefix) {
        var i :| 0 <= i < ProbeCount && d == VideoPath(i);
        ContainsSelf(VideoPrefix);
        ContainsInContext("", VideoPrefix, NatText(i), VideoPrefix);
        assert d == "" + VideoPrefix + NatText(i);
      }
    } else {
      var o := run(ListDevicesArgv, env);
      forall d | d in listed ensures Contains(d, VideoPrefix) {
        ListingSoundAndComplete(o.stdout, d);
        var lines := Split(o.stdout, '\n');
        var k :| 0 <= k < |lines| && IsDeviceLine(lines[k]) && Strip(lines[k]) == d;
      }
    }
  }

  const AccessingSuffix := ": Accessing camera..."
  const NoCameraHead := "❌ No camera devices found on "

  /** Lines 928-964: the listing, then the probe when the listing gave nothing. */
  method SearchCameras(which: Which, run: Runner, env: Env, present: string -> bool)
    returns (devices: seq<string>, ran: seq<seq<string>>)
    ensures devices == Cameras(which, run, env, present)
    ensures ran == (if Installed(which, "v4l2-ctl") then [ListDevicesArgv] else [])
  {
    devices := [];
    ran := [];
    if Installed(which, "v4l2-ctl") {
      ran := [ListDevicesArgv];
      var o := run(ListDevicesArgv, env);
      if o.Succeeded() {
        devices := ParseDeviceList(o.stdout);
      }
    }
    if devices == [] {
      devices := ProbeNodes(present);
    }
  }

  /** The device search of `camera_command` after the authorisation check, up to the
      reply that no camera was found. `env` is the agent's own process environment. */
  method FindCameras(device: string, which: Which, run: Runner, env: Env, present: string -> bool)
    returns (h: Handled, devices: seq<string>)
    ensures devices == Cameras(which, run, env, present)
    ensures h.ran == (if Installed(which, "v4l2-ctl") then [ListDevicesArgv] else [])
    ensures h.end == Returned
    ensures devices == [] ==> h.replies == [device + AccessingSuffix, NoCameraHead + device + "."]
    ensures devices != [] ==> h.replies == [device + AccessingSuffix]
  {
    var ran;
    devices, ran := SearchCameras(which, run, env, present);
    var replies := [device + AccessingSuffix];
    if devices == [] {
      replies := replies + [NoCameraHead + device + "."];
    }
    h := Handled(replies, ran, Returned);
  }
}
