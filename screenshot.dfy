/** The screenshot: `screenshot_command` (Linux/RemoteDeactivationLinux.py:711-781). The
    installed tools among grimblast, hyprshot and grim are tried in that order, each under a
    ten-second timeout; the first one that exits with status 0 and leaves a non-empty file
    behind wins, and its name goes into the photo's caption. */
module Screenshot {
  import opened Common
  import opened Text
  import opened Paths

  /** One screenshot tool: its command line and the name shown in the caption. */
  datatype Shooter = Shooter(argv: seq<string>, name: string)

  const ShotPrefix := "screenshot_"
  const ShotSuffix := ".png"

  /** Line 719: the temporary file, named after the device and the whole seconds of the
      clock. */
  function ShotPath(tmpDir: string, device: string, now: int): string {
    PathJoin(tmpDir, ShotPrefix + device + "_" + IntText(now) + ShotSuffix)
  }

  /** Every tool the handler knows, each told to write `path`. */
  function KnownShooters(path: string): (tools: seq<Shooter>)
    ensures forall k :: 0 <= k < |tools| ==> |tools[k].argv| > 0
  {
    [ Shooter(["grimblast", "save", "screen", path], "grimblast screen"),
      Shooter(["hyprshot", "-m", "output", "-o", Dirname(path), "-f", Basename(path)], "hyprshot output"),
      Shooter(["grim", path], "grim") ]
  }

  /** The tools of `tools` whose program `which` finds, in their order. */
  function InstalledOnly(tools: seq<Shooter>, which: Which): (kept: seq<Shooter>)
    requires forall k :: 0 <= k < |tools| ==> |tools[k].argv| > 0
    ensures |kept| <= |tools|
    ensures forall k :: 0 <= k < |kept| ==> kept[k] in tools && |kept[k].argv| > 0 && Installed(which, kept[k].argv[0])
    ensures forall k :: 0 <= k < |tools| && Installed(which, tools[k].argv[0]) ==> tools[k] in kept
    ensures |tools| > 0 && Installed(which, tools[0].argv[0]) ==> |kept| > 0 && kept[0] == tools[0]
    decreases |tools|
  {
    if |tools| == 0 then []
    else
      var rest := InstalledOnly(tools[1..], which);
      assert forall k :: 1 <= k < |tools| ==> tools[k] == tools[1..][k - 1];
      if Installed(which, tools[0].argv[0]) then [tools[0]] + rest else rest
  }

  /** Keeping the installed tools of two lists one after the other keeps those of the first
      list, in their order, ahead of those of the second: the order of `tools` survives. */
  lemma {:induction false} InstalledOnlyConcat(a: seq<Shooter>, b: seq<Shooter>, which: Which)
    requires forall k :: 0 <= k < |a| ==> |a[k].argv| > 0
    requires forall k :: 0 <= k < |b| ==> |b[k].argv| > 0
    ensures forall k :: 0 <= k < |a + b| ==> |(a + b)[k].argv| > 0
    ensures InstalledOnly(a + b, which) == InstalledOnly(a, which) + InstalledOnly(b, which)
    decreases |a|
  {
    assert forall k :: 0 <= k < |a + b| ==> |(a + b)[k].argv| > 0 by {
      forall k | 0 <= k < |a + b| ensures |(a + b)[k].argv| > 0 {
        if k < |a| { assert (a + b)[k] == a[k]; } else { assert (a + b)[k] == b[k - |a|]; }
      }
    }
    if |a| == 0 {
      assert a + b == b;
    } else {
      assert (a + b)[1..] == a[1..] + b;
      InstalledOnlyConcat(a[1..], b, which);
    }
  }

  /** Lines 726-733: the tools that will be tried. */
  function Shooters(which: Which, path: string): seq<Shooter> {
    InstalledOnly(KnownShooters(path), which)
  }

  /** A tool took the screenshot: it exited with status 0 within its ten seconds and the
      file then existed with a size above zero. `produced(argv)` is what the file looks like
      after `argv` ran. */
  predicate Shoots(t: Shooter, run: Runner, env: Env, produced: seq<string> -> bool) {
    run(t.argv, env).Succeeded() && produced(t.argv)
  }

  /** The loop of lines 742-760: every failure (exit status, timeout, any exception) is
      logged and the next tool is tried. `ran` lists the command lines started; `tool` is
      the loop variable's last value. */
  method TryShooters(tools: seq<Shooter>, run: Runner, env: Env, produced: seq<string> -> bool)
    returns (taken: bool, tool: string, ran: seq<seq<string>>)
    ensures |ran| <= |tools| && forall k :: 0 <= k < |ran| ==> ran[k] == tools[k].argv
    ensures forall k :: 0 <= k < |ran| - 1 ==> !Shoots(tools[k], run, env, produced)
    ensures taken <==> |ran| > 0 && Shoots(tools[|ran| - 1], run, env, produced)
    ensures taken ==> tool == tools[|ran| - 1].name
    ensures !taken ==> |ran| == |tools| && forall k :: 0 <= k < |tools| ==> !Shoots(tools[k], run, env, produced)
  {
    taken := false;
    tool := "";
    ran := [];
    var i := 0;
    while i < |tools|
      invariant 0 <= i <= |tools| && |ran| == i
      invariant forall k :: 0 <= k < i ==> ran[k] == tools[k].argv
      invariant forall k :: 0 <= k < i ==> !Shoots(tools[k], run, env, produced)
    {
      var t := tools[i];
      ran := ran + [t.argv];
      tool := t.name;
      var outcome := run(t.argv, env);
      if outcome.Succeeded() && produced(t.argv) {
        taken := true;
        return;
      }
      i := i + 1;
    }
  }

  /** The picture sent back, with its caption. */
  datatype Photo = Photo(path: string, caption: string)

  const TakingSuffix := ": Taking screenshot... 📸"
  const NoToolsText := "❌ No suitable screenshot tools (grimblast, hyprshot, grim) found. Please install one."
  const CaptionHead := "Screenshot from "
  const SendFailedHead := "❌ Failed to send screenshot: "
  const ShotFailedHead := "❌ Failed to take screenshot on "
  const ShotFailedTail := ". All attempted methods failed. "
    + "Ensure a Wayland screenshot tool (grimblast, hyprshot, grim) is installed and configured, "
    + "and that the bot is running in an environment with access to the display server."

  function Caption(device: string, tool: string): string {
    CaptionHead + device + " via " + tool
  }

  function ShotFailedText(device: string): string {
    ShotFailedHead + device + ShotFailedTail
  }

  /** The outcome of `screenshot_command` for a given list of tools: what one reply after
      the announcement says and which photo is sent. */
  predicate ShotOutcome(device: string, path: string, tools: seq<Shooter>, run: Runner, env: Env,
                        produced: seq<string> -> bool, sendError: Option<string>, h: Handled, photo: Option<Photo>)
  {
    && h.end == Returned
    && |h.ran| <= |tools| && (forall k :: 0 <= k < |h.ran| ==> h.ran[k] == tools[k].argv)
    && (|tools| == 0 ==> h.replies == [device + TakingSuffix, NoToolsText] && photo.None?)
    // no tool took it: one failure message after every tool was tried
    && (|tools| > 0 && (forall k :: 0 <= k < |tools| ==> !Shoots(tools[k], run, env, produced)) ==>
          |h.ran| == |tools| && h.replies == [device + TakingSuffix, ShotFailedText(device)] && photo.None?)
    // some tool took it: the first such tool is named in the caption of the photo
    && ((exists k :: 0 <= k < |tools| && Shoots(tools[k], run, env, produced)) ==>
          && |h.ran| > 0
          && Shoots(tools[|h.ran| - 1], run, env, produced)
          && (forall k :: 0 <= k < |h.ran| - 1 ==> !Shoots(tools[k], run, env, produced))
          && (sendError.None? ==>
                h.replies == [device + TakingSuffix]
                && photo == Some(Photo(path, Caption(device, tools[|h.ran| - 1].name))))
          && (sendError.Some? ==>
                h.replies == [device + TakingSuffix, SendFailedHead + sendError.value] && photo.None?))
  }

  /** Lines 717 and 735-776 for the tools `tools`, which write `path`. */
  method ShootAndSend(device: string, path: string, tools: seq<Shooter>, run: Runner, env: Env,
                      produced: seq<string> -> bool, sendError: Option<string>)
    returns (h: Handled, photo: Option<Photo>)
    ensures ShotOutcome(device, path, tools, run, env, produced, sendError, h, photo)
  {
    var replies := [device + TakingSuffix];
    photo := None;
    if |tools| == 0 {
      h := Handled(replies + [NoToolsText], [], Returned);
      return;
    }
    var taken, tool, ran := TryShooters(tools, run, env, produced);
    if taken {
      if sendError.None? {
        photo := Some(Photo(path, Caption(device, tool)));
      } else {
        replies := replies + [SendFailedHead + sendError.value];
      }
    } else {
      replies := replies + [ShotFailedText(device)];
    }
    h := Handled(replies, ran, Returned);
  }

  /** `screenshot_command` after the authorisation check. `tmpDir` is the temporary
      directory, `now` the whole seconds of the clock, `env` the result of `get_wayland_env`
      and `sendError` the text of the exception sending the photo raises, if any. */
  method ScreenshotCommand(device: string, tmpDir: string, now: int, which: Which, run: Runner,
                           env: Env, produced: seq<string> -> bool, sendError: Option<string>)
    returns (h: Handled, photo: Option<Photo>)
    ensures var path := ShotPath(tmpDir, device, now);
      ShotOutcome(device, path, Shooters(which, path), run, env, produced, sendError, h, photo)
  {
    var path := ShotPath(tmpDir, device, now);
    h, photo := ShootAndSend(device, path, Shooters(which, path), run, env, produced, sendError);
  }

  /** hyprshot is told the directory and the name of the very file the others write. */
  lemma HyprshotWritesSameFile(tmpDir: string, file: string)
    requires |tmpDir| > 0 && tmpDir[|tmpDir| - 1] != '/' && '/' !in file
    ensures var hyprshot := KnownShooters(PathJoin(tmpDir, file))[1].argv;
      hyprshot[4] == tmpDir && hyprshot[6] == file
  {
    SplitJoined(tmpDir, file);
  }
}
