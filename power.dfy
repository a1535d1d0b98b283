/** Powering the machine off and back on: `run_command`, `shutdown_command`,
    `restart_command`, `shutdown_in_command` and `cancel_shutdown_command`
    (Linux/RemoteDeactivationLinux.py:153-173 and 280-465). */
module Power {
  import opened Common
  import opened Text

  // ------------------------------------------------------------------ run_command

  /** What `run_command` gives back: the success flag with the stripped output streams,
      or an exception it does not catch, or no answer at all (it has no timeout). */
  datatype CommandResult =
    | Ran(success: bool, stdout: string, stderr: string)
    | Escapes(kind: string, message: string)
    | NoAnswer

  const NotFoundPrefix := "Command not found: "

  /** `run_command(argv)` given what running `argv` does: a failing exit status and a
      missing program are both reported as an unsuccessful run; any other exception
      escapes. */
  function RunCommand(argv: seq<string>, outcome: RunOutcome): (r: CommandResult)
    requires |argv| > 0
    ensures (r.Ran? && r.success) <==> outcome.Succeeded()
    ensures r.Ran? <==> outcome.Finished? || (outcome.Raised? && outcome.kind == FileNotFound)
    ensures r.Escapes? <==> outcome.Raised? && outcome.kind != FileNotFound
    ensures r.NoAnswer? <==> outcome.Hangs?
  {
    match outcome
    case Finished(code, out, err) => Ran(code == 0, Strip(out), Strip(err))
    case Hangs => NoAnswer
    case Raised(kind, message) =>
      if kind == FileNotFound then Ran(false, "", NotFoundPrefix + argv[0])
      else Escapes(kind, message)
  }

  /** A missing program is reported on the error stream by name. */
  lemma MissingProgramNamed(argv: seq<string>, message: string)
    requires |argv| > 0
    ensures var r := RunCommand(argv, Raised(FileNotFound, message));
      r.stdout == "" && StartsWith(r.stderr, NotFoundPrefix) && Contains(r.stderr, argv[0])
  {
    var text := NotFoundPrefix + argv[0];
    assert text[..|NotFoundPrefix|] == NotFoundPrefix;
    ContainsSuffix(text, argv[0]);
  }

  // ------------------------------------------------------------------ the direct power methods

  /** One way of powering off or rebooting: the command line and its name in the log. */
  datatype PowerMethod = PowerMethod(argv: seq<string>, name: string)

  const ShutdownMethods: seq<PowerMethod> := [
    PowerMethod(["loginctl", "poweroff"], "loginctl direct"),
    PowerMethod(["systemctl", "poweroff"], "systemctl direct"),
    PowerMethod(["dbus-send", "--system", "--print-reply", "--dest=org.freedesktop.login1",
                 "/org/freedesktop/login1", "org.freedesktop.login1.Manager.PowerOff", "boolean:false"],
                "D-Bus system")
  ]

  const RestartMethods: seq<PowerMethod> := [
    PowerMethod(["loginctl", "reboot"], "loginctl direct"),
    PowerMethod(["systemctl", "reboot"], "systemctl direct"),
    PowerMethod(["dbus-send", "--system", "--print-reply", "--dest=org.freedesktop.login1",
                 "/org/freedesktop/login1", "org.freedesktop.login1.Manager.Reboot", "boolean:false"],
                "D-Bus system")
  ]

  predicate Runnable(methods: seq<PowerMethod>) {
    forall i :: 0 <= i < |methods| ==> |methods[i].argv| > 0
  }

  /** How the loop over the power methods ends. */
  datatype ChainEnd =
    | Initiated(name: string)               // a method exited with status 0
    | AllFailed                             // every method was run and failed
    | ChainEscaped(kind: string, message: string)
    | ChainBlocked

  /** The end of the loop of lines 302-321 over `methods`, given what each run does:
      `run_command` reports success for exit status 0, an unsuccessful run for any other
      status or a missing program, and lets every other exception escape. */
  function ChainResult(methods: seq<PowerMethod>, run: Runner, env: Env): ChainEnd
    decreases |methods|
  {
    if |methods| == 0 then AllFailed
    else
      var o := run(methods[0].argv, env);
      if o.Succeeded() then Initiated(methods[0].name)
      else if o.Finished? || o.ProgramMissing() then ChainResult(methods[1..], run, env)
      else if o.Raised? then ChainEscaped(o.kind, o.message)
      else ChainBlocked
  }

  /** The loop of lines 302-321 (and 445-458): run each method in turn until one succeeds.
      `ran` lists the command lines started: every one but the last failed, and the last
      one failed too only when every method was run. */
  method TryPowerMethods(methods: seq<PowerMethod>, run: Runner, env: Env)
    returns (end: ChainEnd, ran: seq<seq<string>>)
    requires Runnable(methods)
    ensures end == ChainResult(methods, run, env)
    ensures |ran| <= |methods| && forall k :: 0 <= k < |ran| ==> ran[k] == methods[k].argv
    ensures end.AllFailed? ==> |ran| == |methods|
    ensures end.Initiated? ==> |ran| > 0 && end.name == methods[|ran| - 1].name
    ensures end.Initiated? ==> |ran| > 0 && run(methods[|ran| - 1].argv, env).Succeeded()
    ensures forall k :: 0 <= k < |ran| - 1 ==> FailedRun(methods[k], run, env)
    ensures || (|ran| == |methods| && forall k :: 0 <= k < |methods| ==> FailedRun(methods[k], run, env))
            || (|ran| > 0 && !FailedRun(methods[|ran| - 1], run, env))
  {
    var i := 0;
    ran := [];
    end := AllFailed;
    while i < |methods|
      invariant 0 <= i <= |methods| && |ran| == i
      invariant forall k :: 0 <= k < i ==> ran[k] == methods[k].argv
      invariant forall k :: 0 <= k < i ==> FailedRun(methods[k], run, env)
      invariant ChainResult(methods, run, env) == ChainResult(methods[i..], run, env)
      decreases |methods| - i
    {
      var m := methods[i];
      assert methods[i..][1..] == methods[i + 1..];
      ran := ran + [m.argv];
      match RunCommand(m.argv, run(m.argv, env)) {
        case Ran(success, _, _) =>
          if success {
            end := Initiated(m.name);
            return;
          }
        case Escapes(kind, message) =>
          end := ChainEscaped(kind, message);
          return;
        case NoAnswer =>
          end := ChainBlocked;
          return;
      }
      i := i + 1;
    }
  }

  /** The loop initiates the first method that succeeds, after every earlier one ran and
      failed; it reports that all failed exactly when every method ran and failed. */
  lemma {:induction false} ChainFirstSuccess(methods: seq<PowerMethod>, run: Runner, env: Env)
    requires Runnable(methods)
    ensures var end := ChainResult(methods, run, env);
      && (end.AllFailed? <==> forall i :: 0 <= i < |methods| ==> FailedRun(methods[i], run, env))
      && (end.Initiated? ==> exists i :: (0 <= i < |methods| && end.name == methods[i].name
            && run(methods[i].argv, env).Succeeded()
            && forall j :: 0 <= j < i ==> FailedRun(methods[j], run, env)))
    decreases |methods|
  {
    if |methods| > 0 {
      var rest := methods[1..];
      ChainFirstSuccess(rest, run, env);
      var end := ChainResult(methods, run, env);
      forall i | 1 <= i < |methods| ensures methods[i] == rest[i - 1] { }
      if FailedRun(methods[0], run, env) {
        assert end == ChainResult(rest, run, env);
        if end.Initiated? {
          var i :| 0 <= i < |rest| && end.name == rest[i].name
            && run(rest[i].argv, env).Succeeded()
            && forall j :: 0 <= j < i ==> FailedRun(rest[j], run, env);
          assert forall j :: 0 <= j < i + 1 ==> FailedRun(methods[j], run, env) by {
            forall j | 0 <= j < i + 1 ensures FailedRun(methods[j], run, env) {
              if j > 0 { assert methods[j] == rest[j - 1]; }
            }
          }
          assert end.name == methods[i + 1].name && run(methods[i + 1].argv, env).Succeeded();
        }
      }
    }
  }

  /** `run_command` of the method's command line reported an unsuccessful run. */
  predicate FailedRun(m: PowerMethod, run: Runner, env: Env) {
    var o := run(m.argv, env);
    (o.Finished? && o.code != 0) || o.ProgramMissing()
  }

  /** `shutdown_command` (with `ShutdownMethods`) and `restart_command` (with
      `RestartMethods`) after the authorisation check: the first reply announces the
      attempt; a second one is sent only when at least one method ran and all of them
      failed. `end` is how the loop over the methods ended. */
  method PowerCommand(device: string, reboot: bool, methods: seq<PowerMethod>, run: Runner, env: Env)
    returns (h: Handled, end: ChainEnd)
    requires Runnable(methods)
    ensures end == ChainResult(methods, run, env)
    ensures |h.replies| >= 1 && h.replies[0] == Announcement(device, reboot)
    ensures end.AllFailed? && |methods| > 0 ==> |h.replies| == 2 && h.replies[1] == FailureMessage(device, reboot)
    ensures !(end.AllFailed? && |methods| > 0) ==> |h.replies| == 1
    ensures h.end.Returned? <==> end.Initiated? || end.AllFailed?
    ensures h.end.Escaped? <==> end.ChainEscaped?
    ensures end.ChainEscaped? ==> h.end == Escaped(end.kind, end.message)
    ensures |h.ran| <= |methods| && forall k :: 0 <= k < |h.ran| ==> h.ran[k] == methods[k].argv
    ensures end.Initiated? ==> |h.ran| > 0 && run(methods[|h.ran| - 1].argv, env).Succeeded()
    ensures forall k :: 0 <= k < |h.ran| - 1 ==> FailedRun(methods[k], run, env)
    ensures || (|h.ran| == |methods| && forall k :: 0 <= k < |methods| ==> FailedRun(methods[k], run, env))
            || (|h.ran| > 0 && !FailedRun(methods[|h.ran| - 1], run, env))
  {
    var ran;
    end, ran := TryPowerMethods(methods, run, env);
    var replies := [Announcement(device, reboot)];
    match end {
      case Initiated(_) => h := Handled(replies, ran, Returned);
      case AllFailed =>
        // `method_failed` is set only inside the loop, so an empty list sends no failure reply
        if |ran| > 0 {
          replies := replies + [FailureMessage(device, reboot)];
        }
        h := Handled(replies, ran, Returned);
      case ChainEscaped(kind, message) => h := Handled(replies, ran, Escaped(kind, message));
      case ChainBlocked => h := Handled(replies, ran, Blocked);
    }
  }

  /** `shutdown_command`: the failure reply follows the announcement exactly when every
      shutdown method ran and failed. */
  method ShutdownCommand(device: string, run: Runner, env: Env) returns (h: Handled)
    ensures |h.replies| >= 1 && h.replies[0] == Announcement(device, false)
    ensures |h.replies| == 2 <==> forall i :: 0 <= i < |ShutdownMethods| ==> FailedRun(ShutdownMethods[i], run, env)
    ensures |h.replies| == 2 ==> h.replies[1] == FailureMessage(device, false) && h.end.Returned?
    ensures |h.replies| <= 2
    ensures |h.ran| <= |ShutdownMethods| && forall k :: 0 <= k < |h.ran| ==> h.ran[k] == ShutdownMethods[k].argv
    ensures forall k :: 0 <= k < |h.ran| - 1 ==> FailedRun(ShutdownMethods[k], run, env)
    ensures || (|h.ran| == |ShutdownMethods| && forall k :: 0 <= k < |ShutdownMethods| ==> FailedRun(ShutdownMethods[k], run, env))
            || (|h.ran| > 0 && !FailedRun(ShutdownMethods[|h.ran| - 1], run, env))
    ensures h.end.Returned? && |h.replies| == 1 ==> |h.ran| > 0 && run(ShutdownMethods[|h.ran| - 1].argv, env).Succeeded()
  {
    assert Runnable(ShutdownMethods);
    var end;
    h, end := PowerCommand(device, false, ShutdownMethods, run, env);
    ChainFirstSuccess(ShutdownMethods, run, env);
  }

  /** `restart_command`: the same chain over the reboot methods. */
  method RestartCommand(device: string, run: Runner, env: Env) returns (h: Handled)
    ensures |h.replies| >= 1 && h.replies[0] == Announcement(device, true)
    ensures |h.replies| == 2 <==> forall i :: 0 <= i < |RestartMethods| ==> FailedRun(RestartMethods[i], run, env)
    ensures |h.replies| == 2 ==> h.replies[1] == FailureMessage(device, true) && h.end.Returned?
    ensures |h.replies| <= 2
    ensures |h.ran| <= |RestartMethods| && forall k :: 0 <= k < |h.ran| ==> h.ran[k] == RestartMethods[k].argv
    ensures forall k :: 0 <= k < |h.ran| - 1 ==> FailedRun(RestartMethods[k], run, env)
    ensures || (|h.ran| == |RestartMethods| && forall k :: 0 <= k < |RestartMethods| ==> FailedRun(RestartMethods[k], run, env))
            || (|h.ran| > 0 && !FailedRun(RestartMethods[|h.ran| - 1], run, env))
    ensures h.end.Returned? && |h.replies| == 1 ==> |h.ran| > 0 && run(RestartMethods[|h.ran| - 1].argv, env).Succeeded()
  {
    assert Runnable(RestartMethods);
    var end;
    h, end := PowerCommand(device, true, RestartMethods, run, env);
    ChainFirstSuccess(RestartMethods, run, env);
  }

  const RestartAnnouncement := ": Attempting to restart now... 🔁💻"
  const ShutdownAnnouncement := ": Attempting to shut down now... 🧨💤"

  function Announcement(device: string, reboot: bool): string {
    device + if reboot then RestartAnnouncement else ShutdownAnnouncement
  }

  const RestartFailureHead := "❌ Restart failed on "
  const RestartFailureTail := ". All attempted methods failed. "
      + "This usually indicates permission issues (Polkit rules may be required) "
      + "or problems with the system's power management tools."
  const ShutdownFailureHead := "❌ Shutdown failed on "
  const ShutdownFailureTail := ". All attempted methods failed. "
      + "This usually indicates permission issues (Polkit rules for the bot's user may be required for 'loginctl' or D-Bus actions) "
      + "or problems with the system's power management tools."

  function FailureMessage(device: string, reboot: bool): string {
    if reboot then RestartFailureHead + device + RestartFailureTail
    else ShutdownFailureHead + device + ShutdownFailureTail
  }

  // ------------------------------------------------------------------ shutdown_in

  /** The three ways `shutdown_in` can treat its arguments. */
  datatype DelayDecision = Usage | NotPositive | Schedule(seconds: nat)

  /** Lines 336-343: the first argument must be all digits and at least 1. */
  function DecideDelay(args: seq<string>): DelayDecision {
    if |args| == 0 || !AllDigits(args[0]) then Usage
    else if DecimalValue(args[0]) <= 0 then NotPositive
    else Schedule(DecimalValue(args[0]))
  }

  /** Which arguments lead where: missing or non-digit arguments give the usage text, an
      all-zero number the positive-number text, and only a value of at least 1 is
      scheduled, for exactly that many seconds. */
  lemma DelayDecisionCases(args: seq<string>)
    ensures DecideDelay(args).Usage? <==>
      |args| == 0 || |args[0]| == 0 || exists i :: 0 <= i < |args[0]| && !('0' <= args[0][i] <= '9')
    ensures DecideDelay(args).NotPositive? <==>
      |args| > 0 && |args[0]| > 0 && forall i :: 0 <= i < |args[0]| ==> args[0][i] == '0'
    ensures DecideDelay(args).Schedule? <==>
      |args| > 0 && AllDigits(args[0]) && exists i :: 0 <= i < |args[0]| && args[0][i] != '0'
    ensures DecideDelay(args).Schedule? ==>
      DecideDelay(args).seconds >= 1 && DecideDelay(args).seconds == DecimalValue(args[0])
  {
    if |args| > 0 && AllDigits(args[0]) {
      DecimalValueZero(args[0]);
    }
  }

  /** Every positive number written in decimal is scheduled for exactly that many seconds,
      whatever follows it; a signed number such as `-5` gets the usage text. */
  lemma DelayRoundTrip(n: nat, rest: seq<string>, s: string)
    requires n >= 1
    ensures DecideDelay([NatText(n)] + rest) == Schedule(n)
    ensures DecideDelay(["-" + s] + rest) == Usage
  {
    NatTextRoundTrip(n);
    var signed := "-" + s;
    assert !IsDigit(signed[0]);
  }

  /** The shell line of line 359. */
  function ScheduleLine(seconds: nat, which: Which): string {
    "nohup " + PathOr(which, "sleep") + " " + NatText(seconds) + " && "
    + PathOr(which, "loginctl") + " poweroff &"
  }

  /** `Popen(line, shell=True)` runs the line through the shell. */
  function ShellArgv(line: string): seq<string> {
    ["/bin/sh", "-c", line]
  }

  const UsageText := "Usage: /shutdown_in [seconds]"
  const NotPositiveText := "Please provide a positive number of seconds."

  const ScheduledHead := ": Scheduled shutdown in "
  const ScheduledTail := " seconds... ⏳"

  function ScheduledText(device: string, seconds: nat): string {
    device + ScheduledHead + NatText(seconds) + ScheduledTail
  }

  const SpawnFailedHead := "❌ Scheduled shutdown failed to start: "

  /** `shutdown_in_command` after the authorisation check, with `which` available at
      lines 354-355. `spawnError` is the text of the exception `Popen` raises, if any; the
      shell line is listed as tried to start either way. */
  function ShutdownIn(device: string, args: seq<string>, which: Which, spawnError: Option<string>): (h: Handled)
    ensures h.end == Returned
    ensures |h.ran| <= 1 && (|h.ran| == 1 <==> DecideDelay(args).Schedule?)
    ensures DecideDelay(args).Schedule? ==>
      var n := DecideDelay(args).seconds;
      && h.ran[0] == ShellArgv(ScheduleLine(n, which))
      && |h.replies| == (if spawnError.Some? then 2 else 1)
      && h.replies[0] == ScheduledText(device, n)
      && (spawnError.Some? ==> h.replies[1] == SpawnFailedHead + spawnError.value)
    ensures DecideDelay(args).Usage? ==> h.replies == [UsageText]
    ensures DecideDelay(args).NotPositive? ==> h.replies == [NotPositiveText]
  {
    match DecideDelay(args)
    case Usage => Handled([UsageText], [], Returned)
    case NotPositive => Handled([NotPositiveText], [], Returned)
    case Schedule(n) =>
      var announce := [ScheduledText(device, n)];
      var failure := if spawnError.Some? then [SpawnFailedHead + spawnError.value] else [];
      Handled(announce + failure, [ShellArgv(ScheduleLine(n, which))], Returned)
  }

  /** The scheduled line waits the requested number of seconds and then powers off. */
  lemma ScheduleLineWaitsThenPowersOff(seconds: nat, which: Which)
    ensures Contains(ScheduleLine(seconds, which), " " + NatText(seconds) + " && ")
    ensures Contains(ScheduleLine(seconds, which), " poweroff &")
  {
    var line := ScheduleLine(seconds, which);
    var mid := " " + NatText(seconds) + " && ";
    var head := "nohup " + PathOr(which, "sleep");
    var tail := PathOr(which, "loginctl") + " poweroff &";
    assert line == head + mid + tail;
    ContainsSelf(mid);
    ContainsInContext(head, mid, tail, mid);
    ContainsSuffix(line, " poweroff &");
  }

  /** As written, lines 354-355 call `shutil.which` although `shutil` is imported only
      inside `check_command_exists`; the name lookup raises `NameError` right after the
      announcement, so nothing is ever scheduled. */
  function ShutdownInAsWritten(device: string, args: seq<string>): (h: Handled)
    ensures DecideDelay(args).Schedule? ==>
      h.ran == [] && h.end.Escaped? && h.end.kind == "NameError"
      && h.replies == [ScheduledText(device, DecideDelay(args).seconds)]
  {
    match DecideDelay(args)
    case Usage => Handled([UsageText], [], Returned)
    case NotPositive => Handled([NotPositiveText], [], Returned)
    case Schedule(n) =>
      Handled([ScheduledText(device, n)], [], Escaped("NameError", "name 'shutil' is not defined"))
  }

  /** The announced shutdown never happens as written, while the corrected handler starts
      the delayed power-off for the same request. */
  lemma ShutdownInAsWrittenNeverSchedules(device: string, which: Which)
    ensures ShutdownInAsWritten(device, ["60"]).ran == []
    ensures ShutdownInAsWritten(device, ["60"]).replies[0] == ScheduledText(device, 60)
    ensures ShutdownIn(device, ["60"], which, None).ran == [ShellArgv(ScheduleLine(60, which))]
  {
    assert NatText(60) == "60" by {
      assert NatText(6) == "6";
    }
    DelayRoundTrip(60, [], "");
    assert [NatText(60)] + [] == ["60"];
  }

  // ------------------------------------------------------------------ cancel_shutdown

  /** Line 389: the `pkill -f` pattern matching the scheduled line. */
  function PkillArgv(which: Which): seq<string> {
    ["pkill", "-f", PathOr(which, "sleep") + ".*" + PathOr(which, "loginctl") + " poweroff"]
  }

  const CancelShutdownArgv := ["shutdown", "-c"]

  const CanceledSuffix := ": ✅ Shutdown canceled."
  const NothingCanceledSuffix := ": ❓ No pending shutdown found or cancellation failed (check logs for details)."

  function CanceledText(device: string): string { device + CanceledSuffix }

  function NothingCanceledText(device: string): string { device + NothingCanceledSuffix }

  const PkillMissingText := "❌ `pkill` not found. Cannot cancel."

  /** How lines 393-399 read `pkill`'s exit status: 0 killed something, 1 matched nothing,
      anything else is an error; only 0 counts as a cancellation. */
  datatype PkillVerdict = KilledPending | NoMatch | PkillError(code: int)

  function ClassifyPkill(code: int): (v: PkillVerdict)
    ensures v.KilledPending? <==> code == 0
    ensures v.NoMatch? <==> code == 1
    ensures v.PkillError? ==> v.code == code && code != 0 && code != 1
  {
    if code == 0 then KilledPending else if code == 1 then NoMatch else PkillError(code)
  }

  /** Lines 410-426, after the `pkill` step, given whether that step killed the pending
      line: `shutdown -c` is tried when `shutdown` is installed, and the reply says whether
      either step cancelled something. */
  function CancelTail(device: string, killed: bool, which: Which, run: Runner, env: Env,
                      before: seq<seq<string>>): (h: Handled)
    ensures Installed(which, "shutdown") ==> h.ran == before + [CancelShutdownArgv]
    ensures !Installed(which, "shutdown") ==> h.ran == before
    ensures h.end.Returned? <==>
              !Installed(which, "shutdown") || run(CancelShutdownArgv, env).Finished?
              || run(CancelShutdownArgv, env).ProgramMissing()
    ensures var cancelled := killed || (Installed(which, "shutdown") && run(CancelShutdownArgv, env).Succeeded());
      && (h.end.Returned? && cancelled ==> h.replies == [CanceledText(device)])
      && (h.end.Returned? && !cancelled ==> h.replies == [NothingCanceledText(device)])
      && (!h.end.Returned? ==> h.replies == [])
  {
    if !Installed(which, "shutdown") then
      Handled([if killed then CanceledText(device) else NothingCanceledText(device)], before, Returned)
    else
      var ran := before + [CancelShutdownArgv];
      var o := run(CancelShutdownArgv, env);
      if o.Finished? || o.ProgramMissing() then
        // `run_command` reports success exactly for exit status 0
        Handled([if killed || o.Succeeded() then CanceledText(device) else NothingCanceledText(device)], ran, Returned)
      else if o.Raised? then Handled([], ran, Escaped(o.kind, o.message))
      else Handled([], ran, Blocked)
  }

  /** `cancel_shutdown_command` after the authorisation check, with `which` available at
      line 389. `pkill` has no timeout; a missing `pkill` ends the handler early, any other
      exception is logged and the handler goes on. */
  function CancelShutdown(device: string, which: Which, run: Runner, env: Env): (h: Handled)
    ensures |h.ran| >= 1 && h.ran[0] == PkillArgv(which)
    ensures run(PkillArgv(which), env).ProgramMissing() ==> h == Handled([PkillMissingText], [PkillArgv(which)], Returned)
    ensures run(PkillArgv(which), env).Succeeded() && h.end.Returned? ==> h.replies == [CanceledText(device)]
    ensures (!run(PkillArgv(which), env).ProgramMissing() && !run(PkillArgv(which), env).Succeeded()
             && !(Installed(which, "shutdown") && run(CancelShutdownArgv, env).Succeeded())
             && h.end.Returned?) ==> h.replies == [NothingCanceledText(device)]
    // a `pkill` that never returns blocks the handler before anything else happens
    ensures run(PkillArgv(which), env).Hangs? ==> h == Handled([], [PkillArgv(which)], Blocked)
    // otherwise, unless `pkill` is missing, `shutdown -c` follows exactly when it is installed
    ensures |h.ran| <= 2
    ensures |h.ran| == 2 <==> (!run(PkillArgv(which), env).Hangs? && !run(PkillArgv(which), env).ProgramMissing()
                               && Installed(which, "shutdown"))
    ensures |h.ran| == 2 ==> h.ran[1] == CancelShutdownArgv
    // either step alone is enough to report the cancellation
    ensures (!run(PkillArgv(which), env).Hangs? && !run(PkillArgv(which), env).ProgramMissing()
             && Installed(which, "shutdown") && run(CancelShutdownArgv, env).Succeeded()) ==>
      h == Handled([CanceledText(device)], [PkillArgv(which), CancelShutdownArgv], Returned)
    ensures !run(PkillArgv(which), env).Hangs? && !run(PkillArgv(which), env).ProgramMissing() ==>
      h == CancelTail(device, run(PkillArgv(which), env).Succeeded(), which, run, env, [PkillArgv(which)])
  {
    var pkill := PkillArgv(which);
    match run(pkill, env)
    case Finished(code, _, _) => CancelTail(device, ClassifyPkill(code).KilledPending?, which, run, env, [pkill])
    case Hangs => Handled([], [pkill], Blocked)
    case Raised(kind, _) =>
      if kind == FileNotFound then Handled([PkillMissingText], [pkill], Returned)
      else CancelTail(device, false, which, run, env, [pkill])
  }

  /** As written, building the `pkill` line at 389 raises `NameError`; the generic handler
      at 405 swallows it, so `pkill` is never run and only `shutdown -c` can cancel. */
  function CancelShutdownAsWritten(device: string, which: Which, run: Runner, env: Env): (h: Handled)
    ensures forall k :: 0 <= k < |h.ran| ==> h.ran[k] == CancelShutdownArgv
  {
    CancelTail(device, false, which, run, env, [])
  }

  /** A pending delayed shutdown is cancelled by the corrected handler whenever `pkill`
      kills it, but never by the handler as written on a host without `shutdown`. */
  lemma CancelAsWrittenMissesPendingShutdown(device: string, which: Which, run: Runner, env: Env)
    requires !Installed(which, "shutdown")
    requires run(PkillArgv(which), env) == Finished(0, "", "")
    ensures CancelShutdown(device, which, run, env).replies == [CanceledText(device)]
    ensures CancelShutdownAsWritten(device, which, run, env).replies == [NothingCanceledText(device)]
    ensures CanceledText(device) != NothingCanceledText(device)
  {
    var sa, sb := CanceledSuffix, NothingCanceledSuffix;
    assert (device + sa)[|device| + 2] == sa[2];
    assert (device + sb)[|device| + 2] == sb[2];
  }
}
