/** The screen lock: `lock_command` (Linux/RemoteDeactivationLinux.py:468-547). The lockers
    are tried in a fixed order; one that is not installed is recorded and skipped, the first
    one that exits with status 0 ends the search, and when none does the attempts are
    summarised in one failure message. */
module Lock {
  import opened Common
  import opened Text

  /** One candidate: the command line and the name shown to the user. */
  datatype LockMethod = LockMethod(argv: seq<string>, name: string)

  /** The candidates, in the order they are tried. */
  const LockMethods: seq<LockMethod> := [
    LockMethod(["hyprlock"], "hyprlock"),
    LockMethod(["swaylock"], "swaylock"),
    LockMethod(["hyprctl", "dispatch", "exec", "hyprlock"], "hyprctl exec hyprlock"),
    LockMethod(["loginctl", "lock-session"], "loginctl lock-session")
  ]

  predicate Runnable(methods: seq<LockMethod>) {
    forall i :: 0 <= i < |methods| ==> |methods[i].argv| > 0
  }

  function Names(methods: seq<LockMethod>): (names: seq<string>)
    ensures |names| == |methods|
    ensures forall i :: 0 <= i < |methods| ==> names[i] == methods[i].name
  {
    if |methods| == 0 then [] else Names(methods[..|methods| - 1]) + [methods[|methods| - 1].name]
  }

  /** The `status` of one recorded attempt. */
  datatype Status = NotFound | Succeeded | FailedCode(code: int) | TimedOut | Error(kind: string)
  {
    function Text(): string {
      match this
      case NotFound => "not found"
      case Succeeded => "succeeded"
      case FailedCode(code) => "failed (code " + IntText(code) + ")"
      case TimedOut => "timed out"
      case Error(kind) => "error (" + kind + ")"
    }
  }

  /** One entry of `tried_tools_details`. */
  datatype Detail = Detail(name: string, found: bool, status: Status, stderr: string)

  /** The text recorded for a locker that outlives its five-second timeout. */
  const TimeoutText := "Timeout after 5 seconds"

  /** The entry one pass of the loop records for `m`: the locker runs only when it is
      installed, and it counts as a success only when it exits with status 0. */
  function Attempt(m: LockMethod, which: Which, run: Runner, env: Env): (d: Detail)
    requires |m.argv| > 0
    ensures d.name == m.name
    ensures d.found <==> Installed(which, m.argv[0])
    ensures d.status.Succeeded? <==> d.found && run(m.argv, env).Succeeded()
    ensures !d.found ==> d.status == NotFound && d.stderr == ""
    ensures d.found ==> !d.status.NotFound?
  {
    if !Installed(which, m.argv[0]) then Detail(m.name, false, NotFound, "")
    else match run(m.argv, env)
      case Finished(code, _, err) =>
        Detail(m.name, true, if code == 0 then Succeeded else FailedCode(code), Strip(err))
      case Hangs => Detail(m.name, true, TimedOut, TimeoutText)
      case Raised(kind, message) => Detail(m.name, true, Error(kind), message)
  }

  /** The command lines the loop runs while it tries `methods`: those of the installed
      lockers, in order. */
  function Executed(methods: seq<LockMethod>, which: Which): seq<seq<string>>
    requires Runnable(methods)
  {
    if |methods| == 0 then []
    else
      var last := methods[|methods| - 1];
      Executed(methods[..|methods| - 1], which) + (if Installed(which, last.argv[0]) then [last.argv] else [])
  }

  /** At most one attempt succeeded, and only the last one can have. */
  predicate OnlyLastSucceeds(details: seq<Detail>) {
    forall i :: 0 <= i < |details| - 1 ==> !details[i].status.Succeeded?
  }

  /** The loop of lines 492-520. */
  method TryLockers(methods: seq<LockMethod>, which: Which, run: Runner, env: Env)
    returns (success: bool, details: seq<Detail>, ran: seq<seq<string>>)
    requires Runnable(methods)
    ensures |details| <= |methods|
    ensures forall i :: 0 <= i < |details| ==> details[i] == Attempt(methods[i], which, run, env)
    ensures ran == Executed(methods[..|details|], which)
    ensures OnlyLastSucceeds(details)
    ensures success <==> |details| > 0 && details[|details| - 1].status.Succeeded?
    ensures !success ==> |details| == |methods|
  {
    success := false;
    details := [];
    ran := [];
    var i := 0;
    while i < |methods| && !success
      invariant 0 <= i <= |methods| && |details| == i
      invariant forall k :: 0 <= k < i ==> details[k] == Attempt(methods[k], which, run, env)
      invariant ran == Executed(methods[..i], which)
      invariant OnlyLastSucceeds(details)
      invariant success <==> i > 0 && details[i - 1].status.Succeeded?
    {
      var m := methods[i];
      ExecutedStep(methods, which, i);
      var d := Attempt(m, which, run, env);
      if Installed(which, m.argv[0]) {
        ran := ran + [m.argv];
      }
      details := details + [d];
      success := d.status.Succeeded?;
      i := i + 1;
    }
  }

  lemma ExecutedStep(methods: seq<LockMethod>, which: Which, i: nat)
    requires Runnable(methods) && i < |methods|
    ensures Executed(methods[..i + 1], which) == Executed(methods[..i], which)
      + (if Installed(which, methods[i].argv[0]) then [methods[i].argv] else [])
  {
    assert methods[..i + 1][..i] == methods[..i];
  }

  /** The loop runs exactly the installed lockers: never one that `which` does not find,
      and every one it finds. */
  lemma {:induction false} ExecutedOnlyInstalled(methods: seq<LockMethod>, which: Which)
    requires Runnable(methods)
    ensures var ran := Executed(methods, which);
      && (forall k :: 0 <= k < |ran| ==> |ran[k]| > 0 && Installed(which, ran[k][0]))
      && (forall i :: 0 <= i < |methods| && Installed(which, methods[i].argv[0]) ==> methods[i].argv in ran)
    decreases |methods|
  {
    if |methods| > 0 {
      var init := methods[..|methods| - 1];
      ExecutedOnlyInstalled(init, which);
      var last := methods[|methods| - 1];
      var extra := if Installed(which, last.argv[0]) then [last.argv] else [];
      var ran := Executed(methods, which);
      assert ran == Executed(init, which) + extra;
      forall i | 0 <= i < |methods| && Installed(which, methods[i].argv[0])
        ensures methods[i].argv in ran
      {
        if i < |init| {
          assert init[i] == methods[i];
        } else {
          assert ran[|ran| - 1] == methods[i].argv;
        }
      }
    }
  }

  // ------------------------------------------------------------------ the failure report

  /** One entry of `found_but_failed_tools`: the name, the status and, when there is one,
      the error text. */
  function FailureEntry(d: Detail): string {
    d.name + " (" + d.status.Text() + (if d.stderr != "" then ": " + d.stderr else "") + ")"
  }

  /** `missing_tools_list` for the attempts `details`. */
  function MissingNames(details: seq<Detail>): seq<string> {
    if |details| == 0 then []
    else
      var d := details[|details| - 1];
      MissingNames(details[..|details| - 1]) + (if !d.found then [d.name] else [])
  }

  /** `found_but_failed_tools` for the attempts `details`. */
  function FoundButFailed(details: seq<Detail>): seq<string> {
    if |details| == 0 then []
    else
      var d := details[|details| - 1];
      FoundButFailed(details[..|details| - 1])
      + (if d.found && !d.status.Succeeded? then [FailureEntry(d)] else [])
  }

  /** The loop of lines 529-534 that sorts the attempts into the two lists. */
  method SortAttempts(details: seq<Detail>) returns (failed: seq<string>, missing: seq<string>)
    ensures failed == FoundButFailed(details) && missing == MissingNames(details)
  {
    failed := [];
    missing := [];
    var i := 0;
    while i < |details|
      invariant 0 <= i <= |details|
      invariant failed == FoundButFailed(details[..i]) && missing == MissingNames(details[..i])
    {
      var d := details[i];
      assert details[..i + 1][..i] == details[..i];
      if !d.found {
        missing := missing + [d.name];
      } else if !d.status.Succeeded? {
        failed := failed + [FailureEntry(d)];
      }
      i := i + 1;
    }
    assert details[..|details|] == details;
  }

  /** A name is listed as missing exactly when some attempt under that name found nothing. */
  lemma {:induction false} MissingNamesIff(details: seq<Detail>, name: string)
    ensures name in MissingNames(details) <==>
      exists i :: 0 <= i < |details| && details[i].name == name && !details[i].found
    decreases |details|
  {
    if |details| > 0 {
      var init := details[..|details| - 1];
      MissingNamesIff(init, name);
      if exists i :: 0 <= i < |init| && init[i].name == name && !init[i].found {
        var i :| 0 <= i < |init| && init[i].name == name && !init[i].found;
        assert details[i] == init[i];
      }
      if exists i :: 0 <= i < |details| && details[i].name == name && !details[i].found {
        var i :| 0 <= i < |details| && details[i].name == name && !details[i].found;
        if i < |init| { assert init[i] == details[i]; }
      }
    }
  }

  /** The failure list of attempts made one after another is the failure list of the
      first ones followed by that of the later ones. */
  lemma {:induction false} FoundButFailedConcat(a: seq<Detail>, b: seq<Detail>)
    ensures FoundButFailed(a + b) == FoundButFailed(a) + FoundButFailed(b)
    decreases |b|
  {
    if |b| == 0 {
      assert a + b == a;
    } else {
      var ab := a + b;
      var bInit := b[..|b| - 1];
      assert ab[..|ab| - 1] == a + bInit;
      assert ab[|ab| - 1] == b[|b| - 1];
      FoundButFailedConcat(a, bInit);
    }
  }

  /** The failure list has one entry per attempt that found its tool and did not succeed,
      in order: the entry of attempt `i` comes after those of the attempts before it and
      before those of the attempts after it. */
  lemma FoundButFailedEntries(details: seq<Detail>, i: nat)
    requires i < |details| && details[i].found && !details[i].status.Succeeded?
    ensures FailureEntry(details[i]) in FoundButFailed(details)
    ensures FoundButFailed(details)
         == FoundButFailed(details[..i]) + [FailureEntry(details[i])] + FoundButFailed(details[i + 1..])
  {
    SplitAround(details, i);
    FoundButFailedAround(details[..i], details[i], details[i + 1..]);
  }

  lemma SplitAround(details: seq<Detail>, i: nat)
    requires i < |details|
    ensures details == details[..i] + [details[i]] + details[i + 1..]
  {
  }

  lemma FoundButFailedAround(before: seq<Detail>, d: Detail, after: seq<Detail>)
    requires d.found && !d.status.Succeeded?
    ensures FoundButFailed(before + [d] + after) == FoundButFailed(before) + [FailureEntry(d)] + FoundButFailed(after)
    ensures FailureEntry(d) in FoundButFailed(before + [d] + after)
  {
    FoundButFailedSingle(d);
    FoundButFailedConcat(before, [d]);
    FoundButFailedConcat(before + [d], after);
    var head := FoundButFailed(before);
    assert (head + [FailureEntry(d)] + FoundButFailed(after))[|head|] == FailureEntry(d);
  }

  lemma FoundButFailedSingle(d: Detail)
    ensures FoundButFailed([d]) == if d.found && !d.status.Succeeded? then [FailureEntry(d)] else []
  {
    assert [d][..0] == [];
  }

  /** Each entry of the failure list comes from an attempt that found its tool and did not
      succeed. */
  lemma {:induction false} FoundButFailedSound(details: seq<Detail>, entry: string)
    requires entry in FoundButFailed(details)
    ensures exists i :: (0 <= i < |details| && details[i].found && !details[i].status.Succeeded?
                         && entry == FailureEntry(details[i]))
    decreases |details|
  {
    var init := details[..|details| - 1];
    if entry in FoundButFailed(init) {
      FoundButFailedSound(init, entry);
      var i :| 0 <= i < |init| && init[i].found && !init[i].status.Succeeded?
        && entry == FailureEntry(init[i]);
      assert details[i] == init[i];
    } else {
      assert entry == FailureEntry(details[|details| - 1]);
    }
  }

  predicate AnyFound(details: seq<Detail>) {
    exists i :: 0 <= i < |details| && details[i].found
  }

  const NoneFoundHead :=
    "❌ Lock failed. None of the configured lock utilities found. Please install one of: "
  const SomeFailedHead :=
    "❌ Lock failed. The following screen locking utilities were found but failed to execute correctly: "
  const SomeFailedMiddle :=
    ". This could be due to issues with the tools, their configuration, or the script's "
    + "execution environment (e.g., not having access to an active display session)."
  const MissingHead := " Additionally, these tools were not found: "
  const LockAnnouncement := ": Attempting to lock screen now... 🔒"
  const LockedSuffix := ": ✅ Screen lock initiated."
  const UnknownText := "❌ Lock failed. An unknown error occurred. Check logs for details."

  /** The sentence naming the tools that were not found, if there are any. */
  function MissingHint(missing: seq<string>): string {
    if |missing| > 0 then MissingHead + Join(", ", missing) + "." else ""
  }

  /** Which of the three failure messages of lines 536-544 is sent. */
  datatype Report =
    | NoneFound(installHint: seq<string>)
    | SomeFailed(failed: seq<string>, missing: seq<string>)
    | UnknownFailure
  {
    function Text(): string {
      match this
      case NoneFound(names) => NoneFoundHead + Join(", ", names) + "."
      case SomeFailed(failed, missing) =>
        SomeFailedHead + Join("; ", failed) + (SomeFailedMiddle + MissingHint(missing))
      case UnknownFailure => UnknownText
    }
  }

  /** The choice of lines 536-544; the hint names every configured locker. */
  function ChooseReport(details: seq<Detail>, methods: seq<LockMethod>): Report {
    if !AnyFound(details) then NoneFound(Names(methods))
    else if |FoundButFailed(details)| > 0 then SomeFailed(FoundButFailed(details), MissingNames(details))
    else UnknownFailure
  }

  /** When no locker is installed, the message names every configured locker and is never
      the found-but-failed message. */
  lemma NoneFoundNamesEveryLocker(details: seq<Detail>, methods: seq<LockMethod>, k: nat)
    requires !AnyFound(details) && k < |methods|
    ensures ChooseReport(details, methods).NoneFound?
    ensures Contains(ChooseReport(details, methods).Text(), methods[k].name)
  {
    var names := Names(methods);
    JoinContainsParts(", ", names, k);
    ContainsInContext(NoneFoundHead, Join(", ", names), ".", names[k]);
  }

  /** After a failed search the "unknown error" message cannot be chosen: if some locker was
      found, it was run and did not succeed, so the failure list is not empty. */
  lemma UnknownFailureUnreachable(details: seq<Detail>, methods: seq<LockMethod>)
    requires forall i :: 0 <= i < |details| ==> !details[i].status.Succeeded?
    ensures !ChooseReport(details, methods).UnknownFailure?
  {
    if AnyFound(details) {
      var i :| 0 <= i < |details| && details[i].found;
      FoundButFailedEntries(details, i);
    }
  }

  /** The found-but-failed message names every locker that was found and failed, with its
      status and its error text, and every locker that was not found. */
  lemma SomeFailedListsAttempts(details: seq<Detail>, methods: seq<LockMethod>, i: nat)
    requires i < |details| && AnyFound(details)
    requires forall j :: 0 <= j < |details| ==> !details[j].status.Succeeded?
    ensures ChooseReport(details, methods).SomeFailed?
    ensures var text := ChooseReport(details, methods).Text();
      && (details[i].found ==> Contains(text, FailureEntry(details[i]))
                               && Contains(text, details[i].status.Text())
                               && Contains(text, details[i].stderr))
      && (!details[i].found ==> Contains(text, details[i].name))
  {
    UnknownFailureUnreachable(details, methods);
    var failed := FoundButFailed(details);
    var missing := MissingNames(details);
    var tail := SomeFailedMiddle + MissingHint(missing);
    var text := SomeFailedHead + Join("; ", failed) + tail;
    assert ChooseReport(details, methods).Text() == text;
    if details[i].found {
      var entry := FailureEntry(details[i]);
      FoundButFailedEntries(details, i);
      var k :| 0 <= k < |failed| && failed[k] == entry;
      JoinContainsParts("; ", failed, k);
      ContainsInContext(SomeFailedHead, Join("; ", failed), tail, entry);
      EntryMentions(details[i]);
      ContainsTransitive(text, entry, details[i].status.Text());
      ContainsTransitive(text, entry, details[i].stderr);
    } else {
      var name := details[i].name;
      MissingNamesIff(details, name);
      var k :| 0 <= k < |missing| && missing[k] == name;
      JoinContainsParts(", ", missing, k);
      ContainsInContext(MissingHead, Join(", ", missing), ".", name);
      ContainsInSuffix(SomeFailedMiddle, MissingHint(missing), name);
      ContainsInSuffix(SomeFailedHead + Join("; ", failed), tail, name);
    }
  }

  /** An entry of the failure list shows the attempt's status and its error text. */
  lemma EntryMentions(d: Detail)
    ensures Contains(FailureEntry(d), d.status.Text())
    ensures Contains(FailureEntry(d), d.stderr)
  {
    var rest := if d.stderr != "" then ": " + d.stderr else "";
    assert FailureEntry(d) == (d.name + " (") + d.status.Text() + (rest + ")");
    ContainsSelf(d.status.Text());
    ContainsInContext(d.name + " (", d.status.Text(), rest + ")", d.status.Text());
    if d.stderr != "" {
      ContainsSelf(d.stderr);
      assert FailureEntry(d) == (d.name + " (" + d.status.Text() + ": ") + d.stderr + ")";
      ContainsInContext(d.name + " (" + d.status.Text() + ": ", d.stderr, ")", d.stderr);
    } else {
      assert StartsWith(FailureEntry(d), d.stderr);
    }
  }

  // ------------------------------------------------------------------ the handler

  /** `lock_command` after the authorisation check: the replies it sends, the command
      lines it runs in the environment `env` that `get_wayland_env` produced, and the
      attempts it records. `locked` says whether a locker reported success. */
  method LockCommand(device: string, which: Which, run: Runner, env: Env)
    returns (locked: bool, replies: seq<string>, ran: seq<seq<string>>, details: seq<Detail>)
    ensures locked <==> exists i :: 0 <= i < |LockMethods| && Installed(which, LockMethods[i].argv[0])
                                 && run(LockMethods[i].argv, env).Succeeded()
    ensures |replies| == 2 && replies[0] == device + LockAnnouncement
    ensures locked ==> replies[1] == device + LockedSuffix
    ensures |details| <= |LockMethods|
    ensures !locked ==> (|details| == |LockMethods|
                         && replies[1] == ChooseReport(details, LockMethods).Text()
                         && !ChooseReport(details, LockMethods).UnknownFailure?)
    ensures forall k :: 0 <= k < |ran| ==> |ran[k]| > 0 && Installed(which, ran[k][0])
    ensures forall i :: 0 <= i < |details| ==> details[i] == Attempt(LockMethods[i], which, run, env)
    // the search stops at the first locker that succeeds
    ensures ran == Executed(LockMethods[..|details|], which)
    ensures OnlyLastSucceeds(details)
    ensures locked <==> |details| > 0 && details[|details| - 1].status.Succeeded?
  {
    assert Runnable(LockMethods);
    locked, details, ran := TryLockers(LockMethods, which, run, env);
    ExecutedOnlyInstalled(LockMethods[..|details|], which);
    replies := [device + LockAnnouncement];
    if locked {
      replies := replies + [device + LockedSuffix];
    } else {
      UnknownFailureUnreachable(details, LockMethods);
      replies := replies + [ChooseReport(details, LockMethods).Text()];
      forall i | 0 <= i < |LockMethods| && Installed(which, LockMethods[i].argv[0])
        ensures !run(LockMethods[i].argv, env).Succeeded()
      {
        assert !details[i].status.Succeeded?;
      }
    }
  }
}
