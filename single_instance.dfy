/** The single-instance guard: the marker file that records the agent's process ID
    (`check_single_instance` and `cleanup`, Linux/RemoteDeactivationLinux.py:69-129). */
module SingleInstance {
  import opened Common
  import opened Text

  /** The marker file as the guard finds it: absent, present but unreadable (the read
      raised), or present with the given text. */
  datatype MarkerFile = Missing | Unreadable(error: string) | Holds(text: string)

  /** What `os.kill(pid, 0)` and `psutil.Process(pid)` report about a PID. */
  datatype ProcessView =
    | NotRunning                 // `os.kill(pid, 0)` raised OSError
    | Running(info: ProcessInfo) // the probe succeeded; what psutil then said

  datatype ProcessInfo =
    | Described(name: string, cmdline: seq<string>)
    | NoSuchProcess
    | AccessDenied
    | Failed(error: string)      // any other exception while asking psutil

  /** Why a start went ahead, one per message the guard logs. */
  datatype StaleReason =
    | NoMarker
    | InvalidPid
    | OtherProgram(pid: int)
    | Vanished(pid: int)
    | NotAlive(pid: int)
    | CheckFailed(error: string)

  datatype StartDecision = AlreadyRunning(pid: int) | Started(reason: StaleReason)

  /** The test of line 91: a process named like Python with a command-line part
      naming the script. */
  predicate SameScript(info: ProcessInfo, tag: string) {
    info.Described? && Contains(info.name, "python")
    && exists k :: 0 <= k < |info.cmdline| && Contains(info.cmdline[k], tag)
  }

  /** When `check_single_instance` exits instead of starting: the marker holds a PID that
      is alive and, by the test of line 91, is this script. */
  predicate RefusesStart(marker: MarkerFile, procs: int -> ProcessView, tag: string) {
    && marker.Holds?
    && ParseInt(marker.text).Some?
    && procs(ParseInt(marker.text).value).Running?
    && SameScript(procs(ParseInt(marker.text).value).info, tag)
  }

  /** The marker file together with the identity of the process that owns the guard. */
  class PidMarker {
    var file: MarkerFile
    const ownPid: int
    /** The command-line text by which a running copy of the agent is recognised. */
    const scriptTag: string

    constructor (file0: MarkerFile, pid: int, tag: string)
      ensures file == file0 && ownPid == pid && scriptTag == tag
    {
      file := file0;
      ownPid := pid;
      scriptTag := tag;
    }

    /** `check_single_instance`: refuse while a live copy of the agent holds the marker,
        otherwise treat the marker as stale and overwrite it with this process's PID. */
    method CheckSingleInstance(procs: int -> ProcessView) returns (d: StartDecision)
      modifies this
      ensures d.AlreadyRunning? <==> RefusesStart(old(file), procs, scriptTag)
      ensures d.AlreadyRunning? ==> file == old(file) && Some(d.pid) == ParseInt(old(file).text)
      ensures d.Started? ==> file == Holds(IntText(ownPid))
      ensures old(file).Missing? ==> d == Started(NoMarker)
      ensures old(file).Unreadable? ==> d == Started(CheckFailed(old(file).error))
      ensures old(file).Holds? && ParseInt(old(file).text).None? ==> d == Started(InvalidPid)
    {
      match file {
        case Missing =>
          d := Started(NoMarker);
        case Unreadable(e) =>
          d := Started(CheckFailed(e));
        case Holds(text) =>
          var parsed := ParseInt(text);
          if parsed.None? {
            d := Started(InvalidPid);
          } else {
            var pid := parsed.value;
            match procs(pid) {
              case NotRunning =>
                d := Started(NotAlive(pid));
              case Running(info) =>
                match info {
                  case Described(name, cmdline) =>
                    if SameScript(info, scriptTag) {
                      d := AlreadyRunning(pid);
                    } else {
                      d := Started(OtherProgram(pid));
                    }
                  case NoSuchProcess =>
                    d := Started(Vanished(pid));
                  case AccessDenied =>
                    d := Started(Vanished(pid));
                  case Failed(e) =>
                    d := Started(CheckFailed(e));
                }
            }
          }
      }
      if d.Started? {
        file := Holds(IntText(ownPid));
      }
    }

    /** `cleanup`: remove the marker only when it holds this process's own PID; any
        failure (including a failing removal) is swallowed. */
    method Cleanup(removalSucceeds: bool) returns (removed: bool)
      modifies this
      ensures removed <==> old(file).Holds? && ParseInt(old(file).text) == Some(ownPid) && removalSucceeds
      ensures file == if removed then Missing else old(file)
    {
      removed := false;
      if file.Holds? {
        var parsed := ParseInt(file.text);
        if parsed == Some(ownPid) && removalSucceeds {
          file := Missing;
          removed := true;
        }
      }
    }

    /** The guard over a whole run of the agent: the check at start-up, then the
        cleanup registered with `atexit`, which runs at every normal interpreter exit,
        a refused start included. */
    method Lifecycle(procs: int -> ProcessView, removalSucceeds: bool) returns (d: StartDecision)
      modifies this
      ensures d.AlreadyRunning? <==> RefusesStart(old(file), procs, scriptTag)
      ensures d.Started? ==> file == (if removalSucceeds then Missing else Holds(IntText(ownPid)))
      ensures d.AlreadyRunning? && d.pid != ownPid ==> file == old(file)
    {
      d := CheckSingleInstance(procs);
      var removed := Cleanup(removalSucceeds);
      IntTextRoundTrip(ownPid);
    }
  }

  // ------------------------------------------------------------------ the script name

  /** The text line 91 looks for. */
  const WrittenScriptTag := "RemoteDeactivation.py"
  /** The name of the file that holds the Linux agent. */
  const ScriptFileName := "RemoteDeactivationLinux.py"

  /** A Python process started on the Linux agent's file, by bare name or by path. */
  predicate RunsThisScript(info: ProcessInfo) {
    info.Described? && Contains(info.name, "python")
    && exists k :: 0 <= k < |info.cmdline| && IsScriptArgument(info.cmdline[k])
  }

  predicate IsScriptArgument(arg: string) {
    arg == ScriptFileName
    || (|arg| > |ScriptFileName| && arg[|arg| - |ScriptFileName| - 1..] == "/" + ScriptFileName)
  }

  /** As written, the test of line 91 does not recognise the Linux agent started as
      `python3 RemoteDeactivationLinux.py`, so a second copy overwrites the marker of a
      running first copy instead of refusing to start. */
  lemma WrittenTagMissesRunningAgent()
    ensures var info := Described("python3", ["python3", ScriptFileName]);
      RunsThisScript(info) && !SameScript(info, WrittenScriptTag)
  {
    var cmdline := ["python3", ScriptFileName];
    PythonInterpreterName();
    assert IsScriptArgument(cmdline[1]);
    WrittenTagNotInName("python3");
    WrittenTagNotInName(ScriptFileName);
    NoArgumentContains(cmdline, WrittenScriptTag);
  }

  lemma PythonInterpreterName()
    ensures Contains("python3", "python")
  {
    assert StartsWith("python3", "python");
  }

  lemma NoArgumentContains(cmdline: seq<string>, tag: string)
    requires |cmdline| == 2 && !Contains(cmdline[0], tag) && !Contains(cmdline[1], tag)
    ensures !exists k :: 0 <= k < |cmdline| && Contains(cmdline[k], tag)
  {
  }

  lemma WrittenTagNotInName(arg: string)
    requires arg == "python3" || arg == ScriptFileName
    ensures !Contains(arg, WrittenScriptTag)
  {
    var tag := WrittenScriptTag;
    assert |tag| == 21 && tag[0] == 'R' && tag[18] == '.';
    if arg == ScriptFileName {
      assert |arg| == 26 && arg[5] == 'e';
      assert forall i :: 18 <= i < 23 ==> arg[i] != '.';
    }
    NoOccurrence(arg, tag);
  }

  /** A 21-character text whose character 18 is a dot occurs in neither a shorter text nor
      a 26-character text with no dot in positions 18 to 22 and a different character 5. */
  lemma NoOccurrence(arg: string, tag: string)
    requires |tag| == 21 && tag[18] == '.'
    requires |arg| < 21 || (|arg| == 26 && arg[5] != tag[0] && forall i :: 18 <= i < 23 ==> arg[i] != '.')
    ensures !Contains(arg, tag)
  {
    ContainsIff(arg, tag);
    if |arg| >= 21 {
      forall i | OccursAt(arg, tag, i) ensures false {
      }
    }
  }

  /** The text the test evidently means to look for. */
  const IntendedScriptTag := ScriptFileName

  /** With the file's own name as the tag, every running copy of the agent is recognised,
      so a live first copy makes a second one refuse to start. */
  lemma IntendedTagFindsRunningAgent(marker: MarkerFile, procs: int -> ProcessView)
    requires marker.Holds? && ParseInt(marker.text).Some?
    requires procs(ParseInt(marker.text).value).Running?
    requires RunsThisScript(procs(ParseInt(marker.text).value).info)
    ensures RefusesStart(marker, procs, IntendedScriptTag)
  {
    var info := procs(ParseInt(marker.text).value).info;
    var k :| 0 <= k < |info.cmdline| && IsScriptArgument(info.cmdline[k]);
    var arg := info.cmdline[k];
    if arg == ScriptFileName {
      ContainsSelf(arg);
    } else {
      assert arg[|arg| - |ScriptFileName|..] == ScriptFileName;
      ContainsSuffix(arg, ScriptFileName);
    }
  }
}
