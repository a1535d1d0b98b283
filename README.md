# Remote deactivation agent for Linux, modelled in Dafny

The Linux agent is a Telegram bot. It lets one authorised user shut down, restart, lock,
photograph or query the desktop machine it runs on. This project models the agent's
decision logic:

- **Start-up.** The configuration is read from the environment, and a PID marker file makes sure only one copy of the agent runs.
- **Session environment.** It is rebuilt for tools that need the graphical session (`XDG_RUNTIME_DIR`, `WAYLAND_DISPLAY`, `DISPLAY`, `DBUS_SESSION_BUS_ADDRESS`).
- **Fallback loops.** Several handlers try one external tool after another: power-off and reboot, screen lock, screenshot, text-to-speech and camera discovery.
- **Delayed shutdown and its cancellation.**
- **Status.** The uptime and battery parts of the status report.

Everything outside the process is an input of the model:

- `Which` is the result of the `shutil.which` lookup.
- `Runner` is what running a command line does (`RunOutcome`): it exits with a code and output, it hangs past its timeout, or it raises an exception of a named kind.
- Views of the file system give what exists at a path.

A handler's result is a `Handled` value with three parts:

- the replies it sends, in order;
- the command lines it tries to start, in order (a line is listed even when its program turns out to be missing or the start raises);
- how it ends: it returns, or an exception escapes it.

Modules:

| module | file | what it models |
|---|---|---|
| `Common` | common.dfy | option/result types, command outcomes, the `Handled` record |
| `Text` | text.dfy | the Python string operations the agent uses: `strip`, `split`, `join`, `in`, `int()`, `str()`, two-digit padding, string order |
| `Paths` | paths.dfy | `os.path.join`, `basename`, `dirname` |
| `Config` | config.dfy | environment variables, start-up validation, the authorisation gate |
| `SingleInstance` | single_instance.dfy | the PID marker: `check_single_instance`, `cleanup` |
| `SessionEnv` | session_env.dfy | `get_wayland_env` |
| `Power` | power.dfy | `run_command`, shutdown and restart, `shutdown_in`, `cancel_shutdown` |
| `Lock` | lock.dfy | `lock_command` and its failure report |
| `Status` | status.dfy | uptime, battery time left, sysfs battery fallback |
| `Screenshot` | screenshot.dfy | `screenshot_command` |
| `Speech` | speech.dfy | `say_command` |
| `Camera` | camera.dfy | the camera search of `camera_command` |

Modelling decisions:

- **Time and integers.** Clocks are whole seconds and integers are unbounded. Python's `divmod` by a positive divisor floors, as Dafny's `/` and `%` do.
- **Process checks.** The liveness check of a PID and psutil's description of a process are one input, `procs`.
- **Delayed shutdown.** The detached `sleep … && loginctl poweroff` process is represented by the shell command line that starts it.

## Model

| member | source | states |
|---|---|---|
| Config.LoadSettings | Linux/RemoteDeactivationLinux.py:37-67 | the bot starts exactly when the environment file exists, `BOT_TOKEN` is non-empty and `ALLOWED_USER_ID` parses to a non-zero integer; the settings then hold that token and integer, and the device name is `DEVICE_NAME` when set and non-empty, the host name otherwise; each error message is tied to its condition in the order checked (missing file, non-integer id, missing token, missing or zero id) |
| Config.ObeysNamedUser | Linux/RemoteDeactivationLinux.py:47-67 | with a token and the decimal text of a non-zero id in the environment, the bot starts and authorises exactly that id |
| Config.Guarded | Linux/RemoteDeactivationLinux.py:145-146 | any other user gets only "❌ Unauthorized user." and nothing runs; the allowed user gets the handler's own outcome |
| SingleInstance.PidMarker.CheckSingleInstance | Linux/RemoteDeactivationLinux.py:80-113 | the start is refused exactly when the marker holds the integer PID of a live process named like Python whose command line names the script; then the marker is untouched; in every other case (no marker, non-integer contents, dead PID, other program, vanished or inaccessible process, any error) the marker is overwritten with the own PID |
| SingleInstance.PidMarker.Cleanup | Linux/RemoteDeactivationLinux.py:115-129 | the marker is removed exactly when it holds the own PID as an integer and removal succeeds; otherwise it is left as it was |
| SingleInstance.PidMarker.Lifecycle | Linux/RemoteDeactivationLinux.py:80-133 | after a start the marker is gone (or still holds the own PID if removal failed); after a refusal a marker holding another PID is left untouched |
| SingleInstance.WrittenTagMissesRunningAgent | Linux/RemoteDeactivationLinux.py:91 | the text line 91 looks for does not occur in the command line of a running `python3 RemoteDeactivationLinux.py` |
| SingleInstance.IntendedTagFindsRunningAgent | Linux/RemoteDeactivationLinux.py:91 | with the Linux file's own name as the text looked for, a live copy of the agent always makes a second copy refuse to start |
| SessionEnv.GetWaylandEnv | Linux/RemoteDeactivationLinux.py:191-258 | no inherited variable is changed or dropped; only the three defaults and the bus address are added; absent `XDG_RUNTIME_DIR` becomes `/run/user/<uid>`, absent `DISPLAY` `:0`, absent `WAYLAND_DISPLAY` the detected display; the bus address is added exactly when `<runtime>/bus` exists and is a socket; the trail has a header and one line per variable, saying "using existing value" exactly when it was inherited |
| SessionEnv.ResolveDisplays | Linux/RemoteDeactivationLinux.py:194-234 | the runtime directory, Wayland display and X display are kept when inherited and defaulted otherwise, nothing else changes |
| SessionEnv.ResolveRuntimeDir | Linux/RemoteDeactivationLinux.py:194-200 | `XDG_RUNTIME_DIR` defaults to `/run/user/<uid>`, an inherited value is kept |
| SessionEnv.ResolveWayland | Linux/RemoteDeactivationLinux.py:202-227 | `WAYLAND_DISPLAY` is kept when inherited, otherwise set to the detected display |
| SessionEnv.ResolveDisplay | Linux/RemoteDeactivationLinux.py:229-234 | `DISPLAY` is kept when inherited, otherwise `:0` |
| SessionEnv.ResolveBus | Linux/RemoteDeactivationLinux.py:236-249 | the bus address is added, as `unix:path=<runtime>/bus`, exactly when it was absent and the runtime directory and a bus socket exist |
| SessionEnv.ResolveHyprland | Linux/RemoteDeactivationLinux.py:251-255 | the Hyprland signature is reported, never set |
| SessionEnv.WaylandChoice | Linux/RemoteDeactivationLinux.py:203-225 | a detected display is a `wayland-` link or socket of the runtime directory that is first in Python's string order; detection happens whenever the directory lists, no `stat` fails and such an entry exists; otherwise the choice is `wayland-0`, with the missing-directory line, the scan-failure line (unlistable directory or a failing `stat`) or the no-socket line |
| SessionEnv.ScanFailsIff | Linux/RemoteDeactivationLinux.py:207-213 | the scan raises exactly when `os.stat` fails on a `wayland-` entry that is not a link |
| SessionEnv.ScanSound | Linux/RemoteDeactivationLinux.py:207-213 | every name kept is a `wayland-` link or socket |
| SessionEnv.ScanComplete | Linux/RemoteDeactivationLinux.py:207-213 | a scan that does not fail keeps every `wayland-` link or socket |
| SessionEnv.ScanOutcome | Linux/RemoteDeactivationLinux.py:207-216 | the scan fails exactly on an entry whose `stat` raises; otherwise it keeps some name exactly when a `wayland-` link or socket exists |
| Text.Smallest | Linux/RemoteDeactivationLinux.py:215 | `sorted(names)[0]`: an element of the list no greater than any other |
| Text.SmallestUnique | Linux/RemoteDeactivationLinux.py:215 | any element no greater than all others is the one chosen |
| Text.LexLeqTotal | Linux/RemoteDeactivationLinux.py:215 | Python's string order compares any two strings |
| Text.LexLeqTransitive | Linux/RemoteDeactivationLinux.py:215 | Python's string order is transitive |
| Text.LexLeqAntisymmetric | Linux/RemoteDeactivationLinux.py:215 | two strings each no greater than the other are equal |
| Paths.PathJoin | Linux/RemoteDeactivationLinux.py:239 | an absolute second part replaces the first; otherwise the two parts are joined by one `/`, or by none when the first is empty or already ends with `/` |
| Paths.Basename | Linux/RemoteDeactivationLinux.py:731 | the base name has no slash and ends the path |
| Paths.Dirname | Linux/RemoteDeactivationLinux.py:731 | the directory name begins the path |
| Paths.SplitJoined | Linux/RemoteDeactivationLinux.py:719-731 | joining a directory and a plain file name and taking `dirname`/`basename` gives both back |
| Power.RunCommand | Linux/RemoteDeactivationLinux.py:153-172 | success exactly for exit status 0; a non-zero status and a missing program are unsuccessful runs; any other exception escapes; `run_command` has no timeout, so a run that hangs gives no answer |
| Power.MissingProgramNamed | Linux/RemoteDeactivationLinux.py:170-172 | a missing program is reported with empty output and an error naming it |
| Power.TryPowerMethods | Linux/RemoteDeactivationLinux.py:302-321 | the loop's end is `ChainResult` of the methods; the lines run are a prefix of the methods' lines; every line before the last one run failed, and the loop stops at the first run that does not fail (exits 0, escapes or hangs) or else has run every method; an initiated method is the last line run, which exited 0 |
| Power.ChainFirstSuccess | Linux/RemoteDeactivationLinux.py:302-321 | all methods fail exactly when each run is unsuccessful; an initiated method exited 0 after every earlier one failed |
| Power.PowerCommand | Linux/RemoteDeactivationLinux.py:280-328 | the announcement is first; the failure message follows exactly when at least one method ran and all failed; an escaping exception ends the handler; the lines started stop at the first run that does not fail, every earlier one having failed, and an initiated method's line exited 0 |
| Power.ShutdownCommand | Linux/RemoteDeactivationLinux.py:280-328 | over the three power-off methods: the announcement first, the shutdown failure message second exactly when every method ran and failed; the lines tried are a prefix of the method list that stops at the first run that does not fail, every earlier one having failed; when the handler ends with the announcement alone, the last line started exited 0 |
| Power.RestartCommand | Linux/RemoteDeactivationLinux.py:429-466 | the same over the three reboot methods, with the restart announcement and failure message, including the stop at the first run that does not fail |
| Power.DelayDecisionCases | Linux/RemoteDeactivationLinux.py:336-343 | usage exactly when the first argument is missing, empty or holds a non-digit; the positive-number text exactly when it is all `0`s (`0`, `000`); scheduling exactly when it is all digits with one non-zero, for that value, at least 1 |
| Text.DecimalValueZero | Linux/RemoteDeactivationLinux.py:340 | a digit text has the value 0 exactly when every digit is `0` |
| Power.DelayRoundTrip | Linux/RemoteDeactivationLinux.py:336-343 | the decimal text of any positive number is scheduled for exactly that number; `-N` gets the usage text |
| Power.ShutdownIn | Linux/RemoteDeactivationLinux.py:331-370 | exactly one shell line, the delayed power-off, is tried exactly when scheduling was decided, after the scheduled announcement; a second reply, "failed to start" with the exception text, comes exactly when spawning raised; the other cases give the usage or positive-number reply |
| Power.ScheduleLineWaitsThenPowersOff | Linux/RemoteDeactivationLinux.py:359 | the started line sleeps the requested seconds and then powers off |
| Power.ShutdownInAsWritten | Linux/RemoteDeactivationLinux.py:354-355 | as written, a scheduled request is announced, then `NameError` escapes and nothing runs |
| Power.ShutdownInAsWrittenNeverSchedules | Linux/RemoteDeactivationLinux.py:354-355 | for `/shutdown_in 60` the code as written starts nothing while the corrected handler starts the delayed power-off |
| Power.ClassifyPkill | Linux/RemoteDeactivationLinux.py:392-399 | `pkill` status 0 means a pending line was killed, 1 that none matched, anything else an error |
| Power.CancelTail | Linux/RemoteDeactivationLinux.py:410-426 | `shutdown -c` runs exactly when `shutdown` is installed; the reply is "canceled" when either step cancelled and "nothing canceled" otherwise |
| Power.CancelShutdown | Linux/RemoteDeactivationLinux.py:373-426 | `pkill` runs first; a missing `pkill` ends with its own reply and a hanging one blocks with no reply; otherwise `shutdown -c` follows exactly when installed, and either step succeeding gives "canceled" (so `pkill` exiting 1 with `shutdown -c` succeeding is a cancellation), neither gives "nothing canceled"; the rest is the `CancelTail` outcome with `pkill`'s success |
| Power.CancelShutdownAsWritten | Linux/RemoteDeactivationLinux.py:389 | as written, only `shutdown -c` can ever be run |
| Power.CancelAsWrittenMissesPendingShutdown | Linux/RemoteDeactivationLinux.py:389 | without `shutdown` installed, the code as written reports nothing cancelled where the corrected handler kills the pending shutdown |
| Lock.Attempt | Linux/RemoteDeactivationLinux.py:493-520 | an attempt is found exactly when `which` finds the program, succeeds exactly when found and exiting 0, and a tool not found is recorded as "not found" with empty error text |
| Lock.TryLockers | Linux/RemoteDeactivationLinux.py:492-520 | the details are the attempts of a prefix of the lockers, all of them on failure; only installed lockers run; at most the last attempt succeeded |
| Lock.ExecutedOnlyInstalled | Linux/RemoteDeactivationLinux.py:493-497 | the loop runs exactly the installed lockers |
| Lock.SortAttempts | Linux/RemoteDeactivationLinux.py:529-533 | the two lists are the found-but-failed entries and the missing names |
| Lock.MissingNamesIff | Linux/RemoteDeactivationLinux.py:530-531 | a name is listed missing exactly when an attempt of that name found nothing |
| Lock.FoundButFailedEntries | Linux/RemoteDeactivationLinux.py:529-533 | each found attempt that did not succeed has its entry, placed after the entries of the earlier attempts and before those of the later ones |
| Lock.FoundButFailedConcat | Linux/RemoteDeactivationLinux.py:529-533 | the failure list of two runs of attempts is the first run's list followed by the second's |
| Lock.FoundButFailedSound | Linux/RemoteDeactivationLinux.py:532-533 | each entry comes from such an attempt |
| Lock.NoneFoundNamesEveryLocker | Linux/RemoteDeactivationLinux.py:535-536 | with no locker found, the message names every configured locker and is not the found-but-failed text |
| Lock.UnknownFailureUnreachable | Linux/RemoteDeactivationLinux.py:543-544 | after a failed search the "unknown error" message cannot be chosen |
| Lock.SomeFailedListsAttempts | Linux/RemoteDeactivationLinux.py:537-542 | the found-but-failed message names each failed locker with its status and error text, and each missing locker |
| Lock.EntryMentions | Linux/RemoteDeactivationLinux.py:533 | an entry shows the status and the non-empty error text |
| Lock.LockCommand | Linux/RemoteDeactivationLinux.py:468-547 | the screen is locked exactly when some installed locker exits 0; the search stops at the first success (only the last attempt can have succeeded, and locked exactly when it did); the lines run are exactly those of the installed lockers tried; two replies, the announcement and then either the success text or the chosen failure report, never the unknown-error one |
| Status.SplitUptime | Linux/RemoteDeactivationLinux.py:562-564 | days, hours, minutes and seconds recombine to the total, with hours below 24 and minutes and seconds below 60 |
| Status.UptimeFieldsShape | Linux/RemoteDeactivationLinux.py:566-573 | two to four fields; days exactly when positive; hours exactly when hours or days are positive; the hours field, when shown, is the two-digit hours followed by `h`; two-digit minutes and seconds always last; so "Just booted" is never used |
| Status.SplitSeconds | Linux/RemoteDeactivationLinux.py:592-593 | hours, minutes and seconds recombine to the seconds left, minutes and seconds below 60 |
| Status.WholeUnits | Linux/RemoteDeactivationLinux.py:592-601 | the hours shown are the whole hours left; the minutes shown are the whole minutes of the remainder below an hour (the whole minutes when under an hour); something is shown exactly from one minute on |
| Status.TimeLeftText | Linux/RemoteDeactivationLinux.py:589-601 | the text is non-empty exactly from 60 seconds on, ends in "to full)" when plugged and "left)" otherwise, and is exactly ` (<hours>h <minutes>m` from an hour on and ` (<minutes>m <seconds>s` from a minute on, with the hours whole, the minutes those of the remainder below an hour and the seconds those of the remainder below a minute, followed by that ending |
| Status.UnitsLeft | Linux/RemoteDeactivationLinux.py:592-601 | for a positive number of seconds: empty exactly below a minute, otherwise the two units of the `divmod` chain stated as whole hours and minutes of the remainder, or whole minutes and seconds of the remainder, followed by the ending |
| Status.UnknownStatusShownAsRead | Linux/RemoteDeactivationLinux.py:621-630 | an unknown sysfs status is shown capitalised: same length as read, and lowering it gives the lower-cased status back |
| Status.LowerCapitalized | Linux/RemoteDeactivationLinux.py:630 | capitalising a lower-case text and lowering it again is the identity |
| Status.SysfsFirstReadable | Linux/RemoteDeactivationLinux.py:613-633 | the first battery directory whose two files are read decides percentage and power text |
| Status.SysfsNoneComplete | Linux/RemoteDeactivationLinux.py:613-614 | when no directory has both files the texts stay "N/A" |
| Status.SysfsReadFailed | Linux/RemoteDeactivationLinux.py:634-637 | without a readable directory, a failed read anywhere leaves "N/A (sysfs err)" |
| Status.SysfsErrorKept | Linux/RemoteDeactivationLinux.py:634-638 | once the error text is set, unreadable directories keep it |
| Status.ReadSysfs | Linux/RemoteDeactivationLinux.py:613-638 | the loop leaves exactly the texts of `SysfsResult` over the three battery paths |
| Status.BatteryStatus | Linux/RemoteDeactivationLinux.py:579-638 | a psutil reading gives its percentage, "Charging"/"Discharging" by the plug and the time-left text; no battery or an exception gives the sysfs texts and no time left |
| Screenshot.InstalledOnly | Linux/RemoteDeactivationLinux.py:726-733 | the kept tools are exactly those whose program is installed, and an installed first tool stays first |
| Screenshot.InstalledOnlyConcat | Linux/RemoteDeactivationLinux.py:726-733 | filtering two lists one after the other keeps the first list's tools ahead of the second's, so the order of the candidates survives |
| Screenshot.KnownShooters | Linux/RemoteDeactivationLinux.py:729-733 | each known tool has a command line naming its program |
| Screenshot.TryShooters | Linux/RemoteDeactivationLinux.py:742-760 | tools run in order until the first that exits 0 and leaves a non-empty file; all of them when none does; the tool named is the one that took it |
| Screenshot.ShootAndSend | Linux/RemoteDeactivationLinux.py:717-776 | announcement first; no tools gives the install hint; no tool taking it gives the failure text; otherwise the photo captioned with the first successful tool is sent, or the sending error is reported |
| Screenshot.ScreenshotCommand | Linux/RemoteDeactivationLinux.py:711-776 | the same outcome for the installed tools writing the device- and time-named file |
| Screenshot.HyprshotWritesSameFile | Linux/RemoteDeactivationLinux.py:731 | hyprshot is given the directory and name of the very file the other tools write |
| Speech.Engines | Linux/RemoteDeactivationLinux.py:840-851 | each engine is listed exactly when installed (pico2wave only with aplay), espeak-ng first and festival last, nothing else |
| Speech.EnginesRanked | Linux/RemoteDeactivationLinux.py:841-851 | the engines come strictly in the order espeak-ng, pico2wave+aplay, espeak, festival, so none is listed twice |
| Speech.Started | Linux/RemoteDeactivationLinux.py:866-892 | a direct engine or festival starts its one command line; the pico pipe starts `pico2wave` first and `aplay` second exactly when `pico2wave` succeeded |
| Speech.TryEngine | Linux/RemoteDeactivationLinux.py:865-895 | the attempt speaks exactly when every command line it started exited 0; aplay runs only after pico2wave succeeded |
| Speech.TryEngines | Linux/RemoteDeactivationLinux.py:862-912 | engines are tried in order until one speaks; when none does, all were tried and none spoke |
| Speech.SpeakWith | Linux/RemoteDeactivationLinux.py:857-916 | one reply: the no-engine text, the spoken text naming the first engine that speaks, or the failure text after every engine failed |
| Speech.Say | Linux/RemoteDeactivationLinux.py:827-916 | no words give the usage text and run nothing; otherwise the words joined with spaces are spoken as in `SpeakWith` over the installed engines |
| Camera.Dedup | Linux/RemoteDeactivationLinux.py:946-947 | the result holds exactly the input's elements, each once |
| Camera.DeviceEntriesSound | Linux/RemoteDeactivationLinux.py:939-947 | each entry is a stripped tab-indented line mentioning `/dev/video` |
| Camera.DeviceEntriesComplete | Linux/RemoteDeactivationLinux.py:939-947 | each such line gives an entry |
| Camera.ParseDeviceList | Linux/RemoteDeactivationLinux.py:938-947 | the parse gives the device lines of the output, stripped, without repetition, in order |
| Camera.ListingSoundAndComplete | Linux/RemoteDeactivationLinux.py:938-947 | a path is listed exactly when some device line strips to it, once, and it names `/dev/video` |
| Camera.VideoPathsDistinct | Linux/RemoteDeactivationLinux.py:960 | different numbers give different node paths |
| Camera.ProbedSound | Linux/RemoteDeactivationLinux.py:959-964 | probing finds only existing nodes among the first ten |
| Camera.ProbedComplete | Linux/RemoteDeactivationLinux.py:959-964 | probing finds every existing node among the first ten |
| Camera.ProbedDistinct | Linux/RemoteDeactivationLinux.py:962-963 | probing finds each node once |
| Camera.ProbeNodes | Linux/RemoteDeactivationLinux.py:957-964 | the probe loop gives the existing nodes `/dev/video0` to `/dev/video9` in order |
| Camera.CamerasFacts | Linux/RemoteDeactivationLinux.py:927-964 | the cameras are `/dev/video` paths without repetition; when the listing gives nothing they are exactly the existing probed nodes |
| Camera.SearchCameras | Linux/RemoteDeactivationLinux.py:927-964 | the search gives `Cameras`, running `v4l2-ctl --list-devices` exactly when it is installed |
| Camera.FindCameras | Linux/RemoteDeactivationLinux.py:925-969 | the "accessing" reply, then the no-camera reply exactly when no device was found |
| Text.StripTrims | Linux/RemoteDeactivationLinux.py:83 | `strip()`: the result is the text between leading and trailing whitespace, beginning and ending with non-whitespace |
| Text.IntTextRoundTrip | Linux/RemoteDeactivationLinux.py:83-112 | the PID written as text reads back as the same integer |
| Text.Split | Linux/RemoteDeactivationLinux.py:939 | `split('\n')` gives at least one part, none containing the separator |
| Text.SplitJoin | Linux/RemoteDeactivationLinux.py:939 | joining the parts back with the separator gives the text |
| Text.JoinContainsParts | Linux/RemoteDeactivationLinux.py:831 | every joined word appears in the joined message |
| Text.Pad2 | Linux/RemoteDeactivationLinux.py:568-569 | `:02` formatting gives at least two digits with the value, exactly two below 100 |
| Text.NatTextRoundTrip | Linux/RemoteDeactivationLinux.py:112 | the decimal text of a number reads back as that number |

## Left out

- I/O is replaced by inputs: the Telegram transport (replies, `send_photo`, the application builder, polling, `error_handler`, `shutdown_bot_command`, the main block), logging, `.env` loading, `signal` and `atexit` registration.
- `whoami_command` (lines 784-820) is not modelled: it formats the agent account's user name (`getpass.getuser()`, falling back to `USER` or `LOGNAME`), UID, GID and sorted group names, each obtained by a foreign call.
- The rest of `status_command` (memory, CPU, temperature and the message layout, lines 637-709) is not modelled: it formats floating-point sensor readings.
- Status.BatteryStatus: the battery percentage is taken as its already rounded text, because `:.0f` formatting of a float is not modelled.
- Status.SplitUptime: the uptime is taken in whole seconds. The source floors a float difference of clock readings, and floating-point rounding is not modelled.
- Status.AsciiLower: `lower()` and `capitalize()` are modelled on ASCII letters only; Unicode case mapping is not.
- Power.DecideDelay: only ASCII digits count as digits. `str.isdigit()` also accepts other Unicode decimal digits (such as `٦٠`, which the handler schedules as 60 seconds) and digit-like characters such as `²`, for which `int()` then raises `ValueError` out of the handler; the model gives both the usage reply.
- Power.DelayDecisionCases: its usage case covers the non-ASCII digit texts above, so it does not state the scheduling of `٦٠` or the `ValueError` of `²`.
- SingleInstance.PidMarker.CheckSingleInstance: writing the marker file (lines 112-113) is outside any `try`, so a failing write stops start-up; the model assumes the write succeeds.
- Text.ParseInt: `int()` is modelled on optional sign plus ASCII digits; underscores between digits and non-ASCII digits, which Python also accepts, are not.
- Camera: OpenCV frame capture and sending the picture (lines 971-1057) are not modelled; they are foreign calls.
- Temporary-file creation and removal (the screenshot file, the wave file of pico2wave) are not modelled; the file names are parameters.
- Speech.Speaks: festival receives the message on its standard input, which is not part of a `Runner` key, so the model sees only festival's command line.
- Screenshot.Shoots: whether the file exists with a size above zero after a tool ran is an input per command line; the model has no file state that one tool's run leaves for the next.
- Screenshot.KnownShooters: `dirname`/`basename` are proved to split the path back only when the device name contains no `/`.
- The unreachable second body of `get_wayland_env` after `return env` (lines 260-278) is not modelled.
- The detached `sleep … && loginctl poweroff` process and the processes `pkill -f` matches are not modelled; only the command lines are.
- `Windows/RemoteDeactivationWindows.py` is not part of this model: each of its handlers is a single foreign call.
- Reply failures (an exception raised by sending a reply) are not modelled; only sending the screenshot photo can fail in the model.

## Findings

| source | as written | input that shows it | evidently intended | confidence | as-written member | corrected member |
|---|---|---|---|---|---|---|
| Linux/RemoteDeactivationLinux.py:91 | the running copy is recognised by a command-line part containing `RemoteDeactivation.py` | a first copy started as `python3 RemoteDeactivationLinux.py`: the second copy overwrites its marker and starts | recognise the Linux agent's own file name | not executed | SingleInstance.WrittenTagMissesRunningAgent | SingleInstance.IntendedTagFindsRunningAgent |
| Linux/RemoteDeactivationLinux.py:354-355 | `shutil.which` is called, but `shutil` is imported only inside `check_command_exists` | `/shutdown_in 60`: the announcement is sent, then `NameError` escapes and no shutdown is scheduled | look up `sleep` and `loginctl` and start the delayed power-off | not executed | Power.ShutdownInAsWrittenNeverSchedules | Power.ShutdownIn |
| Linux/RemoteDeactivationLinux.py:389 | the same `shutil.which` lookup builds the `pkill` line inside a `try` whose generic handler swallows the `NameError` | a pending delayed shutdown on a host without `shutdown`: the reply says nothing was cancelled | kill the pending `sleep … poweroff` line | not executed | Power.CancelAsWrittenMissesPendingShutdown | Power.CancelShutdown |
