/** The uptime and battery parts of `status_command` (Linux/RemoteDeactivationLinux.py:
    550-638): the uptime split into days, hours, minutes and seconds, the time a battery
    has left, and the battery read from sysfs when psutil has none. */
module Status {
  import opened Common
  import opened Text

  // ------------------------------------------------------------------ uptime

  /** The uptime split by the `divmod` chain of lines 562-564. */
  datatype UptimeParts = UptimeParts(days: int, hours: nat, minutes: nat, seconds: nat)

  /** `divmod` by a positive divisor floors, as Dafny's `/` and `%` do, so a negative
      uptime (a clock set back) splits the same way as in the source. */
  function SplitUptime(total: int): (p: UptimeParts)
    ensures p.days * 86400 + p.hours * 3600 + p.minutes * 60 + p.seconds == total
    ensures p.hours < 24 && p.minutes < 60 && p.seconds < 60
  {
    var rest := total % 86400;
    UptimeParts(total / 86400, rest / 3600, rest % 3600 / 60, rest % 3600 % 60)
  }

  /** Lines 566-573: days only when positive, hours when positive or when days are shown,
      then minutes and seconds, always two digits. */
  function UptimeFields(p: UptimeParts): seq<string> {
    (if p.days > 0 then [IntText(p.days) + "d"] else [])
    + (if p.hours > 0 || p.days > 0 then [Pad2(p.hours) + "h"] else [])
    + [Pad2(p.minutes) + "m", Pad2(p.seconds) + "s"]
  }

  const JustBooted := "Just booted"

  /** Lines 556-577: the uptime line; `total` is `None` when reading the boot time
      raised. */
  function UptimeText(total: Option<int>): string {
    if total.None? then "N/A"
    else
      var fields := UptimeFields(SplitUptime(total.value));
      if |fields| > 0 then Join(" ", fields) else JustBooted
  }

  /** The fields shown: two to four of them; days exactly when the days are positive,
      hours exactly when hours or days are; hours, minutes and seconds in two digits each,
      minutes and seconds always and ending the line. So the fallback text is never used. */
  lemma UptimeFieldsShape(total: int)
    ensures var p := SplitUptime(total);
      var fields := UptimeFields(p);
      && 2 <= |fields| <= 4
      && (p.days > 0 <==> fields[0] == IntText(p.days) + "d")
      && (|fields| >= 3 <==> p.hours > 0 || p.days > 0)
      && (|fields| >= 3 ==> fields[|fields| - 3] == Pad2(p.hours) + "h" && |Pad2(p.hours)| == 2)
      && fields[|fields| - 2] == Pad2(p.minutes) + "m" && |Pad2(p.minutes)| == 2
      && fields[|fields| - 1] == Pad2(p.seconds) + "s" && |Pad2(p.seconds)| == 2
      && UptimeText(Some(total)) == Join(" ", fields)
  {
    var p := SplitUptime(total);
    var fields := UptimeFields(p);
    if p.days <= 0 {
      // the first field is then the hours or the minutes, which end in a letter other than 'd'
      var f := fields[0];
      assert f[|f| - 1] != 'd';
      assert (IntText(p.days) + "d")[|IntText(p.days) + "d"| - 1] == 'd';
    }
  }

  // ------------------------------------------------------------------ battery time left

  /** psutil's marker for "no limit" in `secsleft` (the source compares with it). */
  const PowerTimeUnlimited := -2

  /** `secsleft` split by the `divmod` chain of lines 592-593 (and 598-599). */
  function SplitSeconds(secs: nat): (hms: (nat, nat, nat))
    ensures hms.0 * 3600 + hms.1 * 60 + hms.2 == secs
    ensures hms.1 < 60 && hms.2 < 60
  {
    (secs / 60 / 60, secs / 60 % 60, secs % 60)
  }

  const ToFull := " to full)"
  const Left := " left)"

  /** Lines 589-601: hours and minutes once an hour is left, minutes and seconds once a
      minute is, and nothing below a minute or when psutil does not know. */
  function TimeLeftText(secsleft: int, plugged: bool): (t: string)
    ensures t != "" <==> secsleft >= 60
    ensures t != "" ==> EndsWithTail(t, if plugged then ToFull else Left)
    ensures secsleft >= 3600 ==> StartsWith(t, " (" + NatText(secsleft / 3600) + "h ")
    ensures 60 <= secsleft < 3600 ==> StartsWith(t, " (" + NatText(secsleft / 60) + "m ")
    ensures secsleft >= 3600 ==>
      t == " (" + NatText(secsleft / 3600) + "h " + NatText(secsleft % 3600 / 60) + "m"
           + (if plugged then ToFull else Left)
    ensures 60 <= secsleft < 3600 ==>
      t == " (" + NatText(secsleft / 60) + "m " + NatText(secsleft % 60) + "s"
           + (if plugged then ToFull else Left)
  {
    if secsleft != PowerTimeUnlimited && secsleft > 0 then
      UnitsLeft(secsleft, if plugged then ToFull else Left)
    else ""
  }

  /** The two units shown for a positive `secsleft`, by the `divmod` chain. */
  function UnitsLeft(secs: nat, tail: string): (t: string)
    ensures t != "" <==> secs >= 60
    ensures secs >= 3600 ==>
      t == " (" + NatText(secs / 3600) + "h " + NatText(secs % 3600 / 60) + "m" + tail
    ensures 60 <= secs < 3600 ==>
      t == " (" + NatText(secs / 60) + "m " + NatText(secs % 60) + "s" + tail
  {
    var hms := SplitSeconds(secs);
    WholeUnits(secs);
    if hms.0 > 0 then Bracketed(NatText(hms.0) + "h ", NatText(hms.1) + "m", tail)
    else if hms.1 > 0 then Bracketed(NatText(hms.1) + "m ", NatText(hms.2) + "s", tail)
    else ""
  }

  predicate EndsWithTail(t: string, tail: string) {
    |t| > |tail| && t[|t| - |tail|..] == tail
  }

  /** The hours shown are the whole hours left; below an hour, the minutes shown are the
      whole minutes left. */
  lemma WholeUnits(secs: nat)
    ensures SplitSeconds(secs).0 == secs / 3600
    ensures secs < 3600 ==> SplitSeconds(secs).1 == secs / 60
    ensures SplitSeconds(secs).1 == secs % 3600 / 60
    ensures SplitSeconds(secs).0 > 0 || SplitSeconds(secs).1 > 0 <==> secs >= 60
  {
    var q := secs / 60;
    assert secs == q * 60 + secs % 60;
    assert q == q / 60 * 60 + q % 60;
    assert secs == (q / 60) * 3600 + (q % 60) * 60 + secs % 60;
    ChainMinutes(secs);
  }

  /** The chain's minutes are the whole minutes of what is left below the whole hours. */
  lemma ChainMinutes(secs: nat)
    ensures secs / 60 % 60 == secs % 3600 / 60
  {
    var h, r := secs / 3600, secs % 3600;
    var m, s := r / 60, r % 60;
    assert secs == 60 * (60 * h + m) + s;
    assert secs / 60 == 60 * h + m;
  }

  function Bracketed(first: string, second: string, tail: string): (t: string)
    ensures StartsWith(t, " (" + first) && EndsWithTail(t, tail)
  {
    " (" + first + second + tail
  }

  // ------------------------------------------------------------------ sysfs status

  function LowerChar(c: char): char {
    if 'A' <= c <= 'Z' then (c as int + 32) as char else c
  }

  function UpperChar(c: char): char {
    if 'a' <= c <= 'z' then (c as int - 32) as char else c
  }

  /** `s.lower()` on ASCII letters. */
  function AsciiLower(s: string): (r: string)
    ensures |r| == |s| && forall i :: 0 <= i < |s| ==> r[i] == LowerChar(s[i])
  {
    if |s| == 0 then "" else AsciiLower(s[..|s| - 1]) + [LowerChar(s[|s| - 1])]
  }

  /** `s.capitalize()` on ASCII letters: the first character upper-case, the rest lower. */
  function Capitalize(s: string): (r: string)
    ensures |r| == |s|
    ensures |s| > 0 ==> r[0] == UpperChar(s[0]) && r[1..] == AsciiLower(s[1..])
  {
    if |s| == 0 then "" else [UpperChar(s[0])] + AsciiLower(s[1..])
  }

  const Charging := "⚡ Charging"
  const Discharging := "🔋 Discharging"
  const FullyCharged := "🔌 Fully Charged"
  const NotCharging := "🔌 Not Charging (Plugged In)"

  /** Lines 620-630: the power text for the contents of a sysfs `status` file. */
  function PowerStatusText(raw: string): string {
    var v := AsciiLower(Strip(raw));
    if v == "charging" then Charging
    else if v == "discharging" then Discharging
    else if v == "full" then FullyCharged
    else if v == "not charging" then NotCharging
    else Capitalize(v)
  }

  /** An unknown status is shown as read, only capitalised: lowering the text shown gives
      the status back, and so the letter case of the file does not matter. */
  lemma UnknownStatusShownAsRead(raw: string)
    ensures var v := AsciiLower(Strip(raw));
      v !in {"charging", "discharging", "full", "not charging"} ==>
        AsciiLower(PowerStatusText(raw)) == v && |PowerStatusText(raw)| == |Strip(raw)|
  {
    LowerCapitalized(AsciiLower(Strip(raw)));
  }

  /** Capitalising a lower-case text and lowering it again gives the text back. */
  lemma LowerCapitalized(v: string)
    requires v == AsciiLower(v)
    ensures AsciiLower(Capitalize(v)) == v
  {
    if |v| > 0 {
      var r := Capitalize(v);
      var back := AsciiLower(r);
      forall i | 0 <= i < |v| ensures back[i] == v[i] {
        assert v[i] == LowerChar(v[i]);
        if i > 0 {
          assert r[i] == r[1..][i - 1] == LowerChar(v[i]);
          LowerTwice(v[i]);
        } else {
          LowerOfUpper(v[0]);
        }
      }
    }
  }

  lemma LowerTwice(c: char)
    ensures LowerChar(LowerChar(c)) == LowerChar(c)
  {
  }

  lemma LowerOfUpper(c: char)
    ensures LowerChar(UpperChar(c)) == LowerChar(c)
  {
  }

  // ------------------------------------------------------------------ the battery line

  /** What psutil reports: a battery (its percentage already rounded to whole units,
      whether it is plugged in, and `secsleft`), no battery, or an exception. */
  datatype PsutilBattery = Reading(percentText: string, plugged: bool, secsleft: int) | NoBattery | SensorError

  /** What one sysfs battery directory gives: not both of `capacity` and `status`, a read
      that raises, or the two files' contents. */
  datatype SysfsBattery = Incomplete | ReadFails | Readable(capacity: string, status: string)

  const BatteryPaths := [
    "/sys/class/power_supply/BAT0/",
    "/sys/class/power_supply/BAT1/",
    "/sys/class/power_supply/battery/"
  ]

  const NotAvailable := "N/A"
  const SysfsError := "N/A (sysfs err)"

  /** The percentage and power texts the loop of lines 613-638 leaves, starting from
      `current`, over the directories `views`. */
  function SysfsResult(views: seq<SysfsBattery>, current: (string, string)): (string, string)
    decreases |views|
  {
    if |views| == 0 then current
    else match views[0]
      case Incomplete => SysfsResult(views[1..], current)
      case ReadFails => SysfsResult(views[1..], (SysfsError, SysfsError))
      case Readable(capacity, status) => (Strip(capacity) + "%", PowerStatusText(status))
  }

  /** The first readable directory decides. */
  lemma {:induction false} SysfsFirstReadable(views: seq<SysfsBattery>, current: (string, string), i: nat)
    requires i < |views| && views[i].Readable?
    requires forall j :: 0 <= j < i ==> !views[j].Readable?
    ensures SysfsResult(views, current) == (Strip(views[i].capacity) + "%", PowerStatusText(views[i].status))
    decreases i
  {
    if i > 0 {
      var next := if views[0].ReadFails? then (SysfsError, SysfsError) else current;
      assert forall j :: 0 <= j < i - 1 ==> views[1..][j] == views[j + 1];
      SysfsFirstReadable(views[1..], next, i - 1);
    }
  }

  /** Without a readable directory, the texts stay as they were when every directory
      lacks a file. */
  lemma {:induction false} SysfsNoneComplete(views: seq<SysfsBattery>, current: (string, string))
    requires forall i :: 0 <= i < |views| ==> views[i].Incomplete?
    ensures SysfsResult(views, current) == current
    decreases |views|
  {
    if |views| > 0 {
      assert forall i :: 0 <= i < |views| - 1 ==> views[1..][i] == views[i + 1];
      SysfsNoneComplete(views[1..], current);
    }
  }

  /** Without a readable directory, a failed read anywhere leaves the error text. */
  lemma {:induction false} SysfsReadFailed(views: seq<SysfsBattery>, current: (string, string), i: nat)
    requires i < |views| && views[i].ReadFails?
    requires forall j :: 0 <= j < |views| ==> !views[j].Readable?
    ensures SysfsResult(views, current) == (SysfsError, SysfsError)
    decreases i
  {
    var rest := views[1..];
    assert forall j :: 0 <= j < |rest| ==> rest[j] == views[j + 1];
    if i > 0 {
      var next := if views[0].ReadFails? then (SysfsError, SysfsError) else current;
      SysfsReadFailed(rest, next, i - 1);
    } else {
      SysfsErrorKept(rest);
    }
  }

  /** Once the error text is set, directories that are not readable keep it. */
  lemma {:induction false} SysfsErrorKept(views: seq<SysfsBattery>)
    requires forall j :: 0 <= j < |views| ==> !views[j].Readable?
    ensures SysfsResult(views, (SysfsError, SysfsError)) == (SysfsError, SysfsError)
    decreases |views|
  {
    if |views| > 0 {
      assert forall j :: 0 <= j < |views| - 1 ==> views[1..][j] == views[j + 1];
      SysfsErrorKept(views[1..]);
    }
  }

  /** The loop of lines 613-638 over the battery directories. */
  method ReadSysfs(view: string -> SysfsBattery) returns (percent: string, power: string)
    ensures (percent, power) == SysfsResult(Views(view), (NotAvailable, NotAvailable))
  {
    var views := Views(view);
    percent, power := NotAvailable, NotAvailable;
    var i := 0;
    while i < |views|
      invariant 0 <= i <= |views|
      invariant SysfsResult(views, (NotAvailable, NotAvailable)) == SysfsResult(views[i..], (percent, power))
    {
      assert views[i..][1..] == views[i + 1..];
      match views[i] {
        case Incomplete =>
        case ReadFails =>
          percent, power := SysfsError, SysfsError;
        case Readable(capacity, status) =>
          percent := Strip(capacity) + "%";
          power := PowerStatusText(status);
          return;
      }
      i := i + 1;
    }
  }

  function Views(view: string -> SysfsBattery): seq<SysfsBattery> {
    [view(BatteryPaths[0]), view(BatteryPaths[1]), view(BatteryPaths[2])]
  }

  /** The battery's percentage, power state and time left as the status message shows
      them. */
  datatype BatteryInfo = BatteryInfo(percent: string, power: string, timeLeft: string)

  /** Lines 579-638: psutil first; sysfs when it reports no battery or raises. */
  method BatteryStatus(psutil: PsutilBattery, view: string -> SysfsBattery) returns (info: BatteryInfo)
    ensures psutil.Reading? ==>
      && info.percent == psutil.percentText + "%"
      && info.power == (if psutil.plugged then Charging else Discharging)
      && info.timeLeft == TimeLeftText(psutil.secsleft, psutil.plugged)
    ensures !psutil.Reading? ==>
      (info.percent, info.power) == SysfsResult(Views(view), (NotAvailable, NotAvailable)) && info.timeLeft == ""
  {
    match psutil {
      case Reading(percentText, plugged, secsleft) =>
        info := BatteryInfo(percentText + "%", if plugged then Charging else Discharging, TimeLeftText(secsleft, plugged));
      case NoBattery =>
        var percent, power := ReadSysfs(view);
        info := BatteryInfo(percent, power, "");
      case SensorError =>
        var percent, power := ReadSysfs(view);
        info := BatteryInfo(percent, power, "");
    }
  }
}
