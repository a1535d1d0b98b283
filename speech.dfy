/** Speaking a message aloud: `say_command` (Linux/RemoteDeactivationLinux.py:822-915).
    The installed text-to-speech engines are tried in a fixed order and the first that
    speaks ends the search; every failure of an engine is caught and the next one tried. */
module Speech {
  import opened Common
  import opened Text

  /** The three ways an engine is driven: one command line with the message as an
      argument, `pico2wave` writing a wave file that `aplay` then plays, or `festival`
      reading the message on its standard input. */
  datatype Engine =
    | Direct(argv: seq<string>, name: string)
    | PicoPipe(wavPath: string)
    | Festival

  const PicoName := "pico2wave+aplay"
  const FestivalName := "festival"
  const FestivalArgv := ["festival", "--tts"]

  function EngineName(e: Engine): string {
    match e
    case Direct(_, name) => name
    case PicoPipe(_) => PicoName
    case Festival => FestivalName
  }

  function PicoArgv(wavPath: string, message: string): seq<string> {
    ["pico2wave", "--wave", wavPath, message]
  }

  function AplayArgv(wavPath: string): seq<string> {
    ["aplay", "-q", wavPath]
  }

  /** The `espeak-ng` and `espeak` command lines: amplitude 150, 160 words a minute. */
  function EspeakArgv(program: string, message: string): seq<string> {
    [program, "-a", "150", "-s", "160", message]
  }

  /** The position of an engine in the order of lines 843-851: espeak-ng, the pico pipe,
      espeak, festival. */
  function Rank(e: Engine): nat {
    match e
    case Direct(_, name) => if name == "espeak-ng" then 0 else 2
    case PicoPipe(_) => 1
    case Festival => 3
  }

  /** Lines 841-851: the installed engines, in order. `pico2wave` counts only together
      with `aplay`; `wavPath` is the name of the temporary wave file. */
  function Engines(which: Which, message: string, wavPath: string): (engines: seq<Engine>)
    ensures Direct(EspeakArgv("espeak-ng", message), "espeak-ng") in engines <==> Installed(which, "espeak-ng")
    ensures PicoPipe(wavPath) in engines <==> Installed(which, "pico2wave") && Installed(which, "aplay")
    ensures Direct(EspeakArgv("espeak", message), "espeak") in engines <==> Installed(which, "espeak")
    ensures Festival in engines <==> Installed(which, "festival")
    // espeak-ng, when installed, is tried first and festival, when installed, last
    ensures Installed(which, "espeak-ng") ==> engines[0] == Direct(EspeakArgv("espeak-ng", message), "espeak-ng")
    ensures Installed(which, "festival") ==> engines[|engines| - 1] == Festival
    ensures forall e :: e in engines ==>
              e in [Direct(EspeakArgv("espeak-ng", message), "espeak-ng"), PicoPipe(wavPath),
                    Direct(EspeakArgv("espeak", message), "espeak"), Festival]
  {
    (if Installed(which, "espeak-ng") then [Direct(EspeakArgv("espeak-ng", message), "espeak-ng")] else [])
    + (if Installed(which, "pico2wave") && Installed(which, "aplay") then [PicoPipe(wavPath)] else [])
    + (if Installed(which, "espeak") then [Direct(EspeakArgv("espeak", message), "espeak")] else [])
    + (if Installed(which, "festival") then [Festival] else [])
  }

  /** The installed engines come strictly in the order of lines 843-851 (espeak-ng, the
      pico pipe, espeak, festival), so none is listed twice. */
  lemma EnginesRanked(which: Which, message: string, wavPath: string)
    ensures Ranked(Engines(which, message, wavPath))
  {
    var first := if Installed(which, "espeak-ng") then [Direct(EspeakArgv("espeak-ng", message), "espeak-ng")] else [];
    var second := RankedAppend(first, Installed(which, "pico2wave") && Installed(which, "aplay"), PicoPipe(wavPath));
    var third := RankedAppend(second, Installed(which, "espeak"), Direct(EspeakArgv("espeak", message), "espeak"));
    var all := RankedAppend(third, Installed(which, "festival"), Festival);
    assert all == Engines(which, message, wavPath);
  }

  /** The engines of `engines` come in strictly increasing rank. */
  predicate Ranked(engines: seq<Engine>) {
    forall i, j :: 0 <= i < j < |engines| ==> Rank(engines[i]) < Rank(engines[j])
  }

  /** `engines`, followed by `e` when `present`. */
  function RankedAppend(engines: seq<Engine>, present: bool, e: Engine): (r: seq<Engine>)
    requires Ranked(engines) && forall k :: 0 <= k < |engines| ==> Rank(engines[k]) < Rank(e)
    ensures r == engines + (if present then [e] else [])
    ensures Ranked(r)
    ensures forall k :: 0 <= k < |r| ==> Rank(r[k]) <= Rank(e)
  {
    if present then engines + [e] else engines
  }

  /** An engine spoke: its command lines exited with status 0 within their timeouts
      (`check=True` for the direct engines and the pipe, `returncode == 0` for festival). */
  predicate Speaks(e: Engine, message: string, run: Runner, env: Env) {
    match e
    case Direct(argv, _) => run(argv, env).Succeeded()
    case PicoPipe(wav) => run(PicoArgv(wav, message), env).Succeeded() && run(AplayArgv(wav), env).Succeeded()
    case Festival => run(FestivalArgv, env).Succeeded()
  }

  /** The command lines one attempt with `e` starts: `aplay` runs only after `pico2wave`
      succeeded. */
  function Started(e: Engine, message: string, run: Runner, env: Env): (lines: seq<seq<string>>)
    ensures |lines| >= 1
    ensures e.Direct? ==> lines == [e.argv]
    ensures e.Festival? ==> lines == [FestivalArgv]
    ensures e.PicoPipe? ==> lines[0] == PicoArgv(e.wavPath, message)
    ensures e.PicoPipe? ==> (|lines| == 2 <==> run(PicoArgv(e.wavPath, message), env).Succeeded())
    ensures |lines| == 2 ==> e.PicoPipe? && lines[1] == AplayArgv(e.wavPath)
    ensures |lines| <= 2
  {
    match e
    case Direct(argv, _) => [argv]
    case PicoPipe(wav) =>
      if run(PicoArgv(wav, message), env).Succeeded() then [PicoArgv(wav, message), AplayArgv(wav)]
      else [PicoArgv(wav, message)]
    case Festival => [FestivalArgv]
  }

  /** The command lines the attempts with `engines` start, in order. */
  function StartedAll(engines: seq<Engine>, message: string, run: Runner, env: Env): seq<seq<string>> {
    if |engines| == 0 then []
    else StartedAll(engines[..|engines| - 1], message, run, env) + Started(engines[|engines| - 1], message, run, env)
  }

  /** One attempt (one pass of the loop body, lines 862-899), with every exception of the
      engine caught. */
  method TryEngine(e: Engine, message: string, run: Runner, env: Env) returns (spoken: bool, lines: seq<seq<string>>)
    ensures spoken <==> Speaks(e, message, run, env)
    ensures lines == Started(e, message, run, env)
    // the engine spoke exactly when every line it started exited with status 0
    ensures spoken <==> forall k :: 0 <= k < |lines| ==> run(lines[k], env).Succeeded()
  {
    match e {
      case Direct(argv, _) =>
        lines := [argv];
        spoken := run(argv, env).Succeeded();
        assert lines[0] == argv;
      case PicoPipe(wav) =>
        lines := [PicoArgv(wav, message)];
        spoken := false;
        if run(PicoArgv(wav, message), env).Succeeded() {
          lines := lines + [AplayArgv(wav)];
          spoken := run(AplayArgv(wav), env).Succeeded();
          assert lines[1] == AplayArgv(wav);
        } else {
          assert !run(lines[0], env).Succeeded();
        }
      case Festival =>
        lines := [FestivalArgv];
        spoken := run(FestivalArgv, env).Succeeded();
        assert lines[0] == FestivalArgv;
    }
  }

  /** The loop of lines 860-910: the engines are tried in order until one speaks. `count`
      is the number of engines tried. */
  method TryEngines(engines: seq<Engine>, message: string, run: Runner, env: Env)
    returns (spoken: bool, count: nat, ran: seq<seq<string>>)
    ensures count <= |engines|
    ensures ran == StartedAll(engines[..count], message, run, env)
    ensures forall k :: 0 <= k < count - 1 ==> !Speaks(engines[k], message, run, env)
    ensures spoken <==> count > 0 && Speaks(engines[count - 1], message, run, env)
    ensures !spoken ==> count == |engines| && forall k :: 0 <= k < |engines| ==> !Speaks(engines[k], message, run, env)
  {
    spoken := false;
    ran := [];
    count := 0;
    while count < |engines|
      invariant count <= |engines|
      invariant ran == StartedAll(engines[..count], message, run, env)
      invariant forall k :: 0 <= k < count ==> !Speaks(engines[k], message, run, env)
    {
      var e := engines[count];
      var lines;
      spoken, lines := TryEngine(e, message, run, env);
      assert engines[..count + 1][..count] == engines[..count];
      ran := ran + lines;
      count := count + 1;
      if spoken {
        return;
      }
    }
  }

  const UsageText := "Usage: /say [message]"
  const NoEnginesHead := "❌ No Text-to-Speech (TTS) engines found on "
  const NoEnginesTail := ". Please install espeak-ng, pico2wave, espeak, or festival."
  const SpokeMark := " 📢: '"
  const ViaHead := "' (via "
  const SpeakFailedHead := "❌ Failed to speak message on "
  const SpeakFailedTail := " using available TTS engines. Check logs for details."

  function SpokenText(device: string, message: string, engine: string): string {
    device + SpokeMark + message + ViaHead + engine + ")"
  }

  /** `say_command` after the authorisation check: the words are joined with single
      spaces; `wavPath` is the temporary wave file and `env` the result of
      `get_wayland_env`. */
  method Say(device: string, args: seq<string>, which: Which, run: Runner, env: Env, wavPath: string)
    returns (h: Handled)
    ensures h.end == Returned && |h.replies| == 1
    ensures |args| == 0 ==> h == Handled([UsageText], [], Returned)
    ensures |args| > 0 ==>
      var message := Join(" ", args);
      var engines := Engines(which, message, wavPath);
      && (|engines| == 0 ==> h.replies == [NoEnginesHead + device + NoEnginesTail] && h.ran == [])
      && (|engines| > 0 && (forall k :: 0 <= k < |engines| ==> !Speaks(engines[k], message, run, env)) ==>
            h.replies == [SpeakFailedHead + device + SpeakFailedTail]
            && h.ran == StartedAll(engines, message, run, env))
      && (forall k :: (0 <= k < |engines| && Speaks(engines[k], message, run, env)
                     && forall j :: 0 <= j < k ==> !Speaks(engines[j], message, run, env)) ==>
            h.replies == [SpokenText(device, message, EngineName(engines[k]))]
            && h.ran == StartedAll(engines[..k + 1], message, run, env))
  {
    if |args| == 0 {
      return Handled([UsageText], [], Returned);
    }
    var message := Join(" ", args);
    var engines := Engines(which, message, wavPath);
    h := SpeakWith(device, message, engines, run, env);
  }

  /** Lines 856-914 for the engines `engines`. */
  method SpeakWith(device: string, message: string, engines: seq<Engine>, run: Runner, env: Env)
    returns (h: Handled)
    ensures h.end == Returned && |h.replies| == 1
    ensures |engines| == 0 ==> h.replies == [NoEnginesHead + device + NoEnginesTail] && h.ran == []
    ensures |engines| > 0 && (forall k :: 0 <= k < |engines| ==> !Speaks(engines[k], message, run, env)) ==>
      h.replies == [SpeakFailedHead + device + SpeakFailedTail] && h.ran == StartedAll(engines, message, run, env)
    ensures forall k :: (0 <= k < |engines| && Speaks(engines[k], message, run, env)
                       && forall j :: 0 <= j < k ==> !Speaks(engines[j], message, run, env)) ==>
      h.replies == [SpokenText(device, message, EngineName(engines[k]))]
      && h.ran == StartedAll(engines[..k + 1], message, run, env)
  {
    if |engines| == 0 {
      return Handled([NoEnginesHead + device + NoEnginesTail], [], Returned);
    }
    var spoken, count, ran := TryEngines(engines, message, run, env);
    if spoken {
      h := Handled([SpokenText(device, message, EngineName(engines[count - 1]))], ran, Returned);
    } else {
      assert engines[..count] == engines;
      h := Handled([SpeakFailedHead + device + SpeakFailedTail], ran, Returned);
    }
  }
}
