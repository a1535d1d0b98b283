/** Start-up configuration and the authorisation gate (Linux/RemoteDeactivationLinux.py:
    37-67 and 145-146): the bot reads its token, the one Telegram user allowed to command
    it and the device name from the environment, refuses to start when any of them is
    unusable, and answers every command of any other user with a refusal. */
module Config {
  import opened Common
  import opened Text
  import opened Paths

  /** The settings a started bot runs with. */
  datatype Settings = Settings(token: string, allowedUser: int, device: string)

  /** Start-up either yields the settings or prints one error line and exits with
      status 1. */
  datatype Startup = Ready(settings: Settings) | Fails(message: string)

  const EnvFileMissingHead := "ERROR: Environment file not found at "
  const InvalidUserHead := "ERROR: ALLOWED_USER_ID is not a valid integer: "
  const MissingToken := "ERROR: BOT_TOKEN environment variable is missing or empty"
  const MissingUser := "ERROR: ALLOWED_USER_ID environment variable is missing or invalid"

  /** Line 38: the environment file, `~/Services/.env.linux`. */
  function EnvFilePath(home: string): string {
    PathJoin(PathJoin(home, "Services"), ".env.linux")
  }

  /** `os.getenv(name)` treated as Python truth: absent and empty are both false. */
  predicate Set(env: Env, name: string) {
    name in env && env[name] != ""
  }

  /** The allowed user when the variable holds a non-zero integer. */
  predicate ValidUser(env: Env) {
    Set(env, "ALLOWED_USER_ID")
    && ParseInt(env["ALLOWED_USER_ID"]).Some? && ParseInt(env["ALLOWED_USER_ID"]).value != 0
  }

  /** Lines 37-67. `envFileExists` says whether the environment file was found under
      `home`; `env` is the environment once that file is loaded; `nodename` is the host
      name `os.uname()` reports. */
  function LoadSettings(home: string, envFileExists: bool, env: Env, nodename: string): (s: Startup)
    // the bot starts exactly when the file exists, the token is set and the user is a
    // non-zero integer
    ensures s.Ready? <==> envFileExists && Set(env, "BOT_TOKEN") && ValidUser(env)
    ensures s.Ready? ==>
      && s.settings.token == env["BOT_TOKEN"]
      && Some(s.settings.allowedUser) == ParseInt(env["ALLOWED_USER_ID"])
      && s.settings.allowedUser != 0
      && s.settings.device == (if Set(env, "DEVICE_NAME") then env["DEVICE_NAME"] else nodename)
    // the errors in the order they are checked
    ensures !envFileExists ==> s == Fails(EnvFileMissingHead + EnvFilePath(home))
    ensures envFileExists && Set(env, "ALLOWED_USER_ID") && ParseInt(env["ALLOWED_USER_ID"]).None? ==>
      s == Fails(InvalidUserHead + env["ALLOWED_USER_ID"])
    ensures envFileExists && !Set(env, "BOT_TOKEN")
            && !(Set(env, "ALLOWED_USER_ID") && ParseInt(env["ALLOWED_USER_ID"]).None?) ==>
      s == Fails(MissingToken)
    ensures envFileExists && Set(env, "BOT_TOKEN") && !ValidUser(env)
            && !(Set(env, "ALLOWED_USER_ID") && ParseInt(env["ALLOWED_USER_ID"]).None?) ==>
      s == Fails(MissingUser)
  {
    if !envFileExists then Fails(EnvFileMissingHead + EnvFilePath(home))
    else
      var device := if Set(env, "DEVICE_NAME") then env["DEVICE_NAME"] else nodename;
      var user: Option<int> := if Set(env, "ALLOWED_USER_ID") then ParseInt(env["ALLOWED_USER_ID"]) else None;
      if Set(env, "ALLOWED_USER_ID") && user.None? then Fails(InvalidUserHead + env["ALLOWED_USER_ID"])
      else if !Set(env, "BOT_TOKEN") then Fails(MissingToken)
      else if user.None? || user.value == 0 then Fails(MissingUser)
      else Ready(Settings(env["BOT_TOKEN"], user.value, device))
  }

  /** Line 145-146. */
  predicate IsAuthorized(settings: Settings, userId: int) {
    userId == settings.allowedUser
  }

  /** A bot that started obeys exactly the user whose id the environment names. */
  lemma ObeysNamedUser(home: string, env: Env, nodename: string, token: string, user: int, userId: int)
    requires user != 0 && token != ""
    requires "BOT_TOKEN" in env && env["BOT_TOKEN"] == token
    requires "ALLOWED_USER_ID" in env && env["ALLOWED_USER_ID"] == IntText(user)
    ensures LoadSettings(home, true, env, nodename).Ready?
    ensures IsAuthorized(LoadSettings(home, true, env, nodename).settings, userId) <==> userId == user
  {
    IntTextRoundTrip(user);
    assert |IntText(user)| > 0 by {
      if user < 0 { assert IntText(user)[0] == '-'; } else { assert AllDigits(NatText(user)); }
    }
  }

  const UnauthorizedText := "❌ Unauthorized user."

  /** The check every command handler makes first (lines 282-284 and the same lines in
      each handler): another user gets one refusal and nothing runs; the allowed user gets
      what `handler` does. */
  function Guarded(settings: Settings, userId: int, handler: Handled): (h: Handled)
    ensures !IsAuthorized(settings, userId) ==> h == Handled([UnauthorizedText], [], Returned)
    ensures IsAuthorized(settings, userId) ==> h == handler
  {
    if !IsAuthorized(settings, userId) then Handled([UnauthorizedText], [], Returned) else handler
  }
}
