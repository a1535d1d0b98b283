/** Shapes shared by every component: optional values, results, and what the host reports
    about the programs it can run. */
module Common {

  datatype Option<+T> = None | Some(value: T)

  datatype Result<+T, +E> = Ok(value: T) | Err(error: E)

  /** An environment handed to a child process. */
  type Env = map<string, string>

  /** The outcome of one `subprocess.run` / `Popen` of a command.
      `Finished` carries the exit code and the captured output streams as the child wrote
      them; `Hangs` is a process still running when the caller's timeout expires (a call
      made without a timeout never returns); `Raised` is an exception raised while
      spawning or waiting, by its type name and its text. */
  datatype RunOutcome =
    | Finished(code: int, stdout: string, stderr: string)
    | Hangs
    | Raised(kind: string, message: string)
  {
    /** What `check=True` treats as success. */
    predicate Succeeded() { Finished? && code == 0 }

    /** The program to run was not found (`FileNotFoundError`). */
    predicate ProgramMissing() { Raised? && kind == FileNotFound }
  }

  /** What running a command line in a given environment does on this host. */
  type Runner = (seq<string>, Env) -> RunOutcome

  /** `shutil.which(name)`: the full path of an installed program, if any. */
  type Which = string -> Option<string>

  /** `check_command_exists(name)` */
  predicate Installed(which: Which, name: string) {
    which(name).Some?
  }

  /** The exception type `subprocess` raises when the program to run does not exist. */
  const FileNotFound := "FileNotFoundError"

  /** How a command handler ends: it returns, an exception escapes it (and reaches the
      bot's error handler), or it waits forever on a child that never exits. */
  datatype HandlerEnd = Returned | Escaped(kind: string, message: string) | Blocked

  /** What one handler invocation did: the replies it sent, in order, the command lines it
      tried to start, in order, and how it ended. */
  datatype Handled = Handled(replies: seq<string>, ran: seq<seq<string>>, end: HandlerEnd)

  /** `shutil.which(name) or name` */
  function PathOr(which: Which, name: string): string {
    if which(name).Some? && which(name).value != "" then which(name).value else name
  }
}
