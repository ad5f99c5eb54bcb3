/** The Shizuku user service (`ShellService`): runs in a separate privileged
    process and executes commands with `sh -c` on the app's behalf. */
module ShellService {
  import opened KotlinText
  import opened Process

  /** The text the service prefixes to an exception message. */
  const ErrorPrefix := "Error: "

  /** The argument vector of `Runtime.exec(arrayOf("sh", "-c", command))`. */
  function ShArgv(command: string): (argv: seq<string>)
    ensures |argv| == 3 && argv[0] == "sh" && argv[1] == "-c" && argv[2] == command
  {
    ["sh", "-c", command]
  }

  /** A string template renders a null exception message as `null`. */
  function MessageText(message: Option<string>): (text: string)
    ensures message.Some? ==> text == message.value
    ensures message.None? ==> text == "null"
  {
    message.GetOr("null")
  }

  /** `exec`: the command's standard output when it produced any, otherwise its
      standard error; an exception becomes the error text. The exit code is never
      consulted. */
  function Exec(command: string, run: Launcher): (out: string)
    ensures var p := run(ShArgv(command));
      && (p.Finished? && p.stdout != [] ==> out == p.stdout)
      && (p.Finished? && p.stdout == [] ==> out == p.stderr)
      && (p.Threw? ==> ErrorPrefix <= out && out[|ErrorPrefix|..] == MessageText(p.message))
  {
    match run(ShArgv(command))
    case Finished(stdout, stderr, _) => if |stdout| > 0 then stdout else stderr
    case Threw(message) => ErrorPrefix + MessageText(message)
  }

  /** `execGetExitCode`: the exit code of the command, or -1 when running it threw. */
  function ExecGetExitCode(command: string, run: Launcher): (code: int)
    ensures run(ShArgv(command)).Finished? ==> code == run(ShArgv(command)).exitCode
    ensures run(ShArgv(command)).Threw? ==> code == -1
  {
    match run(ShArgv(command))
    case Finished(_, _, exitCode) => exitCode
    case Threw(_) => -1
  }
}
