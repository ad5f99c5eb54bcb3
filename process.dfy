/** The operating-system processes the app starts, seen only through what they
    produce. Spawning, stream reading and `waitFor` are not modelled; a process
    run is an outcome value. */
module Process {
  import opened KotlinText

  /** What running a process to completion gives back: the whole text of its
      standard output and standard error and its exit code, or the exception
      (with its possibly-null message) that one of those calls threw. */
  datatype ProcessOutcome =
    | Finished(stdout: string, stderr: string, exitCode: int)
    | Threw(message: Option<string>)

  /** `Runtime.exec(argv)` followed by reading the streams and `waitFor`. */
  type Launcher = seq<string> -> ProcessOutcome

  /** A root shell started with `Runtime.exec("su")` and fed the given text on
      its standard input. */
  type RootShell = string -> ProcessOutcome
}
