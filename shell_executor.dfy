/** `ShellExecutor`: runs a command with elevated privileges, through the bound
    Shizuku user service when Shizuku is usable and direct root is not in use,
    and through a `su` process otherwise or when the service path gives nothing. */
module ShellExecutor {
  import opened KotlinText
  import opened Process
  import ShellService
  import ShizukuHelper

  /** `ShellResult`. */
  datatype ShellResult = ShellResult(isSuccess: bool, output: string, error: string, exitCode: int)

  /** Success and a zero exit code go together. */
  predicate Consistent(r: ShellResult) {
    r.isSuccess <==> r.exitCode == 0
  }

  /** The prefix that marks a service reply as a failure. */
  const ErrorMarker := "Error:"

  /** The result built from the user service's reply: a reply that starts with the
      error marker is a failure carrying the reply as its error; anything else is
      a success with no error. The output is always the raw reply. */
  function FromServiceOutput(output: string): (r: ShellResult)
    ensures Consistent(r)
    ensures r.output == output
    ensures r.isSuccess <==> !(ErrorMarker <= output)
    ensures r.isSuccess ==> r.exitCode == 0 && r.error == ""
    ensures !r.isSuccess ==> r.exitCode == -1 && r.error == output
  {
    var exitCode := if ErrorMarker <= output then -1 else 0;
    ShellResult(exitCode == 0, output, if exitCode != 0 then output else "", exitCode)
  }

  /** What is written to the `su` shell's standard input: the command on one line,
      then `exit` on the next. */
  function SuScript(command: string): (script: string)
    ensures |script| == |command| + 6
    ensures script[..|command|] == command
    ensures script[|command|..] == "\nexit\n"
  {
    command + "\n" + "exit\n"
  }

  /** `executeViaSu`: the process's streams and exit code, success meaning exit
      code 0; an exception becomes a failure with exit code -1 and the exception
      message, or "Unknown error" when it has none. */
  function ExecuteViaSu(command: string, su: RootShell): (r: ShellResult)
    ensures Consistent(r)
    ensures var p := su(SuScript(command));
      && (p.Finished? ==> r.output == p.stdout && r.error == p.stderr && r.exitCode == p.exitCode)
      && (p.Threw? ==> !r.isSuccess && r.output == "" && r.exitCode == -1
                       && r.error == p.message.GetOr("Unknown error"))
  {
    match su(SuScript(command))
    case Finished(stdout, stderr, exitCode) => ShellResult(exitCode == 0, stdout, stderr, exitCode)
    case Threw(message) => ShellResult(false, "", message.GetOr("Unknown error"), -1)
  }

  /** The identity of a bound `IShellService` proxy. */
  type Binder = nat

  /** What happens during the three-second wait for the service after asking
      Shizuku to bind it: the connection callback arrives (with a possibly null
      binder), or nothing arrives before the timeout. */
  datatype BindWait = Callback(service: Option<Binder>) | TimedOut

  /** The Binder call `service.exec(command)`: the service's reply, or `None` when
      the call threw. */
  type RemoteExec = string -> Option<string>

  /** The service handle and signal state after `executeViaShizuku`'s bind step. */
  datatype Connection = Connection(service: Option<Binder>, completed: bool)

  function AfterBindWait(c: Connection, wait: BindWait): (c': Connection)
    ensures c.service.Some? ==> c' == c
    ensures c.service.None? && wait.TimedOut? ==> c' == c
    ensures c.service.None? && wait.Callback? ==> c' == Connection(wait.service, true)
  {
    if c.service.Some? then c
    else match wait
      case Callback(service) => Connection(service, true)
      case TimedOut => c
  }

  /** The result `executeViaShizuku` gives: `None` when no service is bound after
      waiting or the Binder call threw, otherwise the reply mapped to a result. */
  function ShizukuAttempt(c: Connection, wait: BindWait, remote: RemoteExec, command: string): (r: Option<ShellResult>)
    ensures r.Some? ==> remote(command).Some? && r.value == FromServiceOutput(remote(command).value)
    ensures r.None? <==> remote(command).None? || AfterBindWait(c, wait).service.None?
  {
    var c' := AfterBindWait(c, wait);
    if c.service.None? && (!c'.completed || c'.service.None?) then None
    else match remote(command)
      case None => None
      case Some(output) => Some(FromServiceOutput(output))
  }

  /** The result `execute` gives: the Shizuku attempt when Shizuku is to be used
      and the attempt produced something, and the `su` path in every other case. */
  function ExecuteResult(viaShizuku: bool, c: Connection, wait: BindWait, remote: RemoteExec,
                         su: RootShell, command: string): (r: ShellResult)
    ensures Consistent(r)
    ensures !viaShizuku ==> r == ExecuteViaSu(command, su)
    ensures viaShizuku && ShizukuAttempt(c, wait, remote, command).None? ==> r == ExecuteViaSu(command, su)
    ensures viaShizuku && ShizukuAttempt(c, wait, remote, command).Some? ==>
      r == ShizukuAttempt(c, wait, remote, command).value
  {
    if viaShizuku then
      match ShizukuAttempt(c, wait, remote, command)
      case Some(result) => result
      case None => ExecuteViaSu(command, su)
    else
      ExecuteViaSu(command, su)
  }

  /** `isRootAvailable`'s test on the result of `execute("id")`. */
  function ShowsRoot(r: ShellResult): (root: bool)
    ensures root <==> r.isSuccess && exists i :: OccursAt(r.output, ShizukuHelper.RootUidMarker, i)
  {
    r.isSuccess && Contains(r.output, ShizukuHelper.RootUidMarker)
  }

  /** An exception in the user service reaches the app as a failure with exit code -1. */
  lemma ServiceExceptionIsFailure(command: string, run: Launcher)
    requires run(ShellService.ShArgv(command)).Threw?
    ensures var r := FromServiceOutput(ShellService.Exec(command, run));
      !r.isSuccess && r.exitCode == -1 && r.error == r.output
  {
    var out := ShellService.Exec(command, run);
    assert out[..|ErrorMarker|] == ShellService.ErrorPrefix[..|ErrorMarker|];
  }

  /** Through the user service, a command's exit code never reaches the result:
      two runs that differ only in their exit codes give the same result. */
  lemma ServiceIgnoresExitCode(command: string, run1: Launcher, run2: Launcher)
    requires run1(ShellService.ShArgv(command)).Finished? && run2(ShellService.ShArgv(command)).Finished?
    requires run1(ShellService.ShArgv(command)).stdout == run2(ShellService.ShArgv(command)).stdout
    requires run1(ShellService.ShArgv(command)).stderr == run2(ShellService.ShArgv(command)).stderr
    ensures FromServiceOutput(ShellService.Exec(command, run1)) == FromServiceOutput(ShellService.Exec(command, run2))
  {
  }

  /** A run with no standard output whose standard error lacks the error marker is
      reported as a success with exit code 0, whatever its real exit code. */
  lemma SilentRunIsSuccess(command: string, run: Launcher)
    requires run(ShellService.ShArgv(command)).Finished?
    requires run(ShellService.ShArgv(command)).stdout == []
    requires !(ErrorMarker <= run(ShellService.ShArgv(command)).stderr)
    ensures var r := FromServiceOutput(ShellService.Exec(command, run));
      r.isSuccess && r.exitCode == 0 && r.output == run(ShellService.ShArgv(command)).stderr
  {
  }

  /** Right after `checkShizukuStatus`, `execute` takes the Shizuku path exactly
      when the status is `Ready` (the Shizuku answers being unchanged). */
  lemma ShizukuPathExactlyWhenReady(hasDirectRoot: bool, api: ShizukuHelper.ShizukuApi)
    ensures var status := ShizukuHelper.StatusFor(hasDirectRoot, api);
      (ShizukuHelper.IsShizukuAvailable(api) && !(status == ShizukuHelper.UsingRootDirectly))
        <==> status == ShizukuHelper.Ready
  {
  }

  /** The executor object: the bound service and the connection signal. */
  class ShellExecutor {
    var shellService: Option<Binder>
    /** Whether the current connection signal has been completed. */
    var serviceConnected: bool
    /** How many times the current signal has been completed. */
    ghost var completions: nat
    /** How many connection signals have been created. */
    ghost var signals: nat

    /** A signal is completed at most once. */
    ghost predicate Valid()
      reads this
    {
      completions == (if serviceConnected then 1 else 0)
    }

    function State(): Connection
      reads this
    {
      Connection(shellService, serviceConnected)
    }

    constructor ()
      ensures Valid()
      ensures shellService == None && !serviceConnected && signals == 1
    {
      shellService := None;
      serviceConnected := false;
      completions := 0;
      signals := 1;
    }

    /** `onServiceConnected`: records the service and completes the signal unless
        it is already completed. */
    method OnServiceConnected(service: Option<Binder>)
      requires Valid()
      modifies this
      ensures Valid()
      ensures shellService == service && serviceConnected && signals == old(signals)
      ensures old(serviceConnected) ==> completions == old(completions)
    {
      shellService := service;
      if !serviceConnected {
        serviceConnected := true;
        completions := completions + 1;
      }
    }

    /** `onServiceDisconnected`: forgets the service and installs a fresh,
        uncompleted signal. */
    method OnServiceDisconnected()
      requires Valid()
      modifies this
      ensures Valid()
      ensures shellService == None && !serviceConnected && signals == old(signals) + 1
    {
      shellService := None;
      serviceConnected := false;
      completions := 0;
      signals := signals + 1;
    }

    /** `executeViaShizuku`. */
    method ExecuteViaShizuku(command: string, wait: BindWait, remote: RemoteExec) returns (r: Option<ShellResult>)
      requires Valid()
      modifies this
      ensures Valid()
      ensures r == ShizukuAttempt(old(State()), wait, remote, command)
      ensures State() == AfterBindWait(old(State()), wait) && signals == old(signals)
    {
      if shellService.None? {
        // bindShizukuService(); the callback may arrive during the wait
        if wait.Callback? {
          OnServiceConnected(wait.service);
        }
        var connected := serviceConnected;
        if !connected || shellService.None? {
          return None;
        }
      }
      var reply := remote(command);
      if reply.None? {
        return None;
      }
      return Some(FromServiceOutput(reply.value));
    }

    /** `execute`: routes by the Shizuku answers and the helper's direct-root flag. */
    method Execute(command: string, helper: ShizukuHelper.ShizukuHelper, api: ShizukuHelper.ShizukuApi,
                   wait: BindWait, remote: RemoteExec, su: RootShell) returns (r: ShellResult)
      requires Valid()
      modifies this
      ensures Valid()
      ensures var viaShizuku := ShizukuHelper.IsShizukuAvailable(api) && !helper.IsUsingDirectRoot();
        && r == ExecuteResult(viaShizuku, old(State()), wait, remote, su, command)
        && State() == (if viaShizuku then AfterBindWait(old(State()), wait) else old(State()))
      ensures signals == old(signals)
    {
      if ShizukuHelper.IsShizukuAvailable(api) && !helper.IsUsingDirectRoot() {
        var shizukuResult := ExecuteViaShizuku(command, wait, remote);
        if shizukuResult.Some? {
          return shizukuResult.value;
        }
      }
      r := ExecuteViaSu(command, su);
    }

    /** `isRootAvailable`: `execute("id")` succeeds and prints the root uid. */
    method IsRootAvailable(helper: ShizukuHelper.ShizukuHelper, api: ShizukuHelper.ShizukuApi,
                           wait: BindWait, remote: RemoteExec, su: RootShell) returns (root: bool)
      requires Valid()
      modifies this
      ensures Valid()
      ensures var viaShizuku := ShizukuHelper.IsShizukuAvailable(api) && !helper.IsUsingDirectRoot();
        && root == ShowsRoot(ExecuteResult(viaShizuku, old(State()), wait, remote, su, "id"))
        && State() == (if viaShizuku then AfterBindWait(old(State()), wait) else old(State()))
      ensures signals == old(signals)
    {
      var result := Execute("id", helper, api, wait, remote, su);
      root := result.isSuccess && Contains(result.output, ShizukuHelper.RootUidMarker);
    }
  }
}
