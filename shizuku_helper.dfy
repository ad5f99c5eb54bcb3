/** `ShizukuHelper`: decides how privileged commands can be run, by direct root
    (KernelSU/Magisk `su`) or through the Shizuku service, and remembers the answer
    in two flags. */
module ShizukuHelper {
  import opened KotlinText
  import opened Process

  datatype ShizukuStatus =
    | Checking
    | Ready               // Shizuku is running and has granted permission
    | PermissionRequired  // Shizuku is running, permission not granted
    | NotRunning          // Shizuku's binder does not answer
    | NotInstalled        // a Shizuku call threw
    | UsingRootDirectly   // `su` works without Shizuku

  /** The answer of one Shizuku API call: true, false, or an exception. */
  datatype Probe = Yes | No | Throws

  /** What the Shizuku API answers: `pingBinder()`, whether `checkSelfPermission()`
      equals `PERMISSION_GRANTED`, `shouldShowRequestPermissionRationale()` and
      `getUid()` (`None` when it throws). */
  datatype ShizukuApi = ShizukuApi(
    pingBinder: Probe,
    permissionGranted: Probe,
    showRationale: Probe,
    uid: Option<int>)

  /** The process `checkDirectRoot` starts. */
  const RootProbeArgv: seq<string> := ["su", "-c", "id"]

  /** What `id` prints for the root user. */
  const RootUidMarker := "uid=0"

  /** `checkDirectRoot`: `su -c id` exits with 0 and prints the root uid;
      any exception means no root. */
  function CheckDirectRoot(run: Launcher): (hasRoot: bool)
    ensures var p := run(RootProbeArgv);
      hasRoot <==> p.Finished? && p.exitCode == 0 && exists i :: OccursAt(p.stdout, RootUidMarker, i)
  {
    match run(RootProbeArgv)
    case Finished(stdout, _, exitCode) => exitCode == 0 && Contains(stdout, RootUidMarker)
    case Threw(_) => false
  }

  /** `isShizukuAvailable`: the binder answers and permission is granted; an
      exception from either call means not available. */
  function IsShizukuAvailable(api: ShizukuApi): (available: bool)
    ensures available <==> api.pingBinder == Yes && api.permissionGranted == Yes
  {
    match api.pingBinder
    case Yes => api.permissionGranted.Yes?
    case No => false
    case Throws => false
  }

  /** Some Shizuku call made by `checkShizukuStatus` threw before a status was chosen. */
  predicate StatusProbeThrew(api: ShizukuApi) {
    || api.pingBinder == Throws
    || (api.pingBinder == Yes && api.permissionGranted == Throws)
    || (api.pingBinder == Yes && api.permissionGranted == No && api.showRationale == Throws)
  }

  /** The status `checkShizukuStatus` returns, as a decision table over the root
      probe and the Shizuku answers: exactly one row applies to every input. */
  function StatusFor(hasDirectRoot: bool, api: ShizukuApi): (status: ShizukuStatus)
    ensures status != Checking
    ensures status == UsingRootDirectly <==> hasDirectRoot
    ensures status == Ready <==> !hasDirectRoot && IsShizukuAvailable(api)
    ensures status == NotRunning <==> !hasDirectRoot && api.pingBinder == No
    ensures status == PermissionRequired <==>
      !hasDirectRoot && api.pingBinder == Yes && api.permissionGranted == No && api.showRationale != Throws
    ensures status == NotInstalled <==> !hasDirectRoot && StatusProbeThrew(api)
  {
    if hasDirectRoot then
      UsingRootDirectly
    else
      match api.pingBinder
      case Throws => NotInstalled
      case No => NotRunning
      case Yes =>
        match api.permissionGranted
        case Throws => NotInstalled
        case Yes => Ready
        case No =>
          // the rationale answer does not change the status, but the call can throw
          match api.showRationale
          case Throws => NotInstalled
          case Yes => PermissionRequired
          case No => PermissionRequired
  }

  /** `requestPermission`: a permission request is sent only when the binder
      answers and permission is not granted yet; exceptions are swallowed. */
  function RequestsPermission(api: ShizukuApi): (requested: bool)
    ensures requested <==> api.pingBinder == Yes && api.permissionGranted == No
  {
    match api.pingBinder
    case Yes => api.permissionGranted.No?
    case No => false
    case Throws => false
  }

  /** `getShizukuUid`: the uid Shizuku reports, or -1 when the binder does not
      answer or a call throws. */
  function ShizukuUid(api: ShizukuApi): (uid: int)
    ensures api.pingBinder == Yes && api.uid.Some? ==> uid == api.uid.value
    ensures api.pingBinder != Yes || api.uid.None? ==> uid == -1
  {
    match api.pingBinder
    case Yes => api.uid.GetOr(-1)
    case No => -1
    case Throws => -1
  }

  /** The helper object and its two flags. */
  class ShizukuHelper {
    var directRootAvailable: bool
    var shizukuReady: bool

    constructor ()
      ensures !directRootAvailable && !shizukuReady
    {
      directRootAvailable := false;
      shizukuReady := false;
    }

    /** `isReady`: commands can run one way or the other. */
    function IsReady(): (ready: bool)
      reads this
      ensures directRootAvailable ==> ready
      ensures shizukuReady ==> ready
      ensures !directRootAvailable && !shizukuReady ==> !ready
    {
      directRootAvailable || shizukuReady
    }

    /** `isUsingDirectRoot`. */
    function IsUsingDirectRoot(): (direct: bool)
      reads this
      ensures direct <==> directRootAvailable
      ensures direct ==> IsReady()
    {
      directRootAvailable
    }

    /** `checkShizukuStatus`: probes direct root first and consults Shizuku only
        without it, setting the flags along the way. */
    method CheckShizukuStatus(run: Launcher, api: ShizukuApi) returns (status: ShizukuStatus)
      modifies this
      ensures status == StatusFor(CheckDirectRoot(run), api)
      ensures directRootAvailable <==> status == UsingRootDirectly
      ensures shizukuReady <==> status == Ready
      ensures !(directRootAvailable && shizukuReady)
      ensures IsReady() <==> status == Ready || status == UsingRootDirectly
    {
      var hasDirectRoot := CheckDirectRoot(run);
      if hasDirectRoot {
        directRootAvailable := true;
        shizukuReady := false;
        return UsingRootDirectly;
      }
      directRootAvailable := false;
      if api.pingBinder == Throws {
        shizukuReady := false;
        status := NotInstalled;
      } else if api.pingBinder == No {
        shizukuReady := false;
        status := NotRunning;
      } else if api.permissionGranted == Throws {
        shizukuReady := false;
        status := NotInstalled;
      } else if api.permissionGranted == Yes {
        // the Kotlin code also asks ShellExecutor to bind the user service here
        shizukuReady := true;
        status := Ready;
      } else if api.showRationale == Throws {
        shizukuReady := false;
        status := NotInstalled;
      } else if api.showRationale == Yes {
        shizukuReady := false;
        status := PermissionRequired;
      } else {
        shizukuReady := false;
        status := PermissionRequired;
      }
    }
  }
}
