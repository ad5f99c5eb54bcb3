# Recording-light control: LED driver, privileged shell routing and access status

This project models the logic beneath the user interface of an Android app that
drives the red recording LED of a phone through the sysfs file
`/sys/class/leds/red/brightness`. It has three layers:

- **LED driver** (`LedController`). Every write clamps the brightness to [0,255] and
  issues the shell command `echo N > /sys/class/leds/red/brightness`.
  `turnOn`, `turnOff` and `setBrightness` cancel a running animation before they write.
  `startBlinking` and `startBreathing` put a new background job in the single
  animation slot. Reading the brightness parses the output of `cat` and gives -1 on
  any failure.
- **Command routing** (`ShellExecutor`, plus `ShellService`, the Shizuku user
  service). A command goes to the Shizuku user service only when Shizuku is
  available and direct root is not in use. Otherwise it goes to a `su` process,
  and it also falls back to `su` when the service path gives nothing. Raw outcomes
  become a `ShellResult`.
- **Access status** (`ShizukuHelper`). A decision tree over the direct-root probe
  and the Shizuku answers gives one of six statuses and sets two flags.

Processes, Binder calls and the Shizuku API are not run. Each is an input value:

- `Process.Launcher` maps an argument vector to a `ProcessOutcome`: the stdout and
  stderr text and the exit code, or an exception with an optional message.
- `Process.RootShell` maps the script written to `su`'s standard input (as a string) to its outcome.
- `ShellExecutor.RemoteExec` is the Binder call `service.exec`. It gives the
  service's reply, or `None` when the call threw.
- `ShellExecutor.BindWait` is what arrives during the three-second wait for the
  service connection.
- `ShizukuHelper.ShizukuApi` holds the answers of `pingBinder`,
  `checkSelfPermission`, `shouldShowRequestPermissionRationale` and `getUid`. Each
  answer may be an exception.
- The LED driver gets `ShellExecutor.execute` as a parameter
  `shell: string -> ShellResult`, so each result is tied to the exact command text.

The objects that the app updates in place are classes:

- `ShizukuHelper.ShizukuHelper` holds the two flags.
- `ShellExecutor.ShellExecutor` holds the bound service and the connection
  signal. The signal is a completed flag; ghost counters record how often it was completed and how many signals were created.
- `LedController.LedController` holds the job slot, every job launched, the
  cancelled jobs and a timeline of device events (writes, reads, delays).

Its invariant `Valid()` says that at most one job is active, that the active job is
the one in the slot, and that every level written is in [0,255]. Each iteration of
an animation loop is a method (`RunIteration`, with `BlinkIteration` and
`BreatheIteration` holding the loops of the source). Each is proved against a
function (`BlinkCycle`, `BreathCycle`) whose shape is proved as lemmas.

`KotlinText` models the Kotlin library behaviour the code depends on:
`Char.isWhitespace`, `trim`, `contains`, `Int.toString` and `toInt` (with its sign
rules and 32-bit range).

## Model

| member | source | states |
|---|---|---|
| `LedController.Clamp` | app/src/main/java/com/np3/reclight/led/LedController.kt:34 | the level lies in [0,255]; it equals the request inside the range, 0 below it and 255 above it |
| `LedController.EchoCommand` | app/src/main/java/com/np3/reclight/led/LedController.kt:19-35 | the write command is `echo `, then the decimal level, then ` > /sys/class/leds/red/brightness` |
| `LedController.EchoCommandNamesLevel` | app/src/main/java/com/np3/reclight/led/LedController.kt:35 | the level can be read back from the write command's text: formatting and parsing are inverse |
| `LedController.BrightnessFromRead` | app/src/main/java/com/np3/reclight/led/LedController.kt:45-52 | -1 when `cat` fails; otherwise the integer parse of the trimmed output, or -1 when that is not an integer |
| `LedController.ReadsBackPrintedLevel` | app/src/main/java/com/np3/reclight/led/LedController.kt:46-49 | a successful `cat` that prints a level in decimal, padded with whitespace such as a newline, reads back as that level |
| `LedController.LedController.GetCurrentBrightness` | app/src/main/java/com/np3/reclight/led/LedController.kt:45-52 | issues the `cat /sys/class/leds/red/brightness` command and returns `BrightnessFromRead` of its result; writes nothing |
| `LedController.LedController.SetBrightnessInternal` | app/src/main/java/com/np3/reclight/led/LedController.kt:33-36 | exactly one write, of the clamped level; returns whether the echo command for that level succeeded |
| `LedController.LedController.StopAnimations` | app/src/main/java/com/np3/reclight/led/LedController.kt:54-57 | the job in the slot is cancelled and the slot is empty; no job stays active |
| `LedController.LedController.Sleep` | app/src/main/java/com/np3/reclight/led/LedController.kt:74-76 | `delay(ms)` only records a delay of that length in the device timeline |
| `LedController.LedController.TurnOn` | app/src/main/java/com/np3/reclight/led/LedController.kt:23-26 | cancels the slot's job, then makes one write of the clamped brightness (255 by default); afterwards no job is active |
| `LedController.LedController.TurnOff` | app/src/main/java/com/np3/reclight/led/LedController.kt:28-31 | cancels the slot's job, then makes one write of 0; afterwards no job is active |
| `LedController.LedController.StopBlinking` | app/src/main/java/com/np3/reclight/led/LedController.kt:59 | the same effect as `TurnOff` |
| `LedController.LedController.SetBrightness` | app/src/main/java/com/np3/reclight/led/LedController.kt:38-43 | cancels the job only when one is active, then makes one write of the clamped brightness; afterwards no job is active |
| `LedController.LedController.Launch` | app/src/main/java/com/np3/reclight/led/LedController.kt:66-78 | cancels the previous job and installs the new one as the only active job |
| `LedController.LedController.StartBlinking` | app/src/main/java/com/np3/reclight/led/LedController.kt:61-81 | returns true; the previous job is cancelled and a blink job with the given delays and brightness (defaults 500, 500, 255) is the only active job |
| `LedController.LedController.StartBreathing` | app/src/main/java/com/np3/reclight/led/LedController.kt:83-109 | returns true; the previous job is cancelled and a breathing job (default maximum 255) is the only active job |
| `LedController.LedController.BlinkIteration` | app/src/main/java/com/np3/reclight/led/LedController.kt:72-77 | appends exactly one blink cycle to the device timeline |
| `LedController.LedController.BreatheIteration` | app/src/main/java/com/np3/reclight/led/LedController.kt:90-105 | its two step loops append exactly one breathing cycle to the device timeline |
| `LedController.LedController.BreatheIn` | app/src/main/java/com/np3/reclight/led/LedController.kt:92-95 | appends steps 0 to 10 of the ramp up, each a write of the clamped step level and a 50 ms delay |
| `LedController.LedController.BreatheOut` | app/src/main/java/com/np3/reclight/led/LedController.kt:98-101 | appends steps 10 down to 0 of the ramp down, each a write of the clamped step level and a 50 ms delay |
| `LedController.RampUpLevels` | app/src/main/java/com/np3/reclight/led/LedController.kt:92-95 | the ramp up of n steps writes n levels, the k-th being step k |
| `LedController.RampDownLevels` | app/src/main/java/com/np3/reclight/led/LedController.kt:98-101 | the ramp down from step 10 to step `low` writes 11 - `low` levels, the k-th being step 10 - k |
| `LedController.LedController.constructor` | app/src/main/java/com/np3/reclight/led/LedController.kt:21 | an empty slot, no jobs and nothing done to the device |
| `LedController.LedController.RunIteration` | app/src/main/java/com/np3/reclight/led/LedController.kt:71-106 | a cancelled job writes nothing; an active job is the one in the slot, and it appends one full cycle of its animation |
| `LedController.BlinkCycle` | app/src/main/java/com/np3/reclight/led/LedController.kt:72-77 | one blink iteration is four events: a write of the clamped brightness, the on-delay, a write of 0, the off-delay; its written levels are the clamped brightness, then 0 |
| `LedController.BreathValue` | app/src/main/java/com/np3/reclight/led/LedController.kt:93 | step 0 of the ramp is 0 and step 10 is the maximum itself |
| `LedController.RampUp` | app/src/main/java/com/np3/reclight/led/LedController.kt:92-95 | the ramp up to step n is 2n events |
| `LedController.RampDown` | app/src/main/java/com/np3/reclight/led/LedController.kt:98-101 | the ramp down from step 10 to step `low` is 2(11 - `low`) events |
| `LedController.RampUpEvents` | app/src/main/java/com/np3/reclight/led/LedController.kt:92-95 | event j of the ramp up is the write of the clamped level of step j/2 when j is even and the 50 ms delay after it when j is odd |
| `LedController.RampDownEvents` | app/src/main/java/com/np3/reclight/led/LedController.kt:98-101 | event j of the ramp down is the write of the clamped level of step 10 - j/2 when j is even and the 50 ms delay after it when j is odd |
| `LedController.BreathCycle` | app/src/main/java/com/np3/reclight/led/LedController.kt:90-105 | one breathing iteration is 46 events, with the 200 ms pause at position 22 and the 500 ms pause at the end |
| `LedController.BreathCycleEvents` | app/src/main/java/com/np3/reclight/led/LedController.kt:90-105 | events 0-21 are steps 0 to 10 of the ramp up, each a write and a 50 ms delay; events 23-44 are steps 10 down to 0 of the ramp down |
| `LedController.BreathingShape` | app/src/main/java/com/np3/reclight/led/LedController.kt:92-103 | a breathing cycle writes 22 levels that start and end at 0 and peak at the clamped maximum (steps 10 and 11); they never decrease in the first half and never increase in the second; the cycle is symmetric and stays within [0, clamped maximum] |
| `LedController.BreathLevelsAt` | app/src/main/java/com/np3/reclight/led/LedController.kt:92-103 | the k-th level of a breathing cycle is step k of the ramp up for k < 11, and step 21-k of the ramp down after that |
| `LedController.BreathValueMonotone` | app/src/main/java/com/np3/reclight/led/LedController.kt:93 | the clamped ramp level never decreases as the step index grows, for any maximum, negative ones included |
| `LedController.TruncTenth` | app/src/main/java/com/np3/reclight/led/LedController.kt:93 | a tenth of the value is rounded toward zero, as `toInt()` does, for both signs |
| `LedController.LedController.ActiveJobs` | app/src/main/java/com/np3/reclight/led/LedController.kt:21 | under the invariant, the active jobs are exactly the one in the slot, or none: at most one job is ever active |
| `LedController.LevelsAppend` | app/src/main/java/com/np3/reclight/led/LedController.kt:92-103 | the levels written by two event sequences in a row are the levels of the first, then those of the second |
| `ShellService.Exec` | app/src/main/java/com/np3/reclight/shizuku/ShellService.kt:22-43 | stdout when it is non-empty and stderr otherwise, whatever the exit code; an exception gives `Error: ` followed by the message (`null` when it has none) |
| `ShellService.ExecGetExitCode` | app/src/main/java/com/np3/reclight/shizuku/ShellService.kt:48-59 | the process exit code, or -1 when running it threw |
| `ShellService.MessageText` | app/src/main/java/com/np3/reclight/shizuku/ShellService.kt:41 | the exception message itself, or `null` when there is none, as the string template renders it |
| `ShellService.ShArgv` | app/src/main/java/com/np3/reclight/shizuku/ShellService.kt:25 | the argument vector is exactly `sh`, `-c` and the command |
| `ShellExecutor.FromServiceOutput` | app/src/main/java/com/np3/reclight/shizuku/ShellExecutor.kt:132-140 | a reply starting with `Error:` gives a failure with exit code -1 and the reply as its error; any other reply gives a success with exit code 0 and no error; the output is the raw reply |
| `ShellExecutor.SuScript` | app/src/main/java/com/np3/reclight/shizuku/ShellExecutor.kt:159-160 | the text written to `su` is the command, a newline, then `exit` and a newline |
| `ShellExecutor.ExecuteViaSu` | app/src/main/java/com/np3/reclight/shizuku/ShellExecutor.kt:150-199 | the result gives the process's stdout, stderr and exit code, with success meaning exit code 0; an exception gives a failure with empty output, exit code -1 and the message, or `Unknown error` when there is none |
| `ShellExecutor.AfterBindWait` | app/src/main/java/com/np3/reclight/shizuku/ShellExecutor.kt:111-120 | a bound service stays as it is; an unbound one becomes the binder delivered by the connection callback, with the signal completed, or is left unchanged when the wait times out |
| `ShellExecutor.ShizukuAttempt` | app/src/main/java/com/np3/reclight/shizuku/ShellExecutor.kt:109-145 | no result exactly when no service is bound after the wait or the Binder call threw; otherwise the reply mapped by `FromServiceOutput` |
| `ShellExecutor.ExecuteResult` | app/src/main/java/com/np3/reclight/shizuku/ShellExecutor.kt:91-104 | the result always has success exactly when its exit code is 0. It comes from `su` unless Shizuku is to be used; in that case it is the Shizuku attempt when there is one, and `su` otherwise |
| `ShellExecutor.ShowsRoot` | app/src/main/java/com/np3/reclight/shizuku/ShellExecutor.kt:217 | root is shown when the result is a success and its output contains `uid=0` somewhere |
| `ShellExecutor.ServiceExceptionIsFailure` | app/src/main/java/com/np3/reclight/shizuku/ShellService.kt:39-42 | an exception inside the service reaches the executor as a failure with exit code -1, whose error is the reply |
| `ShellExecutor.ServiceIgnoresExitCode` | app/src/main/java/com/np3/reclight/shizuku/ShellService.kt:32-38 | on the Shizuku path, two runs that differ only in their exit codes give the same result |
| `ShellExecutor.SilentRunIsSuccess` | app/src/main/java/com/np3/reclight/shizuku/ShellExecutor.kt:133-136 | on the Shizuku path, a run with empty stdout whose stderr lacks `Error:` is reported as a success with exit code 0, with stderr as its output |
| `ShellExecutor.ShizukuPathExactlyWhenReady` | app/src/main/java/com/np3/reclight/shizuku/ShellExecutor.kt:95 | right after a status check, with the Shizuku answers unchanged, `execute` takes the Shizuku path exactly when the status is READY |
| `ShellExecutor.ShellExecutor.constructor` | app/src/main/java/com/np3/reclight/shizuku/ShellExecutor.kt:25-26 | no service and one uncompleted signal |
| `ShellExecutor.ShellExecutor.OnServiceConnected` | app/src/main/java/com/np3/reclight/shizuku/ShellExecutor.kt:37-43 | records the binder and completes the signal; a signal that is already completed is not completed again |
| `ShellExecutor.ShellExecutor.OnServiceDisconnected` | app/src/main/java/com/np3/reclight/shizuku/ShellExecutor.kt:45-49 | clears the service and installs a fresh, uncompleted signal |
| `ShellExecutor.ShellExecutor.ExecuteViaShizuku` | app/src/main/java/com/np3/reclight/shizuku/ShellExecutor.kt:109-145 | returns `ShizukuAttempt` of the state before the call; the connection state becomes `AfterBindWait` of it |
| `ShellExecutor.ShellExecutor.Execute` | app/src/main/java/com/np3/reclight/shizuku/ShellExecutor.kt:91-104 | returns `ExecuteResult`. The Shizuku path is chosen by `isShizukuAvailable` and the helper's direct-root flag, and only that path touches the connection state |
| `ShellExecutor.ShellExecutor.IsRootAvailable` | app/src/main/java/com/np3/reclight/shizuku/ShellExecutor.kt:214-221 | true exactly when the result `execute("id")` gives shows root; the connection state changes as `execute` changes it (only on the Shizuku path) and no signal is created |
| `ShizukuHelper.CheckDirectRoot` | app/src/main/java/com/np3/reclight/shizuku/ShizukuHelper.kt:71-87 | true exactly when `su -c id` finishes with exit code 0 and its stdout contains `uid=0`; an exception means false |
| `ShizukuHelper.IsShizukuAvailable` | app/src/main/java/com/np3/reclight/shizuku/ShizukuHelper.kt:119-126 | true exactly when the binder answers and permission is granted; an exception means false |
| `ShizukuHelper.StatusFor` | app/src/main/java/com/np3/reclight/shizuku/ShizukuHelper.kt:30-66 | never CHECKING. USING_ROOT_DIRECTLY exactly with direct root. Without it: READY exactly when Shizuku is available; NOT_RUNNING exactly when the binder does not answer; PERMISSION_REQUIRED when permission is denied, whatever the rationale answer; NOT_INSTALLED exactly when a probe threw |
| `ShizukuHelper.RequestsPermission` | app/src/main/java/com/np3/reclight/shizuku/ShizukuHelper.kt:92-102 | a request is sent exactly when the binder answers and permission is not granted |
| `ShizukuHelper.ShizukuUid` | app/src/main/java/com/np3/reclight/shizuku/ShizukuHelper.kt:132-142 | the reported uid when the binder answers and `getUid` does not throw; -1 otherwise |
| `ShizukuHelper.ShizukuHelper.constructor` | app/src/main/java/com/np3/reclight/shizuku/ShizukuHelper.kt:24-25 | both flags start false |
| `ShizukuHelper.ShizukuHelper.IsReady` | app/src/main/java/com/np3/reclight/shizuku/ShizukuHelper.kt:107-109 | ready whenever direct root or Shizuku is marked usable, not ready when neither is; with `CheckShizukuStatus` this is exactly after READY or USING_ROOT_DIRECTLY |
| `ShizukuHelper.ShizukuHelper.IsUsingDirectRoot` | app/src/main/java/com/np3/reclight/shizuku/ShizukuHelper.kt:114 | exactly the direct-root flag; using direct root implies ready |
| `ShizukuHelper.ShizukuHelper.CheckShizukuStatus` | app/src/main/java/com/np3/reclight/shizuku/ShizukuHelper.kt:30-66 | returns `StatusFor` of the root probe and the Shizuku answers. `directRootAvailable` holds exactly for USING_ROOT_DIRECTLY and `shizukuReady` exactly for READY, so they are never both true; `isReady()` holds exactly for READY or USING_ROOT_DIRECTLY (lines 107-109) |
| `KotlinText.IsWhitespace` | app/src/main/java/com/np3/reclight/led/LedController.kt:49 | space, tab, newline and carriage return are whitespace; no digit and no sign is |
| `KotlinText.Trim` | app/src/main/java/com/np3/reclight/led/LedController.kt:49 | the result is a slice of the input with only whitespace removed on either side, and it neither starts nor ends with whitespace |
| `KotlinText.TrimPadded` | app/src/main/java/com/np3/reclight/led/LedController.kt:49 | trimming a text padded with whitespace gives back exactly that text |
| `KotlinText.TrimIdempotent` | app/src/main/java/com/np3/reclight/led/LedController.kt:49 | trimming twice equals trimming once |
| `KotlinText.LeadingSpace` | app/src/main/java/com/np3/reclight/led/LedController.kt:49 | the count of whitespace characters before the first other character |
| `KotlinText.TrailingSpace` | app/src/main/java/com/np3/reclight/led/LedController.kt:49 | the count of whitespace characters after the last other character |
| `KotlinText.ToIntOrNull` | app/src/main/java/com/np3/reclight/led/LedController.kt:49-50 | a value exactly when the text is an optional `-` or `+` followed by at least one decimal digit whose signed value fits in a 32-bit `Int`, and then that signed value (leading zeros allowed) |
| `KotlinText.ParseSamples` | app/src/main/java/com/np3/reclight/led/LedController.kt:49-50 | `+7` and `007` parse as 7, `-0` as 0; `-`, `12a`, ` 1` and the empty text do not parse |
| `KotlinText.ParseFormatted` | app/src/main/java/com/np3/reclight/led/LedController.kt:35-49 | every 32-bit `Int` printed in decimal parses back to itself |
| `KotlinText.NatToDecimal` | app/src/main/java/com/np3/reclight/led/LedController.kt:35 | the digits, without leading zeros, denote the number |
| `KotlinText.IntToString` | app/src/main/java/com/np3/reclight/led/LedController.kt:35 | a `-` exactly for negative numbers, followed by the canonical decimal numeral of the magnitude: at least one digit, no leading zero except for 0 itself, denoting the magnitude |
| `KotlinText.Contains` | app/src/main/java/com/np3/reclight/shizuku/ShizukuHelper.kt:80 | true exactly when the text occurs at some position |

## Left out

- Real process spawning, stream reading, Binder calls and sysfs I/O. Each is an input outcome (see above), and what a command does to the device is not modelled.
- The `runBlocking`/`withTimeoutOrNull` three-second wait. It is the `BindWait` input (callback arrived, or timed out).
- Coroutine timing and concurrency: `delay` durations are only recorded, and the infinite `while (isActive)` loop is one turn per `RunIteration` call. A cancelled job's write that is already in flight, racing a later `turnOn`, is not modelled. A job is cancelled only between iterations, not at a `delay` inside one.
- `LedController.BreathValue`: the source computes `(maxBrightness * (i / 10f)).toInt()` in 32-bit floating point. The model uses the integer `maxBrightness * i / 10` truncated toward zero. It does not reproduce float rounding, so a step whose float product lies just below or above an integer could in principle truncate differently. The properties proved in `BreathingShape` (0 at both ends, clamped maximum at step 10, monotone halves) hold for both.
- `ShellExecutor.SuScript` is the script as a string. `DataOutputStream.writeBytes` (ShellExecutor.kt:159-160) sends only the low byte of each character, so a command with a character above U+00FF does not reach `su` as written. The model does not narrow the script to bytes; every command the app sends is ASCII.
- `KotlinText.ToIntOrNull` accepts only ASCII digits. The JVM's `Character.digit` also accepts other Unicode decimal digits.
- `KotlinText.IsWhitespace` follows current Unicode space-separator tables. Older JVM tables that count U+180E as a space are not modelled.
- `bindShizukuService`, `unbindShizukuService` and `executeAsync`. They are Binder and thread glue. Binding matters only through the connection callback, and that is the `BindWait` input. The READY branch of `checkShizukuStatus` also requests a bind, and this only has an effect through that callback.
- `ShellService.destroy` (it calls `exitProcess`), and all logging.
- Which service the Binder proxy talks to. `RemoteExec` is whatever the bound service replies; the lemmas in `ShellExecutor` connect it to `ShellService.Exec`.
- The Compose UI, preferences, the float slider and blink-delay mappings, the widget and the quick-settings tile. They are presentation over the layers above.
