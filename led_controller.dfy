/** `LedController`: drives the red recording LED through its sysfs brightness
    file, either with a single write or with a background animation job that
    repeats a blink or breathing cycle. */
module LedController {
  import opened KotlinText
  import ShellExecutor

  const LedBrightnessPath := "/sys/class/leds/red/brightness"

  /** The largest brightness the LED accepts. */
  const MaxLevel := 255

  /** `coerceIn(0, 255)`. */
  function Clamp(brightness: int): (level: int)
    ensures 0 <= level <= MaxLevel
    ensures 0 <= brightness <= MaxLevel ==> level == brightness
    ensures brightness < 0 ==> level == 0
    ensures brightness > MaxLevel ==> level == MaxLevel
  {
    if brightness < 0 then 0 else if brightness > MaxLevel then MaxLevel else brightness
  }

  const EchoHead := "echo "
  const EchoTail := " > " + LedBrightnessPath

  /** The shell command that writes `level` to the LED. */
  function EchoCommand(level: int): (command: string)
    ensures EchoHead <= command
    ensures |command| >= |EchoHead| + |EchoTail|
    ensures command[|command| - |EchoTail|..] == EchoTail
    ensures command[|EchoHead|..|command| - |EchoTail|] == IntToString(level)
  {
    var command := EchoHead + IntToString(level) + EchoTail;
    assert command[|EchoHead|..|command| - |EchoTail|] == IntToString(level);
    command
  }

  /** The shell command that reads the LED's brightness. */
  const CatCommand := "cat " + LedBrightnessPath

  /** The level an echo command writes, read back from the command text. */
  function EchoedLevel(command: string): (level: Option<int>)
    ensures level.Some? ==> EchoHead <= command
  {
    if EchoHead <= command && |command| >= |EchoHead| + |EchoTail|
       && command[|command| - |EchoTail|..] == EchoTail
    then ToIntOrNull(command[|EchoHead|..|command| - |EchoTail|])
    else None
  }

  /** The command for a write names exactly the level written. */
  lemma EchoCommandNamesLevel(level: int)
    requires IsInt(level)
    ensures EchoedLevel(EchoCommand(level)) == Some(level)
  {
    ParseFormatted(level);
  }

  /** `getCurrentBrightness`'s reading of the result of `cat`: the integer in the
      trimmed output, or -1 when the command failed or the output is not an integer. */
  function BrightnessFromRead(result: ShellExecutor.ShellResult): (level: int)
    ensures !result.isSuccess ==> level == -1
    ensures result.isSuccess && ToIntOrNull(Trim(result.output)).Some? ==>
      level == ToIntOrNull(Trim(result.output)).value
    ensures result.isSuccess && ToIntOrNull(Trim(result.output)).None? ==> level == -1
  {
    if result.isSuccess then ToIntOrNull(Trim(result.output)).GetOr(-1) else -1
  }

  /** `cat` printing a level as the LED driver does (a decimal number with
      surrounding whitespace such as the final newline) reads back as that level. */
  lemma ReadsBackPrintedLevel(level: int, before: string, after: string, result: ShellExecutor.ShellResult)
    requires IsInt(level)
    requires AllWhitespace(before) && AllWhitespace(after)
    requires result.isSuccess && result.output == before + IntToString(level) + after
    ensures BrightnessFromRead(result) == level
  {
    var text := IntToString(level);
    assert !IsWhitespace(text[0]) && !IsWhitespace(text[|text| - 1]);
    TrimPadded(before, text, after);
    assert Trim(result.output) == text;
    ParseFormatted(level);
  }

  /** What the controller does to the device, in order. */
  datatype Event =
    | Wrote(level: int)  // `echo level > path`
    | Queried            // `cat path`
    | Slept(ms: int)     // `delay(ms)`

  /** The levels written, in order. */
  function Levels(events: seq<Event>): seq<int> {
    if events == [] then [] else Written(events[0]) + Levels(events[1..])
  }

  /** The level one event writes, if any. */
  function Written(e: Event): (levels: seq<int>)
    ensures |levels| <= 1
  {
    if e.Wrote? then [e.level] else []
  }

  lemma {:induction false} LevelsAppend(a: seq<Event>, b: seq<Event>)
    ensures Levels(a + b) == Levels(a) + Levels(b)
  {
    if a == [] {
      assert a + b == b;
    } else {
      var ab := a + b;
      assert ab[0] == a[0] && ab[1..] == a[1..] + b;
      LevelsAppend(a[1..], b);
      calc {
        Levels(ab);
        Written(a[0]) + Levels(a[1..] + b);
        Written(a[0]) + (Levels(a[1..]) + Levels(b));
        (Written(a[0]) + Levels(a[1..])) + Levels(b);
      }
    }
  }

  /** A background animation, with the arguments it was started with. */
  datatype Animation =
    | Blink(delayOnMs: int, delayOffMs: int, brightness: int)
    | Breathe(maxBrightness: int)

  /** One iteration of the blink loop: the LED lights at the clamped brightness
      for the on-delay, then is off for the off-delay. */
  function BlinkCycle(delayOnMs: int, delayOffMs: int, brightness: int): (c: seq<Event>)
    ensures |c| == 4 && Levels(c) == [Clamp(brightness), 0]
    ensures c[0] == Wrote(Clamp(brightness)) && c[1] == Slept(delayOnMs)
    ensures c[2] == Wrote(0) && c[3] == Slept(delayOffMs)
  {
    var c := [Wrote(Clamp(brightness)), Slept(delayOnMs), Wrote(0), Slept(delayOffMs)];
    assert Levels(c[3..]) == [] by { assert c[3..][1..] == []; }
    assert Levels(c[2..]) == [0] by { assert c[2..][1..] == c[3..]; }
    assert Levels(c[1..]) == [0] by { assert c[1..][1..] == c[2..]; }
    c
  }

  /** Kotlin's `toInt()` on a positive or negative tenth: truncation toward zero. */
  function TruncTenth(a: int): (q: int)
    ensures a >= 0 ==> q >= 0
    ensures a <= 0 ==> q <= 0
    ensures (if q < 0 then -q else q) == (if a < 0 then -a else a) / 10
  {
    if a >= 0 then a / 10 else -((-a) / 10)
  }

  /** Step `i` of the breathing ramp before clamping: `maxBrightness * i / 10`
      truncated toward zero, from 0 at `i = 0` to the maximum at `i = 10`. */
  function BreathValue(maxBrightness: int, i: int): (v: int)
    ensures i == 0 ==> v == 0
    ensures i == 10 ==> v == maxBrightness
  {
    TruncTenth(maxBrightness * i)
  }

  /** Event `j` of a ramp whose steps are taken from `step`: even positions write
      the clamped level of the step, odd ones are the 50 ms delay after it. */
  function RampEvent(maxBrightness: int, step: int, j: int): Event {
    if j % 2 == 0 then Wrote(Clamp(BreathValue(maxBrightness, step))) else Slept(50)
  }

  /** The first `n` steps of the ramp up, `i = 0, 1, ..., n - 1`: a write and a
      delay each (`RampUpEvents` gives every event). */
  function RampUp(maxBrightness: int, n: nat): (steps: seq<Event>)
    ensures |steps| == 2 * n
  {
    if n == 0 then []
    else RampUp(maxBrightness, n - 1) + [Wrote(Clamp(BreathValue(maxBrightness, n - 1))), Slept(50)]
  }

  /** The steps of the ramp down, `i = 10, 9, ..., low`: a write and a delay each
      (`RampDownEvents` gives every event). */
  function RampDown(maxBrightness: int, low: nat): (steps: seq<Event>)
    ensures |steps| == if low > 10 then 0 else 2 * (11 - low)
    decreases 11 - low
  {
    if low > 10 then []
    else RampDown(maxBrightness, low + 1) + [Wrote(Clamp(BreathValue(maxBrightness, low))), Slept(50)]
  }

  /** One iteration of the breathing loop: the ramp up over steps 0 to 10, a
      200 ms pause, the ramp down over steps 10 to 0, a 500 ms pause
      (`BreathCycleEvents` gives every event). */
  function BreathCycle(maxBrightness: int): (c: seq<Event>)
    ensures |c| == 46 && c[22] == Slept(200) && c[45] == Slept(500)
  {
    RampUp(maxBrightness, 11) + [Slept(200)] + RampDown(maxBrightness, 0) + [Slept(500)]
  }

  /** The events of a trace after one more step: the earlier ones, then the two new ones. */
  lemma EventsAfterStep(before: seq<Event>, after: seq<Event>, write: Event, pause: Event)
    requires after == before + [write, pause]
    ensures |after| == |before| + 2 && after[|before|] == write && after[|before| + 1] == pause
    ensures forall j :: 0 <= j < |before| ==> after[j] == before[j]
  {
  }

  /** Event `j` of the ramp up is the write of step `j / 2` or the delay after it. */
  lemma {:induction false} RampUpEvents(maxBrightness: int, n: nat)
    ensures forall j :: 0 <= j < 2 * n ==> RampUp(maxBrightness, n)[j] == RampEvent(maxBrightness, j / 2, j)
  {
    if n > 0 {
      var prev, steps := RampUp(maxBrightness, n - 1), RampUp(maxBrightness, n);
      RampUpEvents(maxBrightness, n - 1);
      EventsAfterStep(prev, steps, Wrote(Clamp(BreathValue(maxBrightness, n - 1))), Slept(50));
      forall j | 0 <= j < 2 * n ensures steps[j] == RampEvent(maxBrightness, j / 2, j) {
        if j < |prev| {
          assert steps[j] == prev[j];
        }
      }
    }
  }

  /** Event `j` of the ramp down is the write of step `10 - j / 2` or the delay after it. */
  lemma {:induction false} RampDownEvents(maxBrightness: int, low: nat)
    requires low <= 11
    ensures forall j :: 0 <= j < 2 * (11 - low) ==> RampDown(maxBrightness, low)[j] == RampEvent(maxBrightness, 10 - j / 2, j)
    decreases 11 - low
  {
    if low <= 10 {
      var prev, steps := RampDown(maxBrightness, low + 1), RampDown(maxBrightness, low);
      RampDownEvents(maxBrightness, low + 1);
      EventsAfterStep(prev, steps, Wrote(Clamp(BreathValue(maxBrightness, low))), Slept(50));
      forall j | 0 <= j < 2 * (11 - low) ensures steps[j] == RampEvent(maxBrightness, 10 - j / 2, j) {
        if j < |prev| {
          assert steps[j] == prev[j];
        }
      }
    }
  }

  /** The whole timeline of a breathing iteration, event by event. */
  lemma BreathCycleEvents(maxBrightness: int)
    ensures var c := BreathCycle(maxBrightness);
      && (forall j :: 0 <= j < 22 ==> c[j] == RampEvent(maxBrightness, j / 2, j))
      && (forall j :: 23 <= j < 45 ==> c[j] == RampEvent(maxBrightness, 10 - (j - 23) / 2, j - 23))
  {
    var up, down := RampUp(maxBrightness, 11), RampDown(maxBrightness, 0);
    RampUpEvents(maxBrightness, 11);
    RampDownEvents(maxBrightness, 0);
    var c := BreathCycle(maxBrightness);
    assert c == up + [Slept(200)] + down + [Slept(500)];
    assert forall j :: 0 <= j < 22 ==> c[j] == up[j];
    assert forall j :: 23 <= j < 45 ==> c[j] == down[j - 23];
  }

  /** A trace extended by the ramp up to step `i`, then by step `i`. */
  lemma RampUpStep(t: seq<Event>, maxBrightness: int, i: nat)
    ensures t + RampUp(maxBrightness, i) + [Wrote(Clamp(BreathValue(maxBrightness, i))), Slept(50)]
         == t + RampUp(maxBrightness, i + 1)
  {
  }

  /** A trace extended by the ramp down to step `i + 1`, then by step `i`. */
  lemma RampDownStep(t: seq<Event>, maxBrightness: int, i: nat)
    requires i <= 10
    ensures t + RampDown(maxBrightness, i + 1) + [Wrote(Clamp(BreathValue(maxBrightness, i))), Slept(50)]
         == t + RampDown(maxBrightness, i)
  {
  }

  /** A breathing cycle appended to a trace, piece by piece. */
  lemma BreathCycleAfter(t: seq<Event>, maxBrightness: int)
    ensures t + BreathCycle(maxBrightness)
         == t + RampUp(maxBrightness, 11) + [Slept(200)] + RampDown(maxBrightness, 0) + [Slept(500)]
  {
  }

  function Cycle(animation: Animation): seq<Event> {
    match animation
    case Blink(delayOnMs, delayOffMs, brightness) => BlinkCycle(delayOnMs, delayOffMs, brightness)
    case Breathe(maxBrightness) => BreathCycle(maxBrightness)
  }

  /** A ramp step writes its level once. */
  lemma LevelsOfStep(level: int, ms: int)
    ensures Levels([Wrote(level), Slept(ms)]) == [level]
  {
    var step := [Wrote(level), Slept(ms)];
    assert step[1..] == [Slept(ms)];
    LevelsOfPause(ms);
  }

  /** One more ramp step adds its level to the levels written. */
  lemma LevelsAfterStep(before: seq<Event>, after: seq<Event>, level: int)
    requires after == before + [Wrote(level), Slept(50)]
    ensures Levels(after) == Levels(before) + [level]
  {
    LevelsAppend(before, [Wrote(level), Slept(50)]);
    LevelsOfStep(level, 50);
  }

  /** The levels after one more step: the earlier ones, then the new one. */
  lemma SnocLevels(l: seq<int>, lp: seq<int>, level: int)
    requires l == lp + [level]
    ensures |l| == |lp| + 1 && l[|lp|] == level
    ensures forall k :: 0 <= k < |lp| ==> l[k] == lp[k]
  {
  }

  lemma {:induction false} RampUpLevels(maxBrightness: int, n: nat)
    ensures |Levels(RampUp(maxBrightness, n))| == n
    ensures forall k :: 0 <= k < n ==> Levels(RampUp(maxBrightness, n))[k] == Clamp(BreathValue(maxBrightness, k))
  {
    if n > 0 {
      var level := Clamp(BreathValue(maxBrightness, n - 1));
      var prev := RampUp(maxBrightness, n - 1);
      RampUpLevels(maxBrightness, n - 1);
      LevelsAfterStep(prev, RampUp(maxBrightness, n), level);
      SnocLevels(Levels(RampUp(maxBrightness, n)), Levels(prev), level);
    }
  }

  lemma {:induction false} RampDownLevels(maxBrightness: int, low: nat)
    requires low <= 11
    ensures |Levels(RampDown(maxBrightness, low))| == 11 - low
    decreases 11 - low
    ensures forall k :: 0 <= k < 11 - low ==> Levels(RampDown(maxBrightness, low))[k] == Clamp(BreathValue(maxBrightness, 10 - k))
  {
    if low <= 10 {
      var level := Clamp(BreathValue(maxBrightness, low));
      var prev := RampDown(maxBrightness, low + 1);
      RampDownLevels(maxBrightness, low + 1);
      LevelsAfterStep(prev, RampDown(maxBrightness, low), level);
      SnocLevels(Levels(RampDown(maxBrightness, low)), Levels(prev), level);
    }
  }

  lemma ScaleMonotone(m: int, i: int, j: int)
    requires 0 <= m && i <= j
    ensures m * i <= m * j
  {
    assert m * (j - i) >= 0;
  }

  lemma ScaleNonPositive(m: int, j: int)
    requires m < 0 && 0 <= j
    ensures m * j <= 0
  {
  }

  lemma TruncTenthMonotone(a: int, b: int)
    requires a <= b
    ensures TruncTenth(a) <= TruncTenth(b)
  {
  }

  /** Ramp steps never decrease in brightness as `i` grows. */
  lemma BreathValueMonotone(maxBrightness: int, i: int, j: int)
    requires 0 <= i <= j
    ensures Clamp(BreathValue(maxBrightness, i)) <= Clamp(BreathValue(maxBrightness, j))
  {
    if maxBrightness >= 0 {
      ScaleMonotone(maxBrightness, i, j);
      TruncTenthMonotone(maxBrightness * i, maxBrightness * j);
    } else {
      ScaleNonPositive(maxBrightness, i);
      ScaleNonPositive(maxBrightness, j);
    }
  }

  /** The written levels of one breathing iteration. */
  function BreathLevels(maxBrightness: int): seq<int> {
    Levels(BreathCycle(maxBrightness))
  }

  /** The pauses of a breathing cycle write nothing. */
  lemma CycleLevels(up: seq<Event>, down: seq<Event>)
    ensures Levels(up + [Slept(200)] + down + [Slept(500)]) == Levels(up) + Levels(down)
  {
    var p1, p2 := [Slept(200)], [Slept(500)];
    var a := up + p1;
    var b := a + down;
    LevelsOfPause(200);
    LevelsOfPause(500);
    LevelsAppend(up, p1);
    LevelsAppend(a, down);
    LevelsAppend(b, p2);
  }

  lemma LevelsOfPause(ms: int)
    ensures Levels([Slept(ms)]) == []
  {
    assert [Slept(ms)][1..] == [];
  }

  lemma BreathLevelsAt(maxBrightness: int)
    ensures |BreathLevels(maxBrightness)| == 22
    ensures forall k :: 0 <= k < 11 ==> BreathLevels(maxBrightness)[k] == Clamp(BreathValue(maxBrightness, k))
    ensures forall k :: 11 <= k < 22 ==> BreathLevels(maxBrightness)[k] == Clamp(BreathValue(maxBrightness, 21 - k))
  {
    CycleLevels(RampUp(maxBrightness, 11), RampDown(maxBrightness, 0));
    RampUpLevels(maxBrightness, 11);
    RampDownLevels(maxBrightness, 0);
  }

  /** One breathing iteration writes 22 levels, steps 0 to 10 and then 10 down to 0:
      it starts and ends dark, peaks at the clamped maximum, rises through the first
      half, falls through the second, and is symmetric. */
  lemma BreathingShape(maxBrightness: int)
    ensures var l := BreathLevels(maxBrightness);
      && |l| == 22
      && l[0] == 0 && l[21] == 0
      && l[10] == Clamp(maxBrightness) && l[11] == Clamp(maxBrightness)
      && (forall a, b :: 0 <= a <= b <= 10 ==> l[a] <= l[b])
      && (forall a, b :: 11 <= a <= b < 22 ==> l[a] >= l[b])
      && (forall k :: 0 <= k < 22 ==> l[k] == l[21 - k])
      && (forall k :: 0 <= k < 22 ==> 0 <= l[k] <= Clamp(maxBrightness))
  {
    var l := BreathLevels(maxBrightness);
    BreathLevelsAt(maxBrightness);
    assert BreathValue(maxBrightness, 10) == maxBrightness;
    forall a, b | 0 <= a <= b <= 10 ensures l[a] <= l[b] {
      BreathValueMonotone(maxBrightness, a, b);
    }
    forall a, b | 11 <= a <= b < 22 ensures l[a] >= l[b] {
      BreathValueMonotone(maxBrightness, 21 - b, 21 - a);
    }
    forall k | 0 <= k < 22 ensures 0 <= l[k] <= Clamp(maxBrightness) {
      BreathValueMonotone(maxBrightness, if k < 11 then k else 21 - k, 10);
    }
  }

  /** The LED driver object: the animation job slot, every job launched so far
      (a job's id is its index), the jobs cancelled, and what was done to the device. */
  class LedController {
    var animationJob: Option<nat>
    var jobs: seq<Animation>
    var cancelled: set<nat>
    var trace: seq<Event>

    /** At most one job is active and it is the one in the slot; every level
        written is a valid brightness. */
    ghost predicate Valid()
      reads this
    {
      SlotValid() && TraceValid()
    }

    ghost predicate SlotValid()
      reads this`animationJob, this`jobs, this`cancelled
    {
      && (animationJob.Some? ==> animationJob.value < |jobs| && animationJob.value !in cancelled)
      && (forall id :: 0 <= id < |jobs| && id !in cancelled ==> animationJob == Some(id))
      && (forall id :: id in cancelled ==> id < |jobs|)
    }

    ghost predicate TraceValid()
      reads this`trace
    {
      forall k :: 0 <= k < |trace| && trace[k].Wrote? ==> 0 <= trace[k].level <= MaxLevel
    }

    /** The jobs whose loop is still running (`isActive`). */
    ghost function ActiveJobs(): (active: set<nat>)
      reads this
      ensures Valid() ==> active == if animationJob.Some? then {animationJob.value} else {}
    {
      set id: nat | id < |jobs| && id !in cancelled
    }

    /** The job the slot held, now cancelled. */
    ghost function SlotJob(): set<nat>
      reads this
    {
      if animationJob.Some? then {animationJob.value} else {}
    }

    constructor ()
      ensures Valid()
      ensures animationJob == None && jobs == [] && cancelled == {} && trace == []
    {
      animationJob := None;
      jobs := [];
      cancelled := {};
      trace := [];
    }

    /** `stopAnimations`: cancels the job in the slot and empties the slot. */
    method StopAnimations()
      requires Valid()
      modifies this`animationJob, this`cancelled
      ensures Valid() && animationJob == None && ActiveJobs() == {}
      ensures cancelled == old(cancelled) + old(SlotJob())
    {
      if animationJob.Some? {
        cancelled := cancelled + {animationJob.value};
      }
      animationJob := None;
    }

    /** `setBrightnessInternal`: writes the clamped brightness with one shell command
        and reports whether the command succeeded. */
    method SetBrightnessInternal(brightness: int, shell: string -> ShellExecutor.ShellResult) returns (ok: bool)
      requires Valid()
      modifies this`trace
      ensures Valid()
      ensures trace == old(trace) + [Wrote(Clamp(brightness))]
      ensures ok == shell(EchoCommand(Clamp(brightness))).isSuccess
    {
      var clamped := Clamp(brightness);
      var result := shell(EchoCommand(clamped));
      trace := trace + [Wrote(clamped)];
      ok := result.isSuccess;
    }

    /** `delay(ms)`. */
    method Sleep(ms: int)
      requires Valid()
      modifies this`trace
      ensures Valid()
      ensures trace == old(trace) + [Slept(ms)]
    {
      trace := trace + [Slept(ms)];
    }

    /** `turnOn`: stops any animation, then writes the brightness (255 by default). */
    method TurnOn(shell: string -> ShellExecutor.ShellResult, brightness: int := 255) returns (ok: bool)
      requires Valid()
      modifies this`animationJob, this`cancelled, this`trace
      ensures Valid() && animationJob == None && ActiveJobs() == {}
      ensures cancelled == old(cancelled) + old(SlotJob())
      ensures trace == old(trace) + [Wrote(Clamp(brightness))]
      ensures ok == shell(EchoCommand(Clamp(brightness))).isSuccess
    {
      StopAnimations();
      ok := SetBrightnessInternal(brightness, shell);
    }

    /** `turnOff`: stops any animation, then writes 0. */
    method TurnOff(shell: string -> ShellExecutor.ShellResult) returns (ok: bool)
      requires Valid()
      modifies this`animationJob, this`cancelled, this`trace
      ensures Valid() && animationJob == None && ActiveJobs() == {}
      ensures cancelled == old(cancelled) + old(SlotJob())
      ensures trace == old(trace) + [Wrote(0)]
      ensures ok == shell(EchoCommand(0)).isSuccess
    {
      StopAnimations();
      ok := SetBrightnessInternal(0, shell);
    }

    /** `stopBlinking`, which is `turnOff`. */
    method StopBlinking(shell: string -> ShellExecutor.ShellResult) returns (ok: bool)
      requires Valid()
      modifies this`animationJob, this`cancelled, this`trace
      ensures Valid() && animationJob == None && ActiveJobs() == {}
      ensures cancelled == old(cancelled) + old(SlotJob())
      ensures trace == old(trace) + [Wrote(0)]
      ensures ok == shell(EchoCommand(0)).isSuccess
    {
      ok := TurnOff(shell);
    }

    /** `setBrightness`: stops the animation if one is active, then writes. */
    method SetBrightness(brightness: int, shell: string -> ShellExecutor.ShellResult) returns (ok: bool)
      requires Valid()
      modifies this`animationJob, this`cancelled, this`trace
      ensures Valid() && animationJob == None && ActiveJobs() == {}
      ensures cancelled == old(cancelled) + old(SlotJob())
      ensures trace == old(trace) + [Wrote(Clamp(brightness))]
      ensures ok == shell(EchoCommand(Clamp(brightness))).isSuccess
    {
      if animationJob.Some? && animationJob.value !in cancelled {
        StopAnimations();
      }
      ok := SetBrightnessInternal(brightness, shell);
    }

    /** `getCurrentBrightness`: reads the brightness file back. */
    method GetCurrentBrightness(shell: string -> ShellExecutor.ShellResult) returns (level: int)
      requires Valid()
      modifies this`trace
      ensures Valid()
      ensures trace == old(trace) + [Queried]
      ensures level == BrightnessFromRead(shell(CatCommand))
    {
      var result := shell(CatCommand);
      trace := trace + [Queried];
      level := BrightnessFromRead(result);
    }

    /** Installs a newly launched job in the slot after cancelling the old one. */
    method Launch(animation: Animation)
      requires Valid()
      modifies this`animationJob, this`cancelled, this`jobs
      ensures Valid()
      ensures jobs == old(jobs) + [animation]
      ensures animationJob == Some(|old(jobs)|) && ActiveJobs() == {|old(jobs)|}
      ensures cancelled == old(cancelled) + old(SlotJob())
    {
      StopAnimations();
      jobs := jobs + [animation];
      animationJob := Some(|jobs| - 1);
    }

    /** `startBlinking`: replaces any animation by a blink loop. */
    method StartBlinking(delayOnMs: int := 500, delayOffMs: int := 500, brightness: int := 255) returns (started: bool)
      requires Valid()
      modifies this`animationJob, this`cancelled, this`jobs
      ensures Valid() && started
      ensures jobs == old(jobs) + [Blink(delayOnMs, delayOffMs, brightness)]
      ensures animationJob == Some(|old(jobs)|) && ActiveJobs() == {|old(jobs)|}
      ensures cancelled == old(cancelled) + old(SlotJob())
    {
      Launch(Blink(delayOnMs, delayOffMs, brightness));
      started := true;
    }

    /** `startBreathing`: replaces any animation by a breathing loop. */
    method StartBreathing(maxBrightness: int := 255) returns (started: bool)
      requires Valid()
      modifies this`animationJob, this`cancelled, this`jobs
      ensures Valid() && started
      ensures jobs == old(jobs) + [Breathe(maxBrightness)]
      ensures animationJob == Some(|old(jobs)|) && ActiveJobs() == {|old(jobs)|}
      ensures cancelled == old(cancelled) + old(SlotJob())
    {
      Launch(Breathe(maxBrightness));
      started := true;
    }

    /** The body of the blink loop. */
    method BlinkIteration(delayOnMs: int, delayOffMs: int, brightness: int,
                          shell: string -> ShellExecutor.ShellResult)
      requires Valid()
      modifies this`trace
      ensures Valid()
      ensures trace == old(trace) + BlinkCycle(delayOnMs, delayOffMs, brightness)
    {
      var ok := SetBrightnessInternal(brightness, shell);
      Sleep(delayOnMs);
      ok := SetBrightnessInternal(0, shell);
      Sleep(delayOffMs);
    }

    /** The body of the breathing loop: breathe in over steps 0 to 10, pause,
        breathe out over steps 10 down to 0, pause. */
    method BreatheIteration(maxBrightness: int, shell: string -> ShellExecutor.ShellResult)
      requires Valid()
      modifies this`trace
      ensures Valid()
      ensures trace == old(trace) + BreathCycle(maxBrightness)
    {
      BreathCycleAfter(trace, maxBrightness);
      BreatheIn(maxBrightness, shell);
      Sleep(200);
      BreatheOut(maxBrightness, shell);
      Sleep(500);
    }

    /** `for (i in 0..10)`: one write and one 50 ms delay per step. */
    method BreatheIn(maxBrightness: int, shell: string -> ShellExecutor.ShellResult)
      requires Valid()
      modifies this`trace
      ensures Valid()
      ensures trace == old(trace) + RampUp(maxBrightness, 11)
    {
      var i := 0;
      while i <= 10
        invariant 0 <= i <= 11
        invariant Valid()
        invariant trace == old(trace) + RampUp(maxBrightness, i)
      {
        var ok := SetBrightnessInternal(BreathValue(maxBrightness, i), shell);
        Sleep(50);
        RampUpStep(old(trace), maxBrightness, i);
        i := i + 1;
      }
    }

    /** `for (i in 10 downTo 0)`: one write and one 50 ms delay per step. */
    method BreatheOut(maxBrightness: int, shell: string -> ShellExecutor.ShellResult)
      requires Valid()
      modifies this`trace
      ensures Valid()
      ensures trace == old(trace) + RampDown(maxBrightness, 0)
    {
      var i := 10;
      while i >= 0
        invariant -1 <= i <= 10
        invariant Valid()
        invariant trace == old(trace) + RampDown(maxBrightness, i + 1)
      {
        var ok := SetBrightnessInternal(BreathValue(maxBrightness, i), shell);
        Sleep(50);
        RampDownStep(old(trace), maxBrightness, i);
        i := i - 1;
      }
    }

    /** One turn of job `id`'s `while (isActive)` loop: nothing once the job is
        cancelled, otherwise one full cycle of its animation. */
    method RunIteration(id: nat, shell: string -> ShellExecutor.ShellResult) returns (ran: bool)
      requires Valid() && id < |jobs|
      modifies this`trace
      ensures Valid()
      ensures ran <==> id in ActiveJobs()
      ensures ran ==> animationJob == Some(id)
      ensures trace == old(trace) + (if ran then Cycle(jobs[id]) else [])
    {
      if id in cancelled {
        return false;
      }
      ran := true;
      match jobs[id]
      case Blink(delayOnMs, delayOffMs, brightness) =>
        BlinkIteration(delayOnMs, delayOffMs, brightness, shell);
      case Breathe(maxBrightness) =>
        BreatheIteration(maxBrightness, shell);
    }
  }
}
