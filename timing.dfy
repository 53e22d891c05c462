/** The timing rules of the control loop, as values: the motion-profile constants and
    the step-delay clamp, the dwell fractions the schedulers compare against, the bulb
    preloader's once-per-stop latch and the not-ready watchdog. */
module Timing {
  import opened Io

  const TOTAL_STEPS := 200
  /** Ejector pulses are allowed only within this many microseconds of a stop. */
  const EJECT_WINDOW_US := 18000
  const TIMEOUT_MS := 2000

  // ---------------------------------------------------------------------------
  // Motion profile

  /** `MIN_STEP_DELAY`, `MAX_STEP_DELAY`, `ACCEL_STEPS`, `DECEL_STEPS`. */
  datatype Profile = Profile(minStepDelay: int, maxStepDelay: int, accelSteps: int, decelSteps: int)

  const NOMINAL := Profile(31, 616, 46, 15)
  /** The low-supply profile: every constant sixteen times the nominal one. */
  const SLOW := Profile(31 * 16, 616 * 16, 46 * 16, 15 * 16)

  predicate ProfileOk(p: Profile)
  {
    p == NOMINAL || p == SLOW
  }

  /** The two legs of the delay curve. The acceleration leg covers the first
      `accelSteps` pulses; every later pulse is on the deceleration leg, whose progress is
      counted from the end of acceleration. Each carries the numerator and denominator of
      the `float` progress passed to `pow`. */
  datatype Leg = Accelerating(done: int, span: int) | Decelerating(done: int, span: int)

  function LegOf(p: Profile, stepsTaken: int): Leg
  {
    if stepsTaken < p.accelSteps then Accelerating(stepsTaken, p.accelSteps)
    else Decelerating(stepsTaken - p.accelSteps, p.decelSteps)
  }

  /** Arduino's `constrain(x, lo, hi)`. */
  function Constrain(x: int, lo: int, hi: int): (r: int)
    requires lo <= hi
    ensures lo <= r <= hi
    ensures lo <= x <= hi ==> r == x
    ensures x < lo ==> r == lo
    ensures hi < x ==> r == hi
  {
    if x < lo then lo else if x > hi then hi else x
  }

  /** The delay before the next pulse edge: the curve's value for the current leg,
      clamped to the profile's range whatever the curve returns. */
  function StepDelay(p: Profile, stepsTaken: int, curve: (Profile, Leg) -> int): (d: int)
    requires ProfileOk(p)
    ensures p.minStepDelay <= d <= p.maxStepDelay
    ensures NOMINAL.minStepDelay <= d <= SLOW.maxStepDelay
  {
    Constrain(curve(p, LegOf(p, stepsTaken)), p.minStepDelay, p.maxStepDelay)
  }

  // ---------------------------------------------------------------------------
  // Dwell fractions

  /** `(float)elapsed / pauseAfter >= pct / 100`, read without float rounding. */
  predicate Reached(elapsed: int, pauseAfter: int, pct: int)
  {
    100 * elapsed >= pct * pauseAfter
  }

  /** `(float)steps / TOTAL_STEPS >= 0.25`. */
  predicate QuarterMoved(steps: int)
  {
    4 * steps >= TOTAL_STEPS
  }

  /** A quarter of the move is reached from the 50th completed step on, and not before. */
  lemma QuarterMovedFromStep50(steps: int)
    ensures QuarterMoved(steps) <==> steps >= 50
  {
  }

  /** Once a fraction is reached, every smaller fraction is too. */
  lemma ReachedMonotone(elapsed: int, pauseAfter: nat, lo: int, hi: int)
    requires lo <= hi && Reached(elapsed, pauseAfter, hi)
    ensures Reached(elapsed, pauseAfter, lo)
  {
    assert lo * pauseAfter <= hi * pauseAfter by {
      assert (hi - lo) * pauseAfter >= 0;
    }
  }

  // ---------------------------------------------------------------------------
  // The bulb preloader's once-per-stop latch (`preloadArmed`, `preloadFiredThisStop`)

  datatype Preload = Preload(lastMotor: bool, armed: bool, fired: bool)

  datatype PreloadResult = PreloadResult(next: Preload, fire: bool)

  /** One call: an idle edge arms the latch and clears `fired`, a moving edge disarms it,
      and the latch fires while idle, armed, not yet fired this stop and `ready`
      (the preload gate is open and a bulb waits in the preload position). */
  function PreloadStep(p: Preload, moving: bool, ready: bool): (r: PreloadResult)
    ensures r.next.lastMotor == moving
    ensures r.next.armed && !p.armed ==> p.lastMotor && !moving
    ensures !p.lastMotor && moving ==> !r.next.armed
    ensures r.fire ==> !moving && r.next.fired && (p.lastMotor || (p.armed && !p.fired))
    ensures r.next.fired && !(p.lastMotor && !moving) ==> p.fired || r.fire
  {
    var idleEdge := p.lastMotor && !moving;
    var movingEdge := !p.lastMotor && moving;
    var armed := if idleEdge then true else if movingEdge then false else p.armed;
    var fired := if idleEdge then false else p.fired;
    var fire := !moving && armed && !fired && ready;
    PreloadResult(Preload(moving, armed, fired || fire), fire)
  }

  /** The motor state seen by call `k` of a run as its previous one. */
  function PreviousMotor(first: bool, ms: seq<bool>, k: nat): bool
    requires k < |ms|
  {
    if k == 0 then first else ms[k - 1]
  }

  /** No call of the run sees the motor come to rest. */
  predicate NoIdleEdge(first: bool, ms: seq<bool>)
  {
    forall k :: 0 <= k < |ms| ==> !(PreviousMotor(first, ms, k) && !ms[k])
  }

  /** The latch after a run of calls, and how many of them fired. */
  function PreloadRun(p: Preload, ms: seq<bool>, rs: seq<bool>): (Preload, nat)
    requires |ms| == |rs|
    decreases |ms|
  {
    if |ms| == 0 then (p, 0)
    else
      var r := PreloadStep(p, ms[0], rs[0]);
      var (q, n) := PreloadRun(r.next, ms[1..], rs[1..]);
      (q, n + if r.fire then 1 else 0)
  }

  /** Without an idle edge the latch fires at most once, and not at all once it has
      fired; a fired latch stays fired. */
  lemma {:induction false} PreloadFiresAtMostOncePerStop(p: Preload, ms: seq<bool>, rs: seq<bool>)
    requires |ms| == |rs| && NoIdleEdge(p.lastMotor, ms)
    ensures PreloadRun(p, ms, rs).1 <= (if p.fired then 0 else 1)
    ensures p.fired ==> PreloadRun(p, ms, rs).0.fired
    decreases |ms|
  {
    if |ms| > 0 {
      var r := PreloadStep(p, ms[0], rs[0]);
      assert !(PreviousMotor(p.lastMotor, ms, 0) && !ms[0]);
      assert NoIdleEdge(r.next.lastMotor, ms[1..]) by {
        forall k | 0 <= k < |ms[1..]|
          ensures !(PreviousMotor(r.next.lastMotor, ms[1..], k) && !ms[1..][k])
        {
          assert !(PreviousMotor(p.lastMotor, ms, k + 1) && !ms[k + 1]);
        }
      }
      PreloadFiresAtMostOncePerStop(r.next, ms[1..], rs[1..]);
    }
  }

  // ---------------------------------------------------------------------------
  // The not-ready watchdog (`tracking`, `notReadySince`)

  datatype Watchdog = Watchdog(tracking: bool, since: u32)

  datatype WatchdogResult = WatchdogResult(next: Watchdog, fire: bool)

  /** One call with the not-ready condition `condition` at millisecond time `now`. */
  function WatchdogStep(w: Watchdog, condition: bool, now: u32): (r: WatchdogResult)
    ensures r.fire <==> condition && w.tracking && Elapsed(now, w.since) >= TIMEOUT_MS
    ensures !condition ==> !r.next.tracking
    ensures condition && !w.tracking ==> r.next == Watchdog(true, now)
    ensures r.fire ==> !r.next.tracking
    ensures r.next.tracking ==> condition
  {
    if condition then
      if !w.tracking then WatchdogResult(Watchdog(true, now), false)
      else if Elapsed(now, w.since) >= TIMEOUT_MS then WatchdogResult(w.(tracking := false), true)
      else WatchdogResult(w, false)
    else WatchdogResult(w.(tracking := false), false)
  }

  /** The watchdog after a run of calls, and whether any of them fired. */
  function WatchdogRun(w: Watchdog, cs: seq<bool>, ts: seq<u32>): (Watchdog, bool)
    requires |cs| == |ts|
    decreases |cs|
  {
    if |cs| == 0 then (w, false)
    else
      var r := WatchdogStep(w, cs[0], ts[0]);
      var (q, f) := WatchdogRun(r.next, cs[1..], ts[1..]);
      (q, f || r.fire)
  }

  /** From an untracked start, a run in which the condition holds throughout pauses
      nothing while less than the timeout has passed since its first call; it ends
      tracking from that first call. */
  lemma {:induction false} WatchdogQuietBeforeTimeout(w: Watchdog, cs: seq<bool>, ts: seq<u32>, t0: u32)
    requires |cs| == |ts| && forall k :: 0 <= k < |cs| ==> cs[k]
    requires (w.tracking && w.since == t0) || (!w.tracking && |ts| > 0 && ts[0] == t0)
    requires forall k :: 0 <= k < |ts| ==> Elapsed(ts[k], t0) < TIMEOUT_MS
    ensures !WatchdogRun(w, cs, ts).1
    ensures |cs| > 0 ==> WatchdogRun(w, cs, ts).0 == Watchdog(true, t0)
    decreases |cs|
  {
    if |cs| > 0 {
      var r := WatchdogStep(w, cs[0], ts[0]);
      assert r.next == Watchdog(true, t0) && !r.fire;
      WatchdogQuietBeforeTimeout(r.next, cs[1..], ts[1..], t0);
    }
  }

  /** A single call with the condition false anywhere in a run discards tracking, so the
      call after it starts a fresh measurement. */
  lemma WatchdogResetRestarts(w: Watchdog, now: u32, later: u32)
    ensures WatchdogStep(WatchdogStep(w, false, now).next, true, later) == WatchdogResult(Watchdog(true, later), false)
  {
  }
}
