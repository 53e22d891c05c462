/** The pulse train of `stepMotor` as values: one call while moving emits at most one
    edge of the step signal, counts a step on each falling edge and ends the move on the
    200th; one call while idle decides whether a move starts. */
module Motion {
  import opened Io
  import opened Timing

  /** The motor globals: `isMoving`, `stepHigh`, `stepsTaken`, `lastStepTime` and
      `pauseStartTime`. */
  datatype Motor = Motor(moving: bool, stepHigh: bool, stepsTaken: int, lastStepTime: u32, pauseStartTime: u32)

  /** Whether the next edge is due at `now` for a step delay of `delay` microseconds. */
  predicate Due(m: Motor, now: u32, delay: int)
  {
    Elapsed(now, m.lastStepTime) >= delay
  }

  /** Whether this call ends the move: a due falling edge that brings the count to 200. */
  predicate Completes(m: Motor, now: u32, delay: int)
  {
    Due(m, now, delay) && m.stepHigh && m.stepsTaken + 1 >= TOTAL_STEPS
  }

  /** One call of `stepMotor` while moving. */
  function MovingStep(m: Motor, now: u32, delay: int): (r: Motor)
    requires m.moving
    ensures !Due(m, now, delay) ==> r == m
    ensures Due(m, now, delay) ==> r.lastStepTime == now && r.stepHigh != m.stepHigh
  {
    if !Due(m, now, delay) then m
    else if !m.stepHigh then m.(stepHigh := true, lastStepTime := now)
    else if m.stepsTaken + 1 >= TOTAL_STEPS then
      m.(moving := false, stepHigh := false, stepsTaken := 0, pauseStartTime := now, lastStepTime := now)
    else m.(stepHigh := false, stepsTaken := m.stepsTaken + 1, lastStepTime := now)
  }

  /** A step is counted only on a due falling edge, the count stays below 200, and the
      move ends exactly on the falling edge that reaches 200, with the pause timed from it. */
  lemma MovingStepCountsFallingEdges(m: Motor, now: u32, delay: int)
    requires m.moving && 0 <= m.stepsTaken < TOTAL_STEPS
    ensures var r := MovingStep(m, now, delay);
      0 <= r.stepsTaken < TOTAL_STEPS &&
      (r.stepsTaken != m.stepsTaken ==> Due(m, now, delay) && m.stepHigh && !r.stepHigh) &&
      (!r.moving <==> Completes(m, now, delay)) &&
      (Completes(m, now, delay) ==> r.stepsTaken == 0 && r.pauseStartTime == now) &&
      (r.moving ==>
         r.pauseStartTime == m.pauseStartTime &&
         r.stepsTaken == m.stepsTaken + (if Due(m, now, delay) && m.stepHigh then 1 else 0))
  {
  }

  /** A call while idle starts a move when the interlock holds, the dwell `pauseAfter` has
      passed since the last move ended, the bulb ram is home and its pin is low. */
  predicate StartsMoving(ready: bool, m: Motor, now: u32, pauseAfter: int, ramHome: bool, ramPin: bool)
  {
    ready && Elapsed(now, m.pauseStartTime) >= pauseAfter && ramHome && !ramPin
  }

  /** `n` calls while moving, each with its edge due. */
  function DueRun(m: Motor, n: nat, now: u32): Motor
    decreases n
  {
    if n == 0 || !m.moving then m else DueRun(MovingStep(m, now, 0), n - 1, now)
  }

  /** The due edges left in a move with `k` steps counted and the step signal at `high`. */
  function EdgesLeft(k: int, high: bool): int
  {
    2 * (TOTAL_STEPS - k) - (if high then 1 else 0)
  }

  /** With every edge due, a move with `k` steps counted ends after exactly the edges left:
      it is still moving after fewer, and after that many it is idle with the count reset. */
  lemma {:induction false} MoveEndsAfterEdgesLeft(m: Motor, now: u32, n: nat)
    requires m.moving && 0 <= m.stepsTaken < TOTAL_STEPS
    ensures n < EdgesLeft(m.stepsTaken, m.stepHigh) ==> DueRun(m, n, now).moving
    ensures n == EdgesLeft(m.stepsTaken, m.stepHigh) ==>
      !DueRun(m, n, now).moving && DueRun(m, n, now).stepsTaken == 0 && !DueRun(m, n, now).stepHigh
    decreases n
  {
    if n > 0 {
      var r := MovingStep(m, now, 0);
      assert Due(m, now, 0);
      if r.moving {
        assert EdgesLeft(r.stepsTaken, r.stepHigh) == EdgesLeft(m.stepsTaken, m.stepHigh) - 1;
        MoveEndsAfterEdgesLeft(r, now, n - 1);
      } else {
        assert EdgesLeft(m.stepsTaken, m.stepHigh) == 1;
      }
    }
  }

  /** A whole move from rest takes 400 due edges: the step signal rises and falls once for
      each of the 200 steps. */
  lemma WholeMoveIs400Edges(m: Motor, now: u32)
    requires m.moving && m.stepsTaken == 0 && !m.stepHigh
    ensures forall n: nat :: n < 2 * TOTAL_STEPS ==> DueRun(m, n, now).moving
    ensures !DueRun(m, 2 * TOTAL_STEPS, now).moving
  {
    forall n: nat | n < 2 * TOTAL_STEPS
      ensures DueRun(m, n, now).moving
    {
      MoveEndsAfterEdgesLeft(m, now, n);
    }
    MoveEndsAfterEdgesLeft(m, now, 2 * TOTAL_STEPS);
  }
}
