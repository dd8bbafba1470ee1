/** The tick scheduler of main.c: which task flags a tick raises, and how the
    circular-path index moves in the two circle modes. Time is counted in
    ticks of 1 ms. */
module Scheduler {
  import opened CTypes

  const TOUCH_UPDATE_RATE: nat := 10
  const UART_UPDATE_DELAY: nat := 100
  const UART_UPDATE_RATE: nat := 100
  const PID_UPDATE_DELAY: nat := 240
  const PID_UPDATE_RATE: nat := 40
  const MOTOR_UPDATE_DELAY: nat := 280
  const MOTOR_UPDATE_RATE: nat := 40

  const CIRCLE_SIZE: nat := 360
  const CIRCLE_DEFAULT_RATE: nat := 5

  /** The mode numbers that play the circular path forward and backward. */
  const CIRCLE_FORWARD_MODE: nat := 3
  const CIRCLE_BACKWARD_MODE: nat := 4

  // When a tick at time t (the already incremented counter) raises each flag.
  predicate TouchDue(t: nat) { t % TOUCH_UPDATE_RATE == 0 }
  predicate PidDue(t: nat) { t > PID_UPDATE_DELAY && t % PID_UPDATE_RATE == 0 }
  predicate UartDue(t: nat) { t > UART_UPDATE_DELAY && t % UART_UPDATE_RATE == 0 }
  predicate MotorDue(t: nat) { t > MOTOR_UPDATE_DELAY && t % MOTOR_UPDATE_RATE == 0 }

  /** Every tick that schedules a PID, motor or UART task also schedules a
      touch read, which the main loop handles first; and every motor tick is
      also a PID tick, so the motor is driven from a freshly computed angle. */
  lemma DueTicksNest(t: nat)
    ensures PidDue(t) ==> TouchDue(t)
    ensures UartDue(t) ==> TouchDue(t)
    ensures MotorDue(t) ==> PidDue(t)
  {
  }

  /** The first tick that raises each flag. */
  lemma FirstDueTicks()
    ensures PidDue(280) && forall t: nat | t < 280 :: !PidDue(t)
    ensures UartDue(200) && forall t: nat | t < 200 :: !UartDue(t)
    ensures MotorDue(320) && forall t: nat | t < 320 :: !MotorDue(t)
  {
  }

  /** One step forward along the circular path. */
  function CircleForward(i: nat): (j: nat)
    requires i < CIRCLE_SIZE
    ensures j < CIRCLE_SIZE
    ensures (j - i) % CIRCLE_SIZE == 1
  {
    (i + 1) % CIRCLE_SIZE
  }

  /** One step backward along the circular path, 0 wrapping to 359. */
  function CircleBackward(i: nat): (j: nat)
    requires i < CIRCLE_SIZE
    ensures j < CIRCLE_SIZE
    ensures (i - j) % CIRCLE_SIZE == 1
  {
    if i > 0 then i - 1 else CIRCLE_SIZE - 1
  }

  /** The two steps undo each other. */
  lemma ForwardBackwardInverse(i: nat)
    requires i < CIRCLE_SIZE
    ensures CircleBackward(CircleForward(i)) == i
    ensures CircleForward(CircleBackward(i)) == i
  {
  }

  /** Whether the tick at time t moves the circle index and raises the
      setpoint flag. */
  predicate CircleStepDue(mode: nat, t: nat, rate: nat)
    requires rate > 0
  {
    (mode == CIRCLE_FORWARD_MODE || mode == CIRCLE_BACKWARD_MODE) && t % rate == 0
  }

  /** The circle index after the tick at time t. */
  function CircleIndexAfterTick(mode: nat, i: nat, t: nat, rate: nat): (j: nat)
    requires i < CIRCLE_SIZE && rate > 0
    ensures j < CIRCLE_SIZE
    ensures !CircleStepDue(mode, t, rate) ==> j == i
    ensures CircleStepDue(mode, t, rate) && mode == CIRCLE_FORWARD_MODE ==> (j - i) % CIRCLE_SIZE == 1
    ensures CircleStepDue(mode, t, rate) && mode == CIRCLE_BACKWARD_MODE ==> (i - j) % CIRCLE_SIZE == 1
  {
    if mode == CIRCLE_FORWARD_MODE && t % rate == 0 then CircleForward(i)
    else if mode == CIRCLE_BACKWARD_MODE && t % rate == 0 then CircleBackward(i)
    else i
  }

  /** n forward steps. */
  function ForwardSteps(i: nat, n: nat): (j: nat)
    requires i < CIRCLE_SIZE
    ensures j < CIRCLE_SIZE
  {
    if n == 0 then i else CircleForward(ForwardSteps(i, n - 1))
  }

  /** n backward steps. */
  function BackwardSteps(i: nat, n: nat): (j: nat)
    requires i < CIRCLE_SIZE
    ensures j < CIRCLE_SIZE
  {
    if n == 0 then i else CircleBackward(BackwardSteps(i, n - 1))
  }

  /** Forward playback visits the path in order, modulo its length. */
  lemma {:induction false} ForwardStepsMod(i: nat, n: nat)
    requires i < CIRCLE_SIZE
    ensures ForwardSteps(i, n) == (i + n) % CIRCLE_SIZE
  {
    if n > 0 {
      ForwardStepsMod(i, n - 1);
      var k := (i + n - 1) % CIRCLE_SIZE;
      DivModStep(i + n - 1, k);
    }
  }

  lemma DivModStep(m: nat, k: nat)
    requires k == m % CIRCLE_SIZE
    ensures (k + 1) % CIRCLE_SIZE == (m + 1) % CIRCLE_SIZE
  {
  }

  /** Backward playback visits the path in reverse order, modulo its length. */
  lemma {:induction false} BackwardStepsMod(i: nat, n: nat)
    requires i < CIRCLE_SIZE
    ensures BackwardSteps(i, n) == (i - n) % CIRCLE_SIZE
  {
    if n > 0 {
      BackwardStepsMod(i, n - 1);
      var k := (i - (n - 1)) % CIRCLE_SIZE;
      assert (i - n) % CIRCLE_SIZE == (k - 1) % CIRCLE_SIZE;
    }
  }

  /** A full revolution in either direction returns to the starting index,
      and n backward steps undo n forward steps. */
  lemma {:induction false} FullRevolution(i: nat, n: nat)
    requires i < CIRCLE_SIZE
    ensures ForwardSteps(i, CIRCLE_SIZE) == i && BackwardSteps(i, CIRCLE_SIZE) == i
    ensures BackwardSteps(ForwardSteps(i, n), n) == i
  {
    ForwardStepsMod(i, CIRCLE_SIZE);
    DivModUnique(i + CIRCLE_SIZE, CIRCLE_SIZE, 1, i);
    BackwardStepsMod(i, CIRCLE_SIZE);
    DivModUnique(i - CIRCLE_SIZE, CIRCLE_SIZE, -1, i);
    var j := ForwardSteps(i, n);
    ForwardStepsMod(i, n);
    BackwardStepsMod(j, n);
    var q := (i + n) / CIRCLE_SIZE;
    assert j - n == -q * CIRCLE_SIZE + i;
    DivModUnique(j - n, CIRCLE_SIZE, -q, i);
  }
}
