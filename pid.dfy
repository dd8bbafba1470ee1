/** The per-axis PID step of UpdatePIDController (main.c), as a pure function
    on 32-bit signed integers: the controller class applies it to its X and Y
    state. Every intermediate value is an int32, so the function's own
    well-formedness shows that none of them overflows. */
module Pid {
  import opened CTypes

  /** Anti-windup bound of the error sum. */
  const PID_ERROR_SUM_RANGE: int32 := 100000
  /** Noise bound of the error difference. */
  const PID_ERROR_DIF_RANGE: int32 := 500
  /** Largest error magnitude: panel readings and setpoints are 12-bit values. */
  const MAX_ERROR: int32 := 4095

  /** Gains and servo geometry of one axis (angles in tenths of a degree). */
  datatype AxisGains = AxisGains(p: int32, i: int32, d: int32, zero: int32, range: int32)

  const Px: int32 := 120
  const Ix: int32 := 5
  const Dx: int32 := 240
  const Py: int32 := 120
  const Iy: int32 := 5
  const Dy: int32 := 220

  // Servo centre angles and half-ranges, in tenths of a degree.
  const SERVO_X_ZERO: int32 := 880
  const SERVO_Y_ZERO: int32 := 880
  const SERVO_X_RANGE: int32 := 300
  const SERVO_Y_RANGE: int32 := 350

  const X_GAINS: AxisGains := AxisGains(Px, Ix, Dx, SERVO_X_ZERO, SERVO_X_RANGE)
  const Y_GAINS: AxisGains := AxisGains(Py, Iy, Dy, SERVO_Y_ZERO, SERVO_Y_RANGE)

  predicate GainsOk(g: AxisGains)
  {
    0 <= g.p <= 120 && 0 <= g.i <= 5 && 0 <= g.d <= 240 && 0 <= g.range <= g.zero <= 1000
  }

  /** Controller memory of one axis: last error, clamped sum, clamped difference. */
  datatype AxisState = AxisState(last: int32, sum: int32, dif: int32)

  const ZERO_STATE: AxisState := AxisState(0, 0, 0)

  predicate StateOk(s: AxisState)
  {
    -MAX_ERROR <= s.last <= MAX_ERROR &&
    -PID_ERROR_SUM_RANGE <= s.sum <= PID_ERROR_SUM_RANGE &&
    -PID_ERROR_DIF_RANGE <= s.dif <= PID_ERROR_DIF_RANGE
  }

  function MinAngle(g: AxisGains): int { g.zero as int - g.range as int }
  function MaxAngle(g: AxisGains): int { g.zero as int + g.range as int }

  predicate AngleOk(g: AxisGains, angle: int)
  {
    MinAngle(g) <= angle <= MaxAngle(g)
  }

  datatype AxisOut = AxisOut(state: AxisState, angle: int32)

  /** One controller update for one axis with the error setpoint - position. */
  function AxisStep(g: AxisGains, s: AxisState, error: int32): (r: AxisOut)
    requires GainsOk(g) && StateOk(s) && -MAX_ERROR <= error <= MAX_ERROR
    ensures StateOk(r.state) && r.state.last == error
    ensures AngleOk(g, r.angle as int)
  {
    var sum := Limit(s.sum + error, -PID_ERROR_SUM_RANGE, PID_ERROR_SUM_RANGE);
    var dif := Limit(error - s.last, -PID_ERROR_DIF_RANGE, PID_ERROR_DIF_RANGE);
    var raw := CDiv(ControlSum(g, error, sum, dif), 100);
    var angle := g.zero + Limit(CDiv(raw, 10), -g.range, g.range);
    AxisOut(AxisState(error, sum, dif), angle)
  }

  /** The weighted sum before scaling: P term, I term scaled by 1/5, D term
      scaled by 5, all in int32 arithmetic with C's truncating division. */
  function ControlSum(g: AxisGains, error: int32, sum: int32, dif: int32): (t: int32)
    requires GainsOk(g) && -MAX_ERROR <= error <= MAX_ERROR
    requires -PID_ERROR_SUM_RANGE <= sum <= PID_ERROR_SUM_RANGE
    requires -PID_ERROR_DIF_RANGE <= dif <= PID_ERROR_DIF_RANGE
    ensures -2000000 <= t <= 2000000
  {
    MulBound(g.p as int, error as int, 120, MAX_ERROR as int);
    MulBound(g.i as int, sum as int, 5, PID_ERROR_SUM_RANGE as int);
    MulBound(g.d as int, dif as int, 240, PID_ERROR_DIF_RANGE as int);
    g.p * error + CDiv(g.i * sum, 5) + (g.d * dif) * 5
  }

  /** The clamped output ranges of the two axes: X in [580, 1180] and Y in
      [530, 1230] tenths of a degree. */
  lemma AxisAngleRanges()
    ensures GainsOk(X_GAINS) && GainsOk(Y_GAINS)
    ensures MinAngle(X_GAINS) == 580 && MaxAngle(X_GAINS) == 1180
    ensures MinAngle(Y_GAINS) == 530 && MaxAngle(Y_GAINS) == 1230
  {
  }

  /** With the ball on the setpoint and a fresh controller, the servo stays
      at its centre angle. */
  lemma CentredAtRest(g: AxisGains)
    requires GainsOk(g)
    ensures AxisStep(g, ZERO_STATE, 0) == AxisOut(ZERO_STATE, g.zero)
  {
  }

  /** The controller pushes the right way: from the same memory, a larger
      error never yields a smaller angle. */
  lemma {:induction false} AngleMonotone(g: AxisGains, s: AxisState, e1: int32, e2: int32)
    requires GainsOk(g) && StateOk(s)
    requires -MAX_ERROR <= e1 <= e2 <= MAX_ERROR
    ensures AxisStep(g, s, e1).angle <= AxisStep(g, s, e2).angle
  {
    var sum1 := Limit(s.sum + e1, -PID_ERROR_SUM_RANGE, PID_ERROR_SUM_RANGE);
    var sum2 := Limit(s.sum + e2, -PID_ERROR_SUM_RANGE, PID_ERROR_SUM_RANGE);
    LimitMonotone(s.sum + e1, s.sum + e2, -PID_ERROR_SUM_RANGE, PID_ERROR_SUM_RANGE);
    var dif1 := Limit(e1 - s.last, -PID_ERROR_DIF_RANGE, PID_ERROR_DIF_RANGE);
    var dif2 := Limit(e2 - s.last, -PID_ERROR_DIF_RANGE, PID_ERROR_DIF_RANGE);
    LimitMonotone(e1 - s.last, e2 - s.last, -PID_ERROR_DIF_RANGE, PID_ERROR_DIF_RANGE);
    var t1 := ControlSum(g, e1, sum1, dif1);
    var t2 := ControlSum(g, e2, sum2, dif2);
    ControlSumMonotone(g, e1, sum1, dif1, e2, sum2, dif2);
    CDivMonotone(t1, t2, 100);
    CDivMonotone(CDiv(t1, 100), CDiv(t2, 100), 10);
    LimitMonotone(CDiv(CDiv(t1, 100), 10), CDiv(CDiv(t2, 100), 10), -g.range, g.range);
  }

  lemma {:induction false} ControlSumMonotone(g: AxisGains, e1: int32, sum1: int32, dif1: int32,
                                              e2: int32, sum2: int32, dif2: int32)
    requires GainsOk(g)
    requires -MAX_ERROR <= e1 <= e2 <= MAX_ERROR
    requires -PID_ERROR_SUM_RANGE <= sum1 <= sum2 <= PID_ERROR_SUM_RANGE
    requires -PID_ERROR_DIF_RANGE <= dif1 <= dif2 <= PID_ERROR_DIF_RANGE
    ensures ControlSum(g, e1, sum1, dif1) <= ControlSum(g, e2, sum2, dif2)
  {
    MulBound(g.i as int, sum1 as int, 5, PID_ERROR_SUM_RANGE as int);
    MulBound(g.i as int, sum2 as int, 5, PID_ERROR_SUM_RANGE as int);
    MulMonotone(g.p as int, e1 as int, e2 as int);
    MulMonotone(g.i as int, sum1 as int, sum2 as int);
    CDivMonotone(g.i * sum1, g.i * sum2, 5);
    MulMonotone(g.d as int, dif1 as int, dif2 as int);
  }

  /** Hence from a fresh controller a positive error tilts past the centre
      angle and a negative one short of it. */
  lemma {:induction false} FreshDirection(g: AxisGains, e: int32)
    requires GainsOk(g) && -MAX_ERROR <= e <= MAX_ERROR
    ensures e >= 0 ==> AxisStep(g, ZERO_STATE, e).angle >= g.zero
    ensures e <= 0 ==> AxisStep(g, ZERO_STATE, e).angle <= g.zero
  {
    CentredAtRest(g);
    if e >= 0 {
      AngleMonotone(g, ZERO_STATE, 0, e);
    } else {
      AngleMonotone(g, ZERO_STATE, e, 0);
    }
  }

  /** n updates with the same error. */
  function Repeat(g: AxisGains, s: AxisState, error: int32, n: nat): (r: AxisState)
    requires GainsOk(g) && StateOk(s) && -MAX_ERROR <= error <= MAX_ERROR
    ensures StateOk(r)
  {
    if n == 0 then s else AxisStep(g, Repeat(g, s, error, n - 1), error).state
  }

  /** Anti-windup: under a sustained positive error the sum grows by the
      error each update until it sticks at the bound, and never beyond. */
  lemma {:induction false} SumSaturates(g: AxisGains, s: AxisState, error: int32, n: nat)
    requires GainsOk(g) && StateOk(s) && 0 <= error <= MAX_ERROR
    ensures Repeat(g, s, error, n).sum as int ==
              if s.sum as int + n * error as int <= PID_ERROR_SUM_RANGE as int
              then s.sum as int + n * error as int
              else PID_ERROR_SUM_RANGE as int
  {
    if n > 0 {
      SumSaturates(g, s, error, n - 1);
      assert (n - 1) * error as int + error as int == n * error as int;
    }
  }
}
