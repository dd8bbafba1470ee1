/** servo.c: the conversion from servo angles (in tenths of a degree) to PWM
    pulse widths, and the pulse-width writes that reach the PWM generator.
    The PWM peripheral is modelled by the writes it receives. */
module Servo {
  import opened CTypes

  // Timing constants of servo.h, in PWM clock ticks.
  const PWM_PERIOD: int := 50000
  const SERVO_DUTYCYCLE_MAX: int := 2000
  const SERVO_DUTYCYCLE_USEC: int := PWM_PERIOD / SERVO_DUTYCYCLE_MAX
  const SERVO_DUTYCYCLE_START: int := 60 * SERVO_DUTYCYCLE_USEC
  const SERVO_DUTYCYCLE_END: int := 250 * SERVO_DUTYCYCLE_USEC
  /** Pulse-width ticks per degree, truncated. */
  const SERVO_DUTYCYCLE_DEGREES: int := (SERVO_DUTYCYCLE_END - SERVO_DUTYCYCLE_START) / 180

  /** Largest angle whose product with SERVO_DUTYCYCLE_DEGREES fits in 32 bits. */
  const MAX_UNWRAPPED_DEGREES: int := (0x1_0000_0000 - 1) / SERVO_DUTYCYCLE_DEGREES

  /** The two PWM outputs of generator 0. */
  datatype PwmChannel = PwmOut0 | PwmOut1

  const SERVO_1: PwmChannel := PwmOut0
  const SERVO_2: PwmChannel := PwmOut1

  /** One pulse-width write to the PWM generator. */
  datatype PulseWidthSet = PulseWidthSet(channel: PwmChannel, width: uint32)

  lemma DerivedConstants()
    ensures SERVO_DUTYCYCLE_USEC == 25
    ensures SERVO_DUTYCYCLE_START == 1500 && SERVO_DUTYCYCLE_END == 6250
    ensures SERVO_DUTYCYCLE_DEGREES == 26
    ensures MAX_UNWRAPPED_DEGREES == 165191049
  {
  }

  /** Pulse width for an angle in tenths of a degree, in uint32 arithmetic:
      the product `degrees * SERVO_DUTYCYCLE_DEGREES` wraps modulo 2^32. */
  function DutyCycle(degrees: uint32): (w: uint32)
    ensures w as int >= SERVO_DUTYCYCLE_START
    ensures degrees == 0 ==> w as int == SERVO_DUTYCYCLE_START
    ensures degrees as int <= MAX_UNWRAPPED_DEGREES ==>
              w as int == SERVO_DUTYCYCLE_START + degrees as int * SERVO_DUTYCYCLE_DEGREES / 10
  {
    var product := (degrees as int * SERVO_DUTYCYCLE_DEGREES) % 0x1_0000_0000;
    assert degrees as int <= MAX_UNWRAPPED_DEGREES ==> product == degrees as int * SERVO_DUTYCYCLE_DEGREES by {
      if degrees as int <= MAX_UNWRAPPED_DEGREES {
        NoWrap(degrees as int);
      }
    }
    (SERVO_DUTYCYCLE_START + product / 10) as uint32
  }

  lemma NoWrap(degrees: nat)
    requires degrees <= MAX_UNWRAPPED_DEGREES
    ensures (degrees * SERVO_DUTYCYCLE_DEGREES) % 0x1_0000_0000 == degrees * SERVO_DUTYCYCLE_DEGREES
  {
    DerivedConstants();
    assert degrees * 26 <= 165191049 * 26;
  }

  /** An angle recovered from a pulse width: the smallest angle whose pulse
      width is at least `w`. */
  function DegreesOf(w: uint32): int
  {
    ((w as int - SERVO_DUTYCYCLE_START) * 10 + SERVO_DUTYCYCLE_DEGREES - 1) / SERVO_DUTYCYCLE_DEGREES
  }

  /** Below the wrap-around bound no angle information is lost: the pulse
      width determines the angle. */
  lemma {:induction false} DegreesOfDutyCycle(degrees: uint32)
    requires degrees as int <= MAX_UNWRAPPED_DEGREES
    ensures DegreesOf(DutyCycle(degrees)) == degrees as int
  {
    DerivedConstants();
    var d := degrees as int;
    var f := (d * 26) / 10;
    assert (d * 26) % 0x1_0000_0000 == d * 26;
    assert DutyCycle(degrees) as int == SERVO_DUTYCYCLE_START + f;
    assert 10 * f <= 26 * d < 10 * f + 10;
    DivModUnique(10 * f + 25, 26, d, 10 * f + 25 - 26 * d);
  }

  /** Below the wrap-around bound, each extra tenth of a degree lengthens the
      pulse by at least two ticks, so the conversion is strictly increasing. */
  lemma {:induction false} DutyCycleIncreasing(d1: uint32, d2: uint32)
    requires d1 < d2 && d2 as int <= MAX_UNWRAPPED_DEGREES
    ensures DutyCycle(d1) as int + 2 <= DutyCycle(d2) as int
  {
    var p1, p2 := d1 as int * 26, d2 as int * 26;
    assert p1 + 26 <= p2;
    assert p1 / 10 + 2 == (p1 + 20) / 10;
    DivMonotone(p1 + 20, p2, 10);
  }

  /** Angles up to 180.0 degrees stay within the servo's pulse range, and the
      controller's clamped angles 53.0..123.0 degrees map into [2878, 4698],
      below the PWM period. */
  lemma {:induction false} DutyCycleRange(degrees: uint32)
    requires degrees <= 1800
    ensures SERVO_DUTYCYCLE_START <= DutyCycle(degrees) as int <= SERVO_DUTYCYCLE_END
    ensures 530 <= degrees <= 1230 ==> 2878 <= DutyCycle(degrees) as int <= 4698 < PWM_PERIOD
  {
    if degrees < 1800 {
      DutyCycleIncreasing(degrees, 1800);
    }
    if 530 <= degrees <= 1230 {
      if degrees > 530 { DutyCycleIncreasing(530, degrees); }
      if degrees < 1230 { DutyCycleIncreasing(degrees, 1230); }
    }
  }

  /** Servo_Set: the pulse width is written to the channel unchanged. */
  function ServoSet(servo: PwmChannel, dutyCycle: uint32): (cmd: PulseWidthSet)
    ensures cmd.channel == servo && cmd.width == dutyCycle
  {
    PulseWidthSet(servo, dutyCycle)
  }

  /** Servo_Set_Degrees: convert the angle and write the pulse width. */
  function ServoSetDegrees(servo: PwmChannel, degrees: uint32): (cmd: PulseWidthSet)
    ensures cmd.channel == servo && cmd.width == DutyCycle(degrees)
    ensures degrees <= 1800 ==> SERVO_DUTYCYCLE_START <= cmd.width as int <= SERVO_DUTYCYCLE_END
  {
    if degrees <= 1800 then
      DutyCycleRange(degrees);
      ServoSet(servo, DutyCycle(degrees))
    else
      ServoSet(servo, DutyCycle(degrees))
  }

  /** PWM_Init: both channels start at the middle of the pulse range; the
      requested initial angles are not used. */
  function PwmInit(init1: uint32, init2: uint32): (cmds: seq<PulseWidthSet>)
    ensures |cmds| == 2 && cmds[0].channel == SERVO_1 && cmds[1].channel == SERVO_2
    ensures forall k | 0 <= k < 2 ::
              cmds[k].width as int == 3875 &&
              SERVO_DUTYCYCLE_START < cmds[k].width as int < SERVO_DUTYCYCLE_END
  {
    var mid := ((SERVO_DUTYCYCLE_START + SERVO_DUTYCYCLE_END) / 2) as uint32;
    [PulseWidthSet(SERVO_1, mid), PulseWidthSet(SERVO_2, mid)]
  }
}
