/** The globals of main.c as the fields of one object, and the handlers and
    tasks that update them in place. Each method is tied to the function of
    module Firmware that describes its effect on the whole state, so the
    properties proved there hold of the running code. */
module BallPlate {
  import opened CTypes
  import opened Servo
  import opened Com
  import opened Scheduler
  import opened Modes
  import opened Pid
  import opened Averaging
  import opened Firmware

  class Controller {
    // Servo angles last computed by the PID task, tenths of a degree.
    var currentXDegrees: uint32
    var currentYDegrees: uint32
    // Tick counter and task flags.
    var currentTime: nat
    var needTouchUpdate: bool
    var needUARTUpdate: bool
    var needPIDUpdate: bool
    var needMotorUpdate: bool
    var needCircleUpdate: bool
    // Setpoint in panel coordinates.
    var setPositionX: uint32
    var setPositionY: uint32
    // PID memory per axis: the globals ErrorXLast, ErrorXSum, ErrorXDif and
    // their Y counterparts, grouped by axis.
    var pidX: AxisState
    var pidY: AxisState
    // Circular-path playback.
    var circleUpdateRate: uint16
    var circlePositionIndex: uint16
    // Ring buffers of recent servo angles.
    var averageIndex: uint8
    const degreeAverageX: array<uint32>
    const degreeAverageY: array<uint32>
    // Last ball position and whether it was read successfully.
    var touchPresent: bool
    var x: uint32
    var y: uint32
    var mode: uint8
    // Outputs: pulse-width writes to the PWM generator, characters sent on the serial link.
    var servoWrites: seq<PulseWidthSet>
    var serialOut: string

    ghost function ScheduleState(): Schedule
      reads this`currentTime, this`needTouchUpdate, this`needUARTUpdate, this`needPIDUpdate,
            this`needMotorUpdate, this`needCircleUpdate
    {
      Schedule(currentTime, needTouchUpdate, needUARTUpdate, needPIDUpdate, needMotorUpdate, needCircleUpdate)
    }

    ghost function SetpointState(): Setpoint
      reads this`mode, this`setPositionX, this`setPositionY, this`circleUpdateRate, this`circlePositionIndex
    {
      Setpoint(mode, setPositionX, setPositionY, circleUpdateRate, circlePositionIndex)
    }

    ghost function ControlState(): Control
      reads this`pidX, this`pidY, this`currentXDegrees, this`currentYDegrees, this`averageIndex,
            degreeAverageX, degreeAverageY
    {
      Control(pidX, pidY, currentXDegrees, currentYDegrees, averageIndex, degreeAverageX[..], degreeAverageY[..])
    }

    ghost function BallState(): Ball
      reads this`touchPresent, this`x, this`y
    {
      Ball(touchPresent, x, y)
    }

    ghost function OutputState(): Outputs
      reads this`servoWrites, this`serialOut
    {
      Outputs(servoWrites, serialOut)
    }

    /** The globals as one value. */
    ghost function State(): Globals
      reads this, degreeAverageX, degreeAverageY
    {
      Globals(ScheduleState(), SetpointState(), ControlState(), BallState(), OutputState())
    }

    ghost predicate Valid()
      reads this, degreeAverageX, degreeAverageY
    {
      degreeAverageX != degreeAverageY && Inv(State())
    }

    /** Setup: the start banner, the averaging buffers filled with the centre
        angles, the PWM initialisation, and the initial values of the globals. */
    constructor ()
      ensures Valid() && State() == AfterSetup()
      ensures fresh(degreeAverageX) && fresh(degreeAverageY)
    {
      currentXDegrees, currentYDegrees := SERVO_X_ZERO as uint32, SERVO_Y_ZERO as uint32;
      currentTime := 0;
      needTouchUpdate, needUARTUpdate, needPIDUpdate, needMotorUpdate, needCircleUpdate :=
        true, false, false, false, false;
      setPositionX, setPositionY := CENTER_X as uint32, CENTER_Y as uint32;
      pidX, pidY := ZERO_STATE, ZERO_STATE;
      circleUpdateRate, circlePositionIndex := CIRCLE_DEFAULT_RATE as uint16, 0;
      averageIndex := 0;
      touchPresent, x, y, mode := false, 0, 0, 0;
      var bufferX := new uint32[MOTOR_SAMPLES];
      var bufferY := new uint32[MOTOR_SAMPLES];
      degreeAverageX, degreeAverageY := bufferX, bufferY;
      serialOut := START_LINE;
      for i := 0 to MOTOR_SAMPLES
        invariant forall k | 0 <= k < i ::
                    bufferX[k] as int == SERVO_X_ZERO as int && bufferY[k] as int == SERVO_Y_ZERO as int
      {
        bufferX[i] := SERVO_X_ZERO as uint32;
        bufferY[i] := SERVO_Y_ZERO as uint32;
      }
      servoWrites := PwmInit(SERVO_Y_ZERO as uint32, SERVO_X_ZERO as uint32);
      new;
      assert degreeAverageX[..] == AfterSetup().control.degreeAverageX;
      assert degreeAverageY[..] == AfterSetup().control.degreeAverageY;
    }

    /** SysTick_Handler. */
    method Tick()
      requires SetpointOk(SetpointState())
      modifies this`currentTime, this`needTouchUpdate, this`needPIDUpdate, this`needUARTUpdate,
               this`needMotorUpdate, this`circlePositionIndex, this`needCircleUpdate
      ensures ScheduleState() == old(TickSchedule(ScheduleState(), SetpointState()))
      ensures SetpointState() == old(TickSetpoint(ScheduleState(), SetpointState()))
    {
      currentTime := currentTime + 1;
      RaiseDueFlags();
      StepCirclePath();
    }

    /** The task-flag part of SysTick_Handler: raise each flag whose task is
        due at the current time; a raised flag stays raised. */
    method RaiseDueFlags()
      modifies this`needTouchUpdate, this`needPIDUpdate, this`needUARTUpdate, this`needMotorUpdate
      ensures needTouchUpdate == old(needTouchUpdate || TouchDue(currentTime))
      ensures needPIDUpdate == old(needPIDUpdate || PidDue(currentTime))
      ensures needUARTUpdate == old(needUARTUpdate || UartDue(currentTime))
      ensures needMotorUpdate == old(needMotorUpdate || MotorDue(currentTime))
    {
      if TouchDue(currentTime) {
        needTouchUpdate := true;
      }
      if PidDue(currentTime) {
        needPIDUpdate := true;
      }
      if UartDue(currentTime) {
        needUARTUpdate := true;
      }
      if MotorDue(currentTime) {
        needMotorUpdate := true;
      }
    }

    /** The circle-mode part of SysTick_Handler: on every rate-th tick move
        the path index one entry forward (mode 3) or back (mode 4). */
    method StepCirclePath()
      requires SetpointOk(SetpointState())
      modifies this`circlePositionIndex, this`needCircleUpdate
      ensures circlePositionIndex as int ==
                old(CircleIndexAfterTick(mode as int, circlePositionIndex as int, currentTime, circleUpdateRate as int))
      ensures needCircleUpdate == old(needCircleUpdate || CircleStepDue(mode as int, currentTime, circleUpdateRate as int))
    {
      var circleDue := currentTime % circleUpdateRate as int == 0;
      if mode as int == CIRCLE_FORWARD_MODE && circleDue {
        circlePositionIndex := ((circlePositionIndex as int + 1) % CIRCLE_SIZE) as uint16;
        needCircleUpdate := true;
      } else if mode as int == CIRCLE_BACKWARD_MODE && circleDue {
        if circlePositionIndex > 0 {
          circlePositionIndex := circlePositionIndex - 1;
        } else {
          circlePositionIndex := (CIRCLE_SIZE - 1) as uint16;
        }
        needCircleUpdate := true;
      }
    }

    /** OnButtonPushed. Mode 3 has no `break` and runs mode 4's statement
        after its own. */
    method OnButtonPushed(btn1: bool, btn2: bool)
      requires SetpointOk(SetpointState())
      modifies this`mode, this`needCircleUpdate, this`setPositionX, this`setPositionY,
               this`circleUpdateRate
      ensures ScheduleState() == old(ButtonSchedule(ScheduleState(), SetpointState(), btn1, btn2))
      ensures SetpointState() == old(ButtonSetpoint(SetpointState(), btn1, btn2))
    {
      if btn1 {
        mode := (mode + 1) % MODE_COUNT as uint8;
      } else if btn2 {
        if mode > 0 {
          mode := mode - 1;
        } else {
          mode := 5;
        }
      }
      if mode == 1 {
        needCircleUpdate := false;
        setPositionX := (CENTER_X + SIDE_OFFSET_X) as uint32;
        setPositionY := CENTER_Y as uint32;
      } else if mode == 2 {
        needCircleUpdate := false;
        setPositionX := (CENTER_X - SIDE_OFFSET_X) as uint32;
        setPositionY := CENTER_Y as uint32;
      } else if mode == 3 || mode == 4 {
        if mode == 3 {
          circleUpdateRate := CIRCLE_DEFAULT_RATE as uint16;
        }
        circleUpdateRate := CIRCLE_DEFAULT_RATE as uint16;
      } else {
        needCircleUpdate := false;
        setPositionX := CENTER_X as uint32;
        setPositionY := CENTER_Y as uint32;
      }
    }

    /** UpdateBallPosition: read x, then y, giving up as soon as the touch is
        gone. */
    method UpdateBallPosition(read: TouchRead) returns (ok: bool)
      modifies this`x, this`y
      ensures ok == read.Touched?
      ensures BallState() == old(AfterBallRead(BallState(), read))
    {
      match read
      case NoTouch =>
        ok := false;
      case LostAfterX(rx) =>
        x := rx;
        ok := false;
      case Touched(rx, ry) =>
        x := rx;
        y := ry;
        ok := true;
    }

    /** UpdatePIDController: one PID step per axis, the new angles pushed
        into the averaging buffers. */
    method UpdatePIDController()
      requires SetpointOk(SetpointState()) && BallOk(BallState()) && ControlOk(ControlState())
      requires degreeAverageX != degreeAverageY
      modifies this`pidX, this`pidY, this`currentXDegrees, this`currentYDegrees, this`averageIndex,
               degreeAverageX, degreeAverageY
      ensures ControlState() ==
                old(PidUpdate(ControlState(), PositionError(setPositionX, x), PositionError(setPositionY, y)))
    {
      var errorX := PositionError(setPositionX, x);
      var errorY := PositionError(setPositionY, y);

      // Sums, differences and the clamped angle offsets of both axes.
      var stepX := AxisStep(X_GAINS, pidX, errorX);
      var stepY := AxisStep(Y_GAINS, pidY, errorY);

      averageIndex := ((averageIndex as int + 1) % MOTOR_SAMPLES) as uint8;

      currentXDegrees := stepX.angle as uint32;
      degreeAverageX[averageIndex] := currentXDegrees;

      currentYDegrees := stepY.angle as uint32;
      degreeAverageY[averageIndex] := currentYDegrees;

      pidX, pidY := stepX.state, stepY.state;
    }

    /** UpdateMotor: sum each buffer, divide by the number of samples, and
        send the angles to the servos, Y to SERVO_1 and X to SERVO_2. */
    method UpdateMotor()
      requires ControlOk(ControlState())
      modifies this`servoWrites
      ensures servoWrites == old(servoWrites + MotorCommands(ControlState()))
    {
      var sumX: uint32 := 0;
      var sumY: uint32 := 0;
      for i := 0 to MOTOR_SAMPLES
        invariant sumX as int == Sum(degreeAverageX[..i]) <= i * MaxAngle(X_GAINS)
        invariant sumY as int == Sum(degreeAverageY[..i]) <= i * MaxAngle(Y_GAINS)
        invariant servoWrites == old(servoWrites)
      {
        SumStep(degreeAverageX[..], i);
        SumStep(degreeAverageY[..], i);
        sumX := sumX + degreeAverageX[i];
        sumY := sumY + degreeAverageY[i];
      }
      assert degreeAverageX[..MOTOR_SAMPLES] == degreeAverageX[..];
      assert degreeAverageY[..MOTOR_SAMPLES] == degreeAverageY[..];
      servoWrites := servoWrites + [ServoSetDegrees(SERVO_1, sumY / MOTOR_SAMPLES as uint32)];
      servoWrites := servoWrites + [ServoSetDegrees(SERVO_2, sumX / MOTOR_SAMPLES as uint32)];
    }

    /** The touch task of the main loop. */
    method TouchTask(read: TouchRead)
      modifies this`needTouchUpdate, this`touchPresent, this`x, this`y
      ensures ScheduleState() == old(TouchTaskSchedule(ScheduleState(), read))
      ensures BallState() == old(TouchTaskBall(ScheduleState(), BallState(), read))
      ensures State() == old(AfterTouchTask(State(), read))
    {
      if needTouchUpdate {
        var ok := UpdateBallPosition(read);
        if ok {
          needTouchUpdate := false;
          touchPresent := true;
        } else {
          touchPresent := false;
        }
      }
    }

    /** The circle task of the main loop. */
    method CircleTask()
      requires SetpointOk(SetpointState())
      modifies this`needCircleUpdate, this`setPositionX, this`setPositionY
      ensures ScheduleState() == old(CircleTaskSchedule(ScheduleState()))
      ensures SetpointState() == old(CircleTaskSetpoint(ScheduleState(), SetpointState()))
      ensures State() == old(AfterCircleTask(State()))
    {
      if needCircleUpdate {
        needCircleUpdate := false;
        var target := CirclePoint(circlePositionIndex as int);
        setPositionX := target.x as uint32;
        setPositionY := target.y as uint32;
      }
    }

    /** The PID task of the main loop. */
    method PidTask()
      requires SetpointOk(SetpointState()) && BallOk(BallState()) && ControlOk(ControlState())
      requires degreeAverageX != degreeAverageY
      modifies this`needPIDUpdate, this`pidX, this`pidY,
               this`currentXDegrees, this`currentYDegrees, this`averageIndex,
               degreeAverageX, degreeAverageY
      ensures ScheduleState() == old(PidTaskSchedule(ScheduleState(), BallState()))
      ensures ControlState() == old(PidTaskControl(ScheduleState(), SetpointState(), ControlState(), BallState()))
      ensures old(Valid()) ==> State() == old(AfterPidTask(State()))
    {
      if needPIDUpdate && touchPresent {
        needPIDUpdate := false;
        UpdatePIDController();
      }
    }

    /** The motor task of the main loop. */
    method MotorTask()
      requires ControlOk(ControlState())
      modifies this`needMotorUpdate, this`servoWrites
      ensures ScheduleState() == old(MotorTaskSchedule(ScheduleState(), BallState()))
      ensures OutputState() == old(MotorTaskOutputs(ScheduleState(), ControlState(), BallState(), OutputState()))
      ensures old(Valid()) ==> State() == old(AfterMotorTask(State()))
    {
      if needMotorUpdate && touchPresent {
        needMotorUpdate := false;
        UpdateMotor();
      }
    }

    /** The serial task of the main loop: the position as a status line. */
    method UartTask()
      modifies this`needUARTUpdate, this`serialOut
      ensures ScheduleState() == old(UartTaskSchedule(ScheduleState(), BallState()))
      ensures OutputState() == old(UartTaskOutputs(ScheduleState(), BallState(), OutputState()))
      ensures State() == old(AfterUartTask(State()))
    {
      if needUARTUpdate && touchPresent {
        needUARTUpdate := false;
        serialOut := serialOut + UARTIntSend(ToUint16(x));
        serialOut := serialOut + [','];
        serialOut := serialOut + UARTIntSend(ToUint16(y));
        serialOut := serialOut + ['\r'];
        serialOut := serialOut + ['\n'];
      }
    }

    /** One pass of the main loop. */
    method LoopPass(read: TouchRead)
      requires Valid() && ReadInRange(read)
      modifies this`needTouchUpdate, this`touchPresent, this`x, this`y,
               this`needCircleUpdate, this`setPositionX, this`setPositionY,
               this`needPIDUpdate, this`needMotorUpdate, this`needUARTUpdate,
               this`pidX, this`pidY,
               this`currentXDegrees, this`currentYDegrees, this`averageIndex,
               degreeAverageX, degreeAverageY, this`servoWrites, this`serialOut
      ensures Valid() && State() == old(AfterLoopPass(State(), read))
    {
      TouchTask(read);
      CircleTask();
      PidTask();
      MotorTask();
      UartTask();
    }
  }
}
