/** The globals of main.c as one value, and what each interrupt handler and
    each main-loop task does to them: SysTick_Handler, OnButtonPushed, the
    touch, circle, PID, motor and serial tasks, and the Setup that starts
    them. The hardware is replaced by inputs (the touch reading) and output
    logs (the pulse-width writes the servos receive, the characters sent on
    the serial link). Each interrupt is an atomic step between main-loop
    passes; a run of the firmware is a sequence of such steps. */
module Firmware {
  import opened CTypes
  import opened Servo
  import opened Com
  import opened Scheduler
  import opened Modes
  import opened Pid
  import opened Averaging

  /** Number of servo angles averaged by the motor task. */
  const MOTOR_SAMPLES: nat := 1
  /** Largest touch-panel reading (12-bit ADC). */
  const ADC_MAX: uint32 := 4095
  const START_LINE: string := "START\r\n"

  /** What the touch panel yields when the main loop asks for a position
      (UpdateBallPosition): no touch, a touch lost after x was read, or
      both coordinates. */
  datatype TouchRead = NoTouch | LostAfterX(rx: uint32) | Touched(rx: uint32, ry: uint32)

  predicate ReadInRange(r: TouchRead)
  {
    match r
    case NoTouch => true
    case LostAfterX(rx) => rx <= ADC_MAX
    case Touched(rx, ry) => rx <= ADC_MAX && ry <= ADC_MAX
  }

  /** One step of the running firmware: a tick interrupt, a debounced button
      event, or one pass of the main loop with the reading the panel would
      give if asked. */
  datatype Event = TickEvent | ButtonEvent(btn1: bool, btn2: bool) | LoopEvent(read: TouchRead)

  predicate EventOk(e: Event)
  {
    e.LoopEvent? ==> ReadInRange(e.read)
  }

  predicate EventsOk(events: seq<Event>)
  {
    forall k | 0 <= k < |events| :: EventOk(events[k])
  }

  function TickCount(events: seq<Event>): nat
  {
    if events == [] then 0
    else TickCount(events[..|events| - 1]) + (if events[|events| - 1].TickEvent? then 1 else 0)
  }

  /** The mode reached from `mode` by the button events among `events`. */
  function ModeAfter(mode: nat, events: seq<Event>): (m: nat)
    requires mode < MODE_COUNT
    ensures m < MODE_COUNT
  {
    if events == [] then mode
    else
      var m0 := ModeAfter(mode, events[..|events| - 1]);
      match events[|events| - 1]
      case ButtonEvent(b1, b2) => NextMode(m0, b1, b2)
      case _ => m0
  }

  // The globals of main.c, grouped by the part of the firmware that owns them.

  /** Tick counter and task flags, shared between SysTick_Handler and the
      main loop. */
  datatype Schedule = Schedule(
    currentTime: nat,
    needTouchUpdate: bool, needUARTUpdate: bool, needPIDUpdate: bool,
    needMotorUpdate: bool, needCircleUpdate: bool)

  /** The mode and the position the plate steers the ball to, in panel
      coordinates, with the circular-path playback state. */
  datatype Setpoint = Setpoint(
    mode: uint8, setPositionX: uint32, setPositionY: uint32,
    circleUpdateRate: uint16, circlePositionIndex: uint16)

  /** The controller memory: the PID state per axis (the globals ErrorXLast,
      ErrorXSum, ErrorXDif and their Y counterparts), the last servo angles
      in tenths of a degree, and the averaging buffers. */
  datatype Control = Control(
    pidX: AxisState, pidY: AxisState,
    currentXDegrees: uint32, currentYDegrees: uint32,
    averageIndex: uint8, degreeAverageX: seq<uint32>, degreeAverageY: seq<uint32>)

  /** The last ball position and whether the last read succeeded. */
  datatype Ball = Ball(touchPresent: bool, x: uint32, y: uint32)

  /** What the firmware has sent: pulse-width writes and serial characters. */
  datatype Outputs = Outputs(servoWrites: seq<PulseWidthSet>, serialOut: string)

  datatype Globals = Globals(sched: Schedule, setpoint: Setpoint, control: Control, ball: Ball, out: Outputs)

  /** The mode and the circle playback state stay in range, and the setpoint
      stays where the fixed modes and the circular path put it. */
  predicate SetpointOk(s: Setpoint)
  {
    s.mode as int < MODE_COUNT &&
    s.circlePositionIndex as int < CIRCLE_SIZE &&
    s.circleUpdateRate as int == CIRCLE_DEFAULT_RATE &&
    1550 <= s.setPositionX <= 2750 && 1900 <= s.setPositionY <= 2400
  }

  /** Positions are 12-bit readings. */
  predicate BallOk(b: Ball)
  {
    b.x <= ADC_MAX && b.y <= ADC_MAX
  }

  /** The PID memory and the last angles stay within their clamps, the
      averaging buffers hold clamped angles, and the slot at averageIndex
      holds the last angle. */
  predicate ControlOk(c: Control)
  {
    StateOk(c.pidX) && StateOk(c.pidY) &&
    AngleOk(X_GAINS, c.currentXDegrees as int) && AngleOk(Y_GAINS, c.currentYDegrees as int) &&
    |c.degreeAverageX| == MOTOR_SAMPLES && |c.degreeAverageY| == MOTOR_SAMPLES &&
    c.averageIndex as int < MOTOR_SAMPLES &&
    AllWithin(c.degreeAverageX, MinAngle(X_GAINS), MaxAngle(X_GAINS)) &&
    AllWithin(c.degreeAverageY, MinAngle(Y_GAINS), MaxAngle(Y_GAINS)) &&
    c.degreeAverageX[c.averageIndex] == c.currentXDegrees &&
    c.degreeAverageY[c.averageIndex] == c.currentYDegrees
  }

  /** Every pulse width sent to a servo lies within the clamped angles'
      range, well inside the servo's own range. */
  predicate WritesOk(writes: seq<PulseWidthSet>)
  {
    forall k | 0 <= k < |writes| :: 2878 <= writes[k].width as int <= 4698
  }

  predicate Inv(g: Globals)
  {
    SetpointOk(g.setpoint) && BallOk(g.ball) && ControlOk(g.control) && WritesOk(g.out.servoWrites)
  }

  /** Setup: the start banner, the PWM initialisation, the averaging buffers
      filled with the centre angles, and the initial values of the globals. */
  function AfterSetup(): (g: Globals)
    ensures Inv(g)
    ensures g.out == Outputs(PwmInit(SERVO_Y_ZERO as uint32, SERVO_X_ZERO as uint32), START_LINE)
    ensures g.sched == Schedule(0, true, false, false, false, false)
    ensures g.setpoint.mode == 0 && !g.ball.touchPresent
    ensures g.control.pidX == ZERO_STATE && g.control.pidY == ZERO_STATE
    ensures forall k | 0 <= k < MOTOR_SAMPLES ::
              g.control.degreeAverageX[k] as int == SERVO_X_ZERO as int &&
              g.control.degreeAverageY[k] as int == SERVO_Y_ZERO as int
  {
    AxisAngleRanges();
    Globals(
      Schedule(0, true, false, false, false, false),
      Setpoint(0, CENTER_X as uint32, CENTER_Y as uint32, CIRCLE_DEFAULT_RATE as uint16, 0),
      Control(ZERO_STATE, ZERO_STATE, SERVO_X_ZERO as uint32, SERVO_Y_ZERO as uint32, 0,
              seq(MOTOR_SAMPLES, _ => SERVO_X_ZERO as uint32), seq(MOTOR_SAMPLES, _ => SERVO_Y_ZERO as uint32)),
      Ball(false, 0, 0),
      Outputs(PwmInit(SERVO_Y_ZERO as uint32, SERVO_X_ZERO as uint32), START_LINE))
  }

  /** SysTick_Handler on the clock and the flags: the clock advances by one
      tick, and a flag is raised exactly when its task falls due at the new
      time; a tick never clears a flag. */
  function TickSchedule(s: Schedule, p: Setpoint): (r: Schedule)
    requires SetpointOk(p)
    ensures r.currentTime == s.currentTime + 1
    ensures r.needTouchUpdate <==> s.needTouchUpdate || TouchDue(r.currentTime)
    ensures r.needPIDUpdate <==> s.needPIDUpdate || PidDue(r.currentTime)
    ensures r.needUARTUpdate <==> s.needUARTUpdate || UartDue(r.currentTime)
    ensures r.needMotorUpdate <==> s.needMotorUpdate || MotorDue(r.currentTime)
    ensures r.needCircleUpdate <==>
              s.needCircleUpdate || CircleStepDue(p.mode as int, r.currentTime, CIRCLE_DEFAULT_RATE)
  {
    var t := s.currentTime + 1;
    Schedule(t,
             s.needTouchUpdate || TouchDue(t),
             s.needUARTUpdate || UartDue(t),
             s.needPIDUpdate || PidDue(t),
             s.needMotorUpdate || MotorDue(t),
             s.needCircleUpdate || CircleStepDue(p.mode as int, t, p.circleUpdateRate as int))
  }

  /** SysTick_Handler on the setpoint: in the circle modes the path index
      moves one entry forward or back on every rate-th tick, wrapping around
      the table; nothing else changes. */
  function TickSetpoint(s: Schedule, p: Setpoint): (r: Setpoint)
    requires SetpointOk(p)
    ensures SetpointOk(r)
    ensures r.circlePositionIndex as int ==
              CircleIndexAfterTick(p.mode as int, p.circlePositionIndex as int, s.currentTime + 1, CIRCLE_DEFAULT_RATE)
    ensures r == p.(circlePositionIndex := r.circlePositionIndex)
  {
    var t := s.currentTime + 1;
    p.(circlePositionIndex :=
         CircleIndexAfterTick(p.mode as int, p.circlePositionIndex as int, t, p.circleUpdateRate as int) as uint16)
  }

  function AfterTick(g: Globals): (r: Globals)
    requires SetpointOk(g.setpoint)
    ensures SetpointOk(r.setpoint) && (Inv(g) ==> Inv(r))
  {
    g.(sched := TickSchedule(g.sched, g.setpoint), setpoint := TickSetpoint(g.sched, g.setpoint))
  }

  /** OnButtonPushed on the setpoint: the mode moves one step, then the new
      mode's entry action runs. The fixed modes move the setpoint to their
      target; the circle modes (mode 3 has no `break` and falls into mode 4's
      statement) only reset the playback rate. The path index is kept. */
  function ButtonSetpoint(p: Setpoint, btn1: bool, btn2: bool): (r: Setpoint)
    requires SetpointOk(p)
    ensures SetpointOk(r)
    ensures r.mode as int == NextMode(p.mode as int, btn1, btn2)
    ensures EnterMode(r.mode as int).FixedSetpoint? ==>
              Point(r.setPositionX as int, r.setPositionY as int) == EnterMode(r.mode as int).target &&
              r.circleUpdateRate == p.circleUpdateRate
    ensures EnterMode(r.mode as int).CirclePlayback? ==>
              r.circleUpdateRate as int == EnterMode(r.mode as int).rate &&
              r.setPositionX == p.setPositionX && r.setPositionY == p.setPositionY
    ensures r.circlePositionIndex == p.circlePositionIndex
  {
    var m := NextMode(p.mode as int, btn1, btn2);
    var q := p.(mode := m as uint8);
    match EnterMode(m)
    case FixedSetpoint(target) => q.(setPositionX := target.x as uint32, setPositionY := target.y as uint32)
    case CirclePlayback(rate) => q.(circleUpdateRate := rate as uint16)
  }

  /** OnButtonPushed on the flags: entering a fixed mode drops a pending
      circle step, entering a circle mode keeps it. */
  function ButtonSchedule(s: Schedule, p: Setpoint, btn1: bool, btn2: bool): (r: Schedule)
    requires SetpointOk(p)
    ensures r.needCircleUpdate <==>
              s.needCircleUpdate && EnterMode(NextMode(p.mode as int, btn1, btn2)).CirclePlayback?
    ensures r == s.(needCircleUpdate := r.needCircleUpdate)
  {
    if EnterMode(NextMode(p.mode as int, btn1, btn2)).FixedSetpoint? then s.(needCircleUpdate := false) else s
  }

  function AfterButton(g: Globals, btn1: bool, btn2: bool): (r: Globals)
    requires SetpointOk(g.setpoint)
    ensures SetpointOk(r.setpoint) && (Inv(g) ==> Inv(r))
  {
    g.(sched := ButtonSchedule(g.sched, g.setpoint, btn1, btn2), setpoint := ButtonSetpoint(g.setpoint, btn1, btn2))
  }

  /** UpdateBallPosition: x is stored as soon as it is read, so a touch lost
      before y is read leaves a new x beside the old y. */
  function AfterBallRead(b: Ball, read: TouchRead): (r: Ball)
    ensures BallOk(b) && ReadInRange(read) ==> BallOk(r)
    ensures r.x == (if read.NoTouch? then b.x else read.rx)
    ensures r.y == (if read.Touched? then read.ry else b.y)
    ensures r.touchPresent == b.touchPresent
  {
    match read
    case NoTouch => b
    case LostAfterX(rx) => b.(x := rx)
    case Touched(rx, ry) => b.(x := rx, y := ry)
  }

  /** The touch task on the flags: only a successful read clears the
      touch flag. */
  function TouchTaskSchedule(s: Schedule, read: TouchRead): (r: Schedule)
    ensures r.needTouchUpdate <==> s.needTouchUpdate && !read.Touched?
    ensures r == s.(needTouchUpdate := r.needTouchUpdate)
  {
    if s.needTouchUpdate && read.Touched? then s.(needTouchUpdate := false) else s
  }

  /** The touch task on the ball: while the touch flag is set, read the
      position and record whether a touch is present; otherwise nothing. */
  function TouchTaskBall(s: Schedule, b: Ball, read: TouchRead): (r: Ball)
    ensures BallOk(b) && ReadInRange(read) ==> BallOk(r)
    ensures s.needTouchUpdate ==> r == AfterBallRead(b, read).(touchPresent := read.Touched?)
    ensures !s.needTouchUpdate ==> r == b
  {
    if s.needTouchUpdate then AfterBallRead(b, read).(touchPresent := read.Touched?) else b
  }

  function AfterTouchTask(g: Globals, read: TouchRead): (r: Globals)
    ensures Inv(g) && ReadInRange(read) ==> Inv(r)
  {
    g.(sched := TouchTaskSchedule(g.sched, read), ball := TouchTaskBall(g.sched, g.ball, read))
  }

  /** The circle task on the flags: a pending circle step is consumed. */
  function CircleTaskSchedule(s: Schedule): (r: Schedule)
    ensures !r.needCircleUpdate && r == s.(needCircleUpdate := false)
  {
    s.(needCircleUpdate := false)
  }

  /** The circle task on the setpoint: a pending step moves the setpoint to
      the table entry at the current path index. */
  function CircleTaskSetpoint(s: Schedule, p: Setpoint): (r: Setpoint)
    requires SetpointOk(p)
    ensures SetpointOk(r)
    ensures Point(r.setPositionX as int, r.setPositionY as int) ==
              if s.needCircleUpdate then CirclePoint(p.circlePositionIndex as int)
              else Point(p.setPositionX as int, p.setPositionY as int)
    ensures r == p.(setPositionX := r.setPositionX, setPositionY := r.setPositionY)
  {
    if s.needCircleUpdate then
      var target := CirclePoint(p.circlePositionIndex as int);
      p.(setPositionX := target.x as uint32, setPositionY := target.y as uint32)
    else p
  }

  function AfterCircleTask(g: Globals): (r: Globals)
    requires SetpointOk(g.setpoint)
    ensures SetpointOk(r.setpoint) && (Inv(g) ==> Inv(r))
  {
    g.(sched := CircleTaskSchedule(g.sched), setpoint := CircleTaskSetpoint(g.sched, g.setpoint))
  }

  /** The error of one axis, setpoint minus position: the difference is
      taken in uint32 arithmetic and reinterpreted as an int32. For 12-bit
      inputs no wrap-around occurs and the error is the plain difference. */
  function PositionError(setPosition: uint32, position: uint32): (e: int32)
    ensures setPosition <= ADC_MAX && position <= ADC_MAX ==>
              -MAX_ERROR <= e <= MAX_ERROR && e as int == setPosition as int - position as int
  {
    var d := (setPosition as int - position as int) % 0x1_0000_0000;
    (if d < 0x8000_0000 then d else d - 0x1_0000_0000) as int32
  }

  /** UpdatePIDController: one PID step per axis, the new angles stored in
      the next slot of the averaging buffers. */
  function PidUpdate(c: Control, errorX: int32, errorY: int32): (r: Control)
    requires ControlOk(c) && -MAX_ERROR <= errorX <= MAX_ERROR && -MAX_ERROR <= errorY <= MAX_ERROR
    ensures ControlOk(r)
    ensures r.pidX == AxisStep(X_GAINS, c.pidX, errorX).state
    ensures r.pidY == AxisStep(Y_GAINS, c.pidY, errorY).state
    ensures r.currentXDegrees as int == AxisStep(X_GAINS, c.pidX, errorX).angle as int
    ensures r.currentYDegrees as int == AxisStep(Y_GAINS, c.pidY, errorY).angle as int
    ensures r.averageIndex as int == (c.averageIndex as int + 1) % MOTOR_SAMPLES
    ensures r.degreeAverageX == c.degreeAverageX[r.averageIndex as int := r.currentXDegrees]
    ensures r.degreeAverageY == c.degreeAverageY[r.averageIndex as int := r.currentYDegrees]
  {
    AxisAngleRanges();
    var stepX := AxisStep(X_GAINS, c.pidX, errorX);
    var stepY := AxisStep(Y_GAINS, c.pidY, errorY);
    var i := ((c.averageIndex as int + 1) % MOTOR_SAMPLES) as uint8;
    var ax, ay := stepX.angle as uint32, stepY.angle as uint32;
    Control(stepX.state, stepY.state, ax, ay, i,
            c.degreeAverageX[i as int := ax], c.degreeAverageY[i as int := ay])
  }

  /** The two writes of UpdateMotor: the averaged Y angle to SERVO_1 and the
      averaged X angle to SERVO_2. With one sample per buffer these are the
      angles just computed, and they land well inside the servo range. */
  function MotorCommands(c: Control): (cmds: seq<PulseWidthSet>)
    requires |c.degreeAverageX| > 0 && |c.degreeAverageY| > 0
    ensures |cmds| == 2 && cmds[0].channel == SERVO_1 && cmds[1].channel == SERVO_2
    ensures ControlOk(c) ==>
              cmds == [ServoSetDegrees(SERVO_1, c.currentYDegrees), ServoSetDegrees(SERVO_2, c.currentXDegrees)]
    ensures ControlOk(c) ==> forall k | 0 <= k < 2 :: 2878 <= cmds[k].width as int <= 4698
  {
    var meanY, meanX := Mean(c.degreeAverageY), Mean(c.degreeAverageX);
    if ControlOk(c) then
      AxisAngleRanges();
      MeanOfOne(c.degreeAverageY);
      MeanOfOne(c.degreeAverageX);
      DutyCycleRange(meanY);
      DutyCycleRange(meanX);
      [ServoSetDegrees(SERVO_1, meanY), ServoSetDegrees(SERVO_2, meanX)]
    else
      [ServoSetDegrees(SERVO_1, meanY), ServoSetDegrees(SERVO_2, meanX)]
  }

  /** Whether a flagged controller task (PID, motor, serial) runs: its flag
      is set and the last read found a touch. */
  predicate Runs(flag: bool, b: Ball)
  {
    flag && b.touchPresent
  }

  /** The PID task on the flags: the flag is cleared only when the task runs. */
  function PidTaskSchedule(s: Schedule, b: Ball): (r: Schedule)
    ensures r.needPIDUpdate <==> s.needPIDUpdate && !Runs(s.needPIDUpdate, b)
    ensures r == s.(needPIDUpdate := r.needPIDUpdate)
  {
    if Runs(s.needPIDUpdate, b) then s.(needPIDUpdate := false) else s
  }

  /** The PID task on the controller memory: one update with the current
      errors, only when the task runs. */
  function PidTaskControl(s: Schedule, p: Setpoint, c: Control, b: Ball): (r: Control)
    requires SetpointOk(p) && BallOk(b) && ControlOk(c)
    ensures ControlOk(r)
    ensures Runs(s.needPIDUpdate, b) ==>
              r == PidUpdate(c, PositionError(p.setPositionX, b.x), PositionError(p.setPositionY, b.y))
    ensures !Runs(s.needPIDUpdate, b) ==> r == c
  {
    if Runs(s.needPIDUpdate, b) then PidUpdate(c, PositionError(p.setPositionX, b.x), PositionError(p.setPositionY, b.y)) else c
  }

  function AfterPidTask(g: Globals): (r: Globals)
    requires Inv(g)
    ensures Inv(r)
  {
    g.(sched := PidTaskSchedule(g.sched, g.ball), control := PidTaskControl(g.sched, g.setpoint, g.control, g.ball))
  }

  /** The motor task on the flags. */
  function MotorTaskSchedule(s: Schedule, b: Ball): (r: Schedule)
    ensures r.needMotorUpdate <==> s.needMotorUpdate && !Runs(s.needMotorUpdate, b)
    ensures r == s.(needMotorUpdate := r.needMotorUpdate)
  {
    if Runs(s.needMotorUpdate, b) then s.(needMotorUpdate := false) else s
  }

  /** The motor task on the outputs: the two servo writes, only when the
      task runs; every write stays inside the clamped pulse range. */
  function MotorTaskOutputs(s: Schedule, c: Control, b: Ball, o: Outputs): (r: Outputs)
    requires ControlOk(c)
    ensures WritesOk(o.servoWrites) ==> WritesOk(r.servoWrites)
    ensures r.servoWrites == o.servoWrites + if Runs(s.needMotorUpdate, b) then MotorCommands(c) else []
    ensures r.serialOut == o.serialOut
  {
    if Runs(s.needMotorUpdate, b) then o.(servoWrites := o.servoWrites + MotorCommands(c)) else o
  }

  function AfterMotorTask(g: Globals): (r: Globals)
    requires Inv(g)
    ensures Inv(r)
  {
    g.(sched := MotorTaskSchedule(g.sched, g.ball), out := MotorTaskOutputs(g.sched, g.control, g.ball, g.out))
  }

  /** The serial task on the flags. */
  function UartTaskSchedule(s: Schedule, b: Ball): (r: Schedule)
    ensures r.needUARTUpdate <==> s.needUARTUpdate && !Runs(s.needUARTUpdate, b)
    ensures r == s.(needUARTUpdate := r.needUARTUpdate)
  {
    if Runs(s.needUARTUpdate, b) then s.(needUARTUpdate := false) else s
  }

  /** The serial task on the outputs: the position as one status line, only
      when the task runs. */
  function UartTaskOutputs(s: Schedule, b: Ball, o: Outputs): (r: Outputs)
    ensures r.serialOut == o.serialOut + if Runs(s.needUARTUpdate, b) then StatusLine(b.x, b.y) else []
    ensures r.servoWrites == o.servoWrites
  {
    if Runs(s.needUARTUpdate, b) then o.(serialOut := o.serialOut + StatusLine(b.x, b.y)) else o
  }

  function AfterUartTask(g: Globals): (r: Globals)
    ensures Inv(g) ==> Inv(r)
  {
    g.(sched := UartTaskSchedule(g.sched, g.ball), out := UartTaskOutputs(g.sched, g.ball, g.out))
  }

  /** One pass of the main loop: the touch task, the circle setpoint, then
      the PID, motor and serial tasks. */
  function AfterLoopPass(g: Globals, read: TouchRead): (r: Globals)
    requires Inv(g) && ReadInRange(read)
    ensures Inv(r)
  {
    AfterUartTask(AfterMotorTask(AfterPidTask(AfterCircleTask(AfterTouchTask(g, read)))))
  }

  function AfterEvent(g: Globals, e: Event): (r: Globals)
    requires Inv(g) && EventOk(e)
    ensures Inv(r)
  {
    match e
    case TickEvent => AfterTick(g)
    case ButtonEvent(b1, b2) => AfterButton(g, b1, b2)
    case LoopEvent(read) => AfterLoopPass(g, read)
  }

  /** A run of the firmware: the events in order. The invariant holds after
      every run. */
  function AfterEvents(g: Globals, events: seq<Event>): (r: Globals)
    requires Inv(g) && EventsOk(events)
    ensures Inv(r)
  {
    if events == [] then g
    else
      var n := |events| - 1;
      assert EventsOk(events[..n]);
      AfterEvent(AfterEvents(g, events[..n]), events[n])
  }

  // Properties of whole runs.

  /** One event's effect on the clock, the mode and the outputs. */
  lemma EventStep(g: Globals, e: Event)
    requires Inv(g) && EventOk(e)
    ensures AfterEvent(g, e).sched.currentTime == g.sched.currentTime + (if e.TickEvent? then 1 else 0)
    ensures AfterEvent(g, e).setpoint.mode as int ==
              if e.ButtonEvent? then NextMode(g.setpoint.mode as int, e.btn1, e.btn2) else g.setpoint.mode as int
    ensures g.out.servoWrites <= AfterEvent(g, e).out.servoWrites
    ensures g.out.serialOut <= AfterEvent(g, e).out.serialOut
    ensures |AfterEvent(g, e).out.serialOut| == |g.out.serialOut| ||
            |AfterEvent(g, e).out.serialOut| == |g.out.serialOut| + 11
  {
  }

  /** A touch lost in a pass that reads the panel stops the controller
      tasks of that pass: no PID update, no servo write, no status line. */
  lemma TouchLossSkips(g: Globals, read: TouchRead)
    requires Inv(g) && ReadInRange(read) && g.sched.needTouchUpdate && !read.Touched?
    ensures !AfterLoopPass(g, read).ball.touchPresent
    ensures AfterLoopPass(g, read).control == g.control
    ensures AfterLoopPass(g, read).out == g.out
  {
  }

  /** The clock counts the tick interrupts of a run: nothing else moves it. */
  lemma {:induction false} RunClock(g: Globals, events: seq<Event>)
    requires Inv(g) && EventsOk(events)
    ensures AfterEvents(g, events).sched.currentTime == g.sched.currentTime + TickCount(events)
  {
    if events != [] {
      var n := |events| - 1;
      assert EventsOk(events[..n]);
      RunClock(g, events[..n]);
      EventStep(AfterEvents(g, events[..n]), events[n]);
    }
  }

  /** Only the buttons change the mode, one step per press. */
  lemma {:induction false} RunMode(g: Globals, events: seq<Event>)
    requires Inv(g) && EventsOk(events)
    ensures AfterEvents(g, events).setpoint.mode as int == ModeAfter(g.setpoint.mode as int, events)
  {
    if events != [] {
      var n := |events| - 1;
      assert EventsOk(events[..n]);
      RunMode(g, events[..n]);
      EventStep(AfterEvents(g, events[..n]), events[n]);
    }
  }

  /** What has been sent stays sent: the servo writes and the serial output
      of a run only grow. */
  lemma {:induction false} RunOutputsGrow(g: Globals, events: seq<Event>)
    requires Inv(g) && EventsOk(events)
    ensures g.out.servoWrites <= AfterEvents(g, events).out.servoWrites
    ensures g.out.serialOut <= AfterEvents(g, events).out.serialOut
  {
    if events != [] {
      var n := |events| - 1;
      assert EventsOk(events[..n]);
      RunOutputsGrow(g, events[..n]);
      EventStep(AfterEvents(g, events[..n]), events[n]);
    }
  }

  /** No main-loop pass of the run finds a touch. */
  predicate NoTouchReads(events: seq<Event>)
  {
    forall k | 0 <= k < |events| :: events[k].LoopEvent? ==> !events[k].read.Touched?
  }

  /** Without a touch the plate is left alone: starting with no touch
      present, a run whose panel readings never find a touch runs no PID
      update, sends no servo write and no status line. */
  lemma {:induction false} NoTouchNoActuation(g: Globals, events: seq<Event>)
    requires Inv(g) && EventsOk(events) && !g.ball.touchPresent && NoTouchReads(events)
    ensures !AfterEvents(g, events).ball.touchPresent
    ensures AfterEvents(g, events).control == g.control
    ensures AfterEvents(g, events).out == g.out
  {
    if events != [] {
      var n := |events| - 1;
      assert EventsOk(events[..n]) && NoTouchReads(events[..n]);
      NoTouchNoActuation(g, events[..n]);
    }
  }
}
