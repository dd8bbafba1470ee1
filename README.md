# Ball-and-plate firmware: a Dafny model of the control core

The firmware balances a ball on a touch-panel plate that is tilted by two hobby
servos. A 1 ms SysTick interrupt counts time and raises task flags. A button
interrupt switches between six modes: centre, right, left, circle forward,
circle backward, and a sixth mode that behaves like the centre mode. The main
loop of `main.c` spins over the flags and runs five tasks:

- it reads the ball position from the panel;
- it moves the setpoint along a 360-entry circular path;
- it runs a PID controller per axis;
- it drives the servos through the PWM generator (`servo.c`);
- it reports the position on the serial link (`com.c`).

The model has these modules:

- `CTypes` (ctypes.dfy): the C integer widths as newtypes, the `Limit` and `Abs` helpers of
  main.c, and C's truncating signed division.
- `Servo` (servo.dfy): the servo.h timing constants, `Servo_Set_Degrees`,
  `Servo_Set` and `PWM_Init`. The PWM generator is replaced by the list of
  pulse-width writes it receives.
- `Com` (com.dfy): `UARTIntSend` as the four characters it hands to
  `UARTCharSend`, their decimal value, and the status line of the serial task.
- `Scheduler` (scheduler.dfy): when a tick raises each flag, and how the
  circle index steps.
- `Modes` (modes.dfy): the button state machine, the setpoint of each mode,
  and the circular path tables, with their bounds.
- `Pid` (pid.dfy): one PID update of one axis, entirely in `int32`
  arithmetic. Every intermediate value is range-checked, so no C signed overflow
  can occur.
- `Averaging` (averaging.dfy): the sample averaging of `UpdateMotor`.
- `Firmware` (firmware.dfy): all globals of main.c as one value (`Globals`),
  with one function per interrupt handler and main-loop task. Each of these is
  split into its effect on the flags, the setpoint, the controller memory, the
  ball and the outputs. It also defines the firmware's invariant and runs of
  the firmware as event sequences, with lemmas about whole runs.
- `BallPlate` (controller.dfy): class `Controller`, whose fields are the
  globals. Its methods update them in place as the C functions do, and each
  method's postcondition ties the new fields to the `Firmware` function of the
  old fields. Everything proved about those functions therefore holds of the
  imperative code.

The touch-panel driver is an input: each main-loop pass receives the reading
(`TouchRead`) the panel would give. The hardware outputs are logs: the servo
pulse widths written and the characters sent.

A PID, motor or serial flag raised while no touch is present stays raised
until a pass finds the ball: main.c:162-181 clears it only inside
`if (flag && touchPresent)`. `PidTaskSchedule`, `MotorTaskSchedule` and
`UartTaskSchedule` model that.

## Model

| member | source | states |
|---|---|---|
| CTypes.Limit | main.c:230-234 | the result is the value, min or max; with min <= max it lies in [min, max]; a value already in range is returned unchanged |
| CTypes.LimitMonotone | main.c:230-234 | clamping preserves the order of two values |
| CTypes.Abs | main.c:236-239 | the result is non-negative and equals the value or its negation (INT32_MIN excluded, see Left out) |
| CTypes.CDiv | main.c:253-254 | C's signed division by a positive divisor: the remainder is smaller than the divisor in magnitude and has the dividend's sign (rounding toward zero) |
| CTypes.CDivMonotone | main.c:253-258 | truncating division is monotone in the dividend |
| CTypes.CDivOdd | main.c:253-254 | truncating division commutes with negation, unlike Euclidean division |
| Servo.DerivedConstants | servo.h:18-25 | SERVO_DUTYCYCLE_USEC is 25, START 1500, END 6250, DEGREES (6250-1500)/180 truncated to 26; angles up to 165191049 multiply without 32-bit wrap |
| Servo.DutyCycle | servo.c:72-73 | the pulse width is at least SERVO_DUTYCYCLE_START, and exactly that for angle 0; below the 32-bit wrap bound it is START + degrees * 26 / 10 in plain integer arithmetic |
| Servo.DegreesOfDutyCycle | servo.c:73 | below the wrap bound the angle is recoverable from the pulse width, so the conversion loses no angle information |
| Servo.DutyCycleIncreasing | servo.c:73 | below the wrap bound a larger angle gives a pulse at least 2 ticks longer (strictly increasing) |
| Servo.DutyCycleRange | servo.c:73 | angles up to 1800 give pulses within [START, END]; the clamped angles 530..1230 give pulses within [2878, 4698], below PWM_PERIOD |
| Servo.ServoSet | servo.c:67-69 | one write of the given width to the given channel |
| Servo.ServoSetDegrees | servo.c:72-76 | one write of DutyCycle(degrees) to the given channel, within the servo's pulse range for angles up to 180.0 degrees |
| Servo.PwmInit | servo.c:24-47 | two writes, SERVO_1 then SERVO_2, both 3875 = (START+END)/2 strictly inside the range; the init arguments do not matter |
| Com.UARTIntSend | com.c:52-57 | exactly four characters, all decimal digits |
| Com.UARTIntSendValue | com.c:52-57 | the four digits read back as the value modulo 10000 (high digits are dropped) |
| Com.UARTIntSendOfValue | com.c:52-57 | every four-digit string is the encoding of the number it spells, so the encoding is a bijection onto 0..9999 |
| Com.ZeroPadding | com.c:53-55 | values below 1000, 100 and 10 get one, two and three leading zeros |
| Com.Examples | com.c:52-57 | 12345 is sent as "2345" and 7 as "0007" |
| Com.ToUint16 | main.c:176 | passing a uint32 position to the uint16 parameter keeps it modulo 65536, unchanged below 65536 |
| Com.StatusLine | main.c:176-180 | the line is 11 characters: four digits, a comma, four digits, CR LF |
| Com.StatusLineReadsBack | main.c:174-181 | a receiver splitting the line at the comma recovers x and y modulo 65536 then modulo 10000, and exactly for 12-bit positions |
| Scheduler.DueTicksNest | main.c:313-327 | a PID or serial tick is also a touch tick, and a motor tick is also a PID tick |
| Scheduler.FirstDueTicks | main.c:317-327 | the first PID, serial and motor ticks are 280, 200 and 320 and none comes earlier |
| Scheduler.CircleForward | main.c:332 | the index stays in 0..359 and advances by one modulo 360 |
| Scheduler.CircleBackward | main.c:336-340 | the index stays in 0..359 and retreats by one modulo 360, 0 wrapping to 359 |
| Scheduler.ForwardBackwardInverse | main.c:330-342 | a forward step and a backward step undo each other |
| Scheduler.CircleIndexAfterTick | main.c:330-342 | the index stays in 0..359; it changes only on a due tick in mode 3 (+1 mod 360) or mode 4 (-1 mod 360) |
| Scheduler.ForwardStepsMod | main.c:330-333 | n forward steps from i reach (i + n) mod 360 |
| Scheduler.BackwardStepsMod | main.c:334-342 | n backward steps from i reach (i - n) mod 360 |
| Scheduler.FullRevolution | main.c:330-342 | 360 steps either way return to the start, and n backward steps undo n forward steps |
| Modes.NextMode | main.c:188-196 | the mode stays in 0..5; btn1 steps +1 mod 6, otherwise btn2 steps -1 mod 6, neither leaves it; btn1 wins a tie |
| Modes.ButtonsInverse | main.c:188-196 | a btn1 press followed by a btn2 press (or the reverse) restores the mode |
| Modes.PressesMod | main.c:188-196 | n presses of one button move the mode by n modulo 6 |
| Modes.SixPressesCycle | main.c:188-196 | six presses of either button return to the starting mode |
| Modes.EnterMode | main.c:199-219 | modes 3 and 4, and only they, start circle playback at rate 5 (never 0); every other mode fixes a setpoint on the centre row at centre or centre +/- 600 |
| Modes.FixedTargets | main.c:199-214 | modes 0 and 5 target (2150, 2150), mode 1 (2750, 2150), mode 2 (1550, 2150) |
| Modes.CircleTableBounds | main.c:94-95 | both path tables have 360 entries, each within [-250, 250] |
| Modes.CirclePoint | main.c:157-158 | the centre plus the table entry lies in [1900, 2400] on both axes |
| Pid.AxisStep | main.c:246-262 | from in-range memory and an error of at most 4095: the sum stays in [-100000, 100000], the difference in [-500, 500], the last error becomes this error, and the angle lies in the axis's clamped range; no int32 intermediate overflows |
| Pid.ControlSum | main.c:253-254 | the weighted P + I/5 + 5D sum stays within +/-2000000, computed without int32 overflow |
| Pid.AxisAngleRanges | main.c:40-44 | the gains and servo geometry are valid, and the angles are clamped to [580, 1180] for X and [530, 1230] for Y |
| Pid.CentredAtRest | main.c:246-262 | from a zero memory with zero error, the memory stays zero and the angle is the centre angle 880 |
| Pid.AngleMonotone | main.c:246-262 | from the same memory, a larger error never gives a smaller angle |
| Pid.ControlSumMonotone | main.c:253-254 | the weighted sum is monotone in error, sum and difference |
| Pid.FreshDirection | main.c:246-262 | from a zero memory, a positive error tilts past the centre angle and a negative one short of it |
| Pid.Repeat | main.c:246-250 | repeated updates keep the memory within its clamps |
| Pid.SumSaturates | main.c:246-247 | under a constant non-negative error the sum grows by the error per update until it sticks at 100000 |
| Averaging.MeanWithin | main.c:272-278 | the truncated mean of samples within [lo, hi] lies within [lo, hi] |
| Averaging.MeanOfOne | main.c:277-278 | with MOTOR_SAMPLES = 1 the mean is the single sample |
| Firmware.ModeAfter | main.c:188-196 | the mode reached by the button events of a run stays in 0..5 |
| Firmware.AfterSetup | main.c:110-132 | the invariant holds initially; "START\r\n" and the two PWM_Init writes are sent; the clock is 0 with only the touch flag raised; mode 0, no touch, zero PID memory; both buffers hold the centre angle 880 |
| Firmware.TickSchedule | main.c:310-327 | the clock advances by exactly one; each flag is raised exactly when its task is due at the new time and none is cleared; the circle flag is raised on a due circle tick |
| Firmware.TickSetpoint | main.c:329-342 | the setpoint invariant is kept; the path index moves as CircleIndexAfterTick says; nothing else in the setpoint changes |
| Firmware.AfterTick | main.c:310-343 | SysTick_Handler keeps the firmware invariant |
| Firmware.ButtonSetpoint | main.c:186-220 | the new mode is NextMode; a fixed mode moves the setpoint to its target; a circle mode only resets the rate to 5 and keeps the setpoint; the path index is kept; the setpoint invariant holds |
| Firmware.ButtonSchedule | main.c:199-214 | the circle flag survives only when the new mode is a circle mode; no other flag changes |
| Firmware.AfterButton | main.c:186-220 | OnButtonPushed keeps the firmware invariant |
| Firmware.AfterBallRead | main.c:222-228 | x is stored whenever it was read, even if the touch is then lost; y only on a full read; touchPresent is not changed here; 12-bit readings keep the ball in range |
| Firmware.TouchTaskSchedule | main.c:141-152 | the touch flag is cleared exactly on a successful read; no other flag changes |
| Firmware.TouchTaskBall | main.c:141-152 | while the touch flag is set, the position is read and touchPresent records whether the read succeeded; otherwise the ball is untouched |
| Firmware.AfterTouchTask | main.c:141-152 | the touch task keeps the firmware invariant for 12-bit readings |
| Firmware.CircleTaskSchedule | main.c:155-156 | the circle flag is consumed and nothing else changes |
| Firmware.CircleTaskSetpoint | main.c:155-159 | a pending step moves the setpoint to CirclePoint(index), otherwise it is kept; nothing else changes |
| Firmware.AfterCircleTask | main.c:155-159 | the circle task keeps the firmware invariant |
| Firmware.PositionError | main.c:242-243 | for 12-bit setpoint and position, the uint32 difference reinterpreted as int32 is the true difference, within +/-4095 |
| Firmware.PidUpdate | main.c:241-266 | each axis takes one AxisStep; the new angles go into slot (averageIndex + 1) mod MOTOR_SAMPLES of the buffers; the controller invariant is kept |
| Firmware.MotorCommands | main.c:268-279 | two writes, SERVO_1 then SERVO_2; with one sample these are the Y and X angles just computed, and their pulses lie in [2878, 4698] |
| Firmware.PidTaskSchedule | main.c:162-165 | the PID flag is cleared only when the task runs (flag set and touch present) |
| Firmware.PidTaskControl | main.c:162-165 | the controller memory takes one PidUpdate with the current errors exactly when the task runs, and is otherwise unchanged; it stays in range |
| Firmware.AfterPidTask | main.c:162-165 | the PID task keeps the firmware invariant |
| Firmware.MotorTaskSchedule | main.c:168-171 | the motor flag is cleared only when the task runs |
| Firmware.MotorTaskOutputs | main.c:168-171 | the two motor writes are appended exactly when the task runs; every write stays in [2878, 4698]; the serial output is unchanged |
| Firmware.AfterMotorTask | main.c:168-171 | the motor task keeps the firmware invariant |
| Firmware.UartTaskSchedule | main.c:174-175 | the serial flag is cleared only when the task runs |
| Firmware.UartTaskOutputs | main.c:174-181 | one status line of the current position is appended exactly when the task runs; the servo writes are unchanged |
| Firmware.AfterUartTask | main.c:174-181 | the serial task keeps the firmware invariant |
| Firmware.AfterLoopPass | main.c:138-182 | one main-loop pass, with its tasks in source order, keeps the firmware invariant |
| Firmware.AfterEvent | main.c:134-183 | a tick, a button event or a loop pass keeps the firmware invariant |
| Firmware.AfterEvents | main.c:134-183 | the invariant holds after every run of interrupts and loop passes |
| Firmware.EventStep | main.c:134-183 | only a tick moves the clock, by one; only a button changes the mode, to NextMode; outputs only grow, and the serial output by zero or one 11-character line |
| Firmware.TouchLossSkips | main.c:141-181 | a pass whose due touch read fails leaves touchPresent false and runs no PID update, servo write or status line in that pass |
| Firmware.RunClock | main.c:310-311 | after a run the clock has advanced by exactly the number of ticks in it |
| Firmware.RunMode | main.c:186-196 | after a run the mode is the one its button events select |
| Firmware.RunOutputsGrow | main.c:168-181 | servo writes and serial output of a run only grow: what was sent stays sent |
| Firmware.NoTouchNoActuation | main.c:141-181 | a run whose panel readings never find a touch, starting with no touch present, runs no PID update, sends no servo write and no status line |
| BallPlate.Controller.constructor | main.c:110-132 | the fields equal AfterSetup, the buffers are filled by the initialisation loop, and the invariant holds |
| BallPlate.Controller.Tick | main.c:310-343 | the flags and the setpoint after the handler are TickSchedule and TickSetpoint of those before |
| BallPlate.Controller.RaiseDueFlags | main.c:313-327 | each flag is raised when its task is due and otherwise keeps its value |
| BallPlate.Controller.StepCirclePath | main.c:329-342 | the index and the circle flag move as CircleIndexAfterTick and CircleStepDue say |
| BallPlate.Controller.OnButtonPushed | main.c:186-220 | the flags and the setpoint after the handler are ButtonSchedule and ButtonSetpoint of those before |
| BallPlate.Controller.UpdateBallPosition | main.c:222-228 | returns true exactly on a full read; the position becomes AfterBallRead of the old one |
| BallPlate.Controller.UpdatePIDController | main.c:241-266 | the PID memory, angles, index and buffer arrays become PidUpdate of the old ones with the current position errors |
| BallPlate.Controller.UpdateMotor | main.c:268-279 | the summing loop's mean gives exactly the two MotorCommands writes, appended to the servo writes |
| BallPlate.Controller.TouchTask | main.c:141-152 | the state becomes AfterTouchTask of the old state |
| BallPlate.Controller.CircleTask | main.c:155-159 | the state becomes AfterCircleTask of the old state |
| BallPlate.Controller.PidTask | main.c:162-165 | the state becomes AfterPidTask of the old state |
| BallPlate.Controller.MotorTask | main.c:168-171 | the state becomes AfterMotorTask of the old state |
| BallPlate.Controller.UartTask | main.c:174-181 | the state becomes AfterUartTask of the old state: when the task runs, the sends of main.c:176-180 are appended in order (four digits of x, ',', four digits of y, CR, LF), which together form StatusLine(x, y) |
| BallPlate.Controller.LoopPass | main.c:138-182 | one pass keeps the invariant and takes the state to AfterLoopPass of the old state |

## Left out

- touch.c, touch.h, touchCalibration.c, button.c and button.h are not part of this model. The panel reading is an input of each loop pass (`TouchRead`), assumed to be a 12-bit value. Button decoding and debouncing are replaced by `ButtonEvent(btn1, btn2)`.
- Clock, SysTick, GPIO, UART and PWM peripheral configuration are left out: `SysTick_Init`, `COM_Init`, the GPIO part of `Servo_Init`, and the clock setup in `Setup`. These are register writes with no state the core reads back.
- The LED writes in the touch task (main.c:147, 150) are left out because they are an output with no effect on the core.
- The UART receive interrupt handler (com.c:60-71) echoes received characters; it is left out because it shares no state with the core.
- Interrupts are modelled as atomic steps between whole main-loop passes (`Event`). A tick or button press arriving in the middle of a task is not modelled, and neither are the `volatile` semantics.
- Runs of events are modelled on values only (`AfterEvents` and the `Run*` lemmas). There is no method on `Controller` that executes an event sequence.
- Firmware.TickSchedule: `currentTime` is an unbounded counter. The 32-bit `unsigned long` wraps after about 49.7 days, which would restart the PID, serial and motor start-up delays; that wrap is not modelled.
- CTypes.Abs: requires the value not to be INT32_MIN, where C negation overflows. The source has no such guard, but `Abs` is never called.
- Firmware.PositionError: its contract is stated only for 12-bit setpoints and positions. Outside that range the function still computes the wrapped C value, but nothing is claimed about it.
- The six PID globals (ErrorXLast, ErrorXSum, ErrorXDif and the Y ones) are grouped per axis as `AxisState` fields.
- `MOTOR_SAMPLES` is fixed at 1 as in the source. The averaging lemmas hold for any buffer length, but the controller invariant and `MotorCommands` use the value 1.
- The serial output of a whole run is not proved to be a whole number of status lines. Only the per-event fact is proved, in `EventStep`: zero or one 11-character line per event.
