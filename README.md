# Self-balancing platform firmware: sensor → average → PI → motor duty

A Dafny model of the control pipeline of a two-motor self-balancing platform
(ME507 balance project). Three periodic tasks communicate through task
shares:

- the **IMU task** calibrates three accelerometer axes into one slot of a
  five-slot sample buffer and advances its cursor;
- the **controller task** averages the buffer per axis in 16-bit integer
  arithmetic (`Balance::convert`) and runs a PI step per axis
  (`Balance::control`), putting one signed signal per motor into a share;
- each **motor task** forwards its share's value to `Motor::setActuation`.
  That method saturates the value to [-100, 100] and splits it into two
  PWM duty cycles, one per motor lead.

Each task's loop body is one sequential step, and each task is a class whose
fields are the state it keeps. A share is a last-write-wins cell
(`Shares.Share`). Floats are `real`. A float-to-`int16_t` conversion is
truncation toward zero (`CArith.Trunc`). Integer division is C division
(`CArith.CDiv`). Undefined conversions are excluded by preconditions
(`Controller.ConvertDefined`, `Balance.ControlDefined`).

Modules: `CArith` (c_arith.dfy), `Shares` (shares.dfy), `MotorDriver`
(motor_driver.dfy), `Controller` (balance.dfy), `TaskImu` (task_imu.dfy),
`TaskController` (task_controller.dfy), `TaskMotor` (task_motor.dfy).

Where the code's own comments promise more than it does, the model follows
the code:

- The header comment of `task_imu` (Code_we_wrote/task_imu.h:22) says the
  shared buffer "holds the previous 5 acceleration data points". The cursor
  actually runs 0..5 with period six, so every sixth sample goes past the
  end and is lost (see Findings).
- The comment of `Balance::convert` (balance/Balance.cpp:34) says it
  "averages the previous 5 IMU values". It is not a real mean. It sums into
  an `int16_t`, truncating after every addition, and then divides by 5 with
  integer division.

With gains 0.15/0.1, setpoint 0, time step 0.005 and a constant x average of
-10, the error `set_x - x_accel` is +10 and the k-th x output is
`1.5 + 0.005·k` (`Controller.ConstantErrorOutput`).

## Model

| member | source | states |
|---|---|---|
| `CArith.Trunc` | balance/Balance.cpp:93 | float-to-`int16_t` conversion discards the fraction: the result is within one of the value, on the zero side |
| `CArith.TruncOfInteger` | balance/Balance.cpp:48-50 | the conversion is exact on whole numbers |
| `CArith.CDiv` | balance/Balance.cpp:52-54 | integer division truncates toward zero: the remainder has the sign of the dividend and is smaller than the divisor |
| `Shares.Share.constructor` | balance/shares.h:52-65 | a share starts with the value it is created with |
| `Shares.Share.Get` | balance/shares.h:52-65 | `get` returns the value currently held |
| `Shares.Share.Put` | balance/shares.h:52-65 | `put` replaces the held value (last write wins) |
| `Shares.PutThenGet` | balance/shares.h:52-65 | `put(v)` then `get()` with no write between returns `v` |
| `MotorDriver.Clamp` | Code_we_wrote/motorDriver.cpp:63-67 | the signal is saturated to [-100, 100], unchanged inside, ±100 outside |
| `MotorDriver.Drive` | Code_we_wrote/motorDriver.cpp:61-78 | resulting duties: both in [0, 100], at most one nonzero, IN1 driven iff signal > 0, IN2 iff signal < 0, and `in1 - in2` is the clamped signal |
| `MotorDriver.Saturation` | Code_we_wrote/motorDriver.cpp:63-67 | any signal ≥ 100 acts as 100 (IN1 = 100, IN2 = 0), any ≤ -100 as -100, and 0 leaves both leads at 0 |
| `MotorDriver.DriveEncodesClamp` | Code_we_wrote/motorDriver.cpp:70-77 | two signals give equal duties iff they clamp to the same value |
| `MotorDriver.ActuationWrites` | Code_we_wrote/motorDriver.cpp:70-77 | two `set_duty_cycle` calls: the first zeroes one lead, the second drives the other lead (IN1 iff signal > 0) with a duty in [0, 100] |
| `MotorDriver.Apply` | Code_we_wrote/motorDriver.cpp:71-76 | one `set_duty_cycle` call: the written lead takes the new duty, the other lead keeps its own, and a write of 0 leaves at most one lead driven whatever the duties were |
| `MotorDriver.WritesKeepExclusive` | Code_we_wrote/motorDriver.cpp:70-77 | from any prior duties the two writes end at `Drive(s)`, and at most one lead is driven after each write, including between the two writes, whatever the duties were before |
| `MotorDriver.RepeatChangesNothing` | Code_we_wrote/motorDriver.cpp:61-78 | on a motor already at `Drive(s)`, neither write of `setActuation(s)` changes a duty (idempotence) |
| `MotorDriver.Motor.constructor` | Code_we_wrote/motorDriver.cpp:29-36 | the channel numbers are stored; no duty is written |
| `MotorDriver.Motor.SetDutyCycle` | Code_we_wrote/motorDriver.cpp:71-76 | one `set_duty_cycle` call sets that lead's duty and is logged |
| `MotorDriver.Motor.SetActuation` | Code_we_wrote/motorDriver.cpp:61-79 | afterwards the duties are `Drive(signal)` whatever they were before, and the log gains exactly the two ordered writes of `ActuationWrites` |
| `Controller.Accumulate` | balance/Balance.cpp:43-50 | the `int16_t` running total of `convert`: it starts at 0, and each `tot += data` leaves the previous total plus the slot with its fraction discarded toward zero |
| `Controller.Average` | balance/Balance.cpp:52-54 | the stored average is the 16-bit total divided by the fixed 5 with C division (lies in [-6553, 6553]) |
| `Controller.AccumulateNearSum` | balance/Balance.cpp:43-51 | after n truncating `int16_t` additions the total is within n of the exact sum |
| `Controller.AccumulateOfIntegers` | balance/Balance.cpp:43-51 | with whole-number slots the 16-bit total equals the exact sum |
| `Controller.ConstantPrefix` | balance/Balance.cpp:46-51 | with the same whole value v in every slot, the total after n additions is n·v |
| `Controller.AverageOfConstant` | balance/Balance.cpp:43-54 | five slots holding the same whole value v average to exactly v |
| `Controller.StartupTransient` | balance/Balance.cpp:46-54 | one reading v with four zero slots averages to v/5 (truncated): the divisor is 5 regardless of how many samples were written |
| `Controller.Integrate` | balance/Balance.cpp:91-97 | the integral update `esum += err·dt`: with a positive time step the sum grows exactly when the error is positive and is unchanged exactly when the error is zero |
| `Controller.PiSignal` | balance/Balance.cpp:93-99 | the PI output `err·kp + esum·ki`: with non-negative gains it is non-negative when error and integral are, and non-positive when both are non-positive |
| `Controller.IntegrateFirst` | balance/Balance.cpp:90-99 | the output is formed from the integral after this cycle's update (as `Balance.SignalX`/`SignalY` do): it exceeds the PI output on the previous integral by ki·e·dt, and at the setpoint it is the integral term alone |
| `Controller.ConstantErrorIntegral` | balance/Balance.cpp:90-97 | the integral is never reset or clamped: after n cycles with error e it is esum0 + n·e·dt |
| `Controller.ConstantErrorOutput` | balance/Balance.cpp:91-94 | with kp 0.15, ki 0.1, setpoint 0 and average -10, the k-th x output is 1.5 + 0.005·k; its `int16_t` value is 1 for k < 100 |
| `Controller.Balance.constructor` | balance/Balance.h:23-47 | gains, setpoints and integral sums start at their declared default 0 |
| `Controller.Balance.SetGains` | balance/Balance.cpp:26-30 | kp = 0.15 and ki = 0.1, and no other field changes |
| `Controller.Balance.Convert` | balance/Balance.cpp:41-55 | the loop adds slots 0..4 per axis into `int16_t` totals, truncating each time; only the three averages change, each becoming `Average` of its axis |
| `Controller.Balance.Control` | balance/Balance.cpp:88-101 | each integral gains (set − avg)·dt (0.005 for x, 0.01 for y) first; then the motor share gets trunc((set − avg)·kp + esum·ki) with the new integral; nothing else changes |
| `TaskImu.Calibrate` | Code_we_wrote/task_imu.cpp:50-51 | calibration (raw − offset)/scale with offsets {-500, 300, 50} and scales {16.425, 16.1, 16.15}; scaling back and adding the offset returns the raw value |
| `TaskImu.Calibrated` | Code_we_wrote/task_imu.cpp:48-51 | the written sample inverts per axis: scaling each component back and adding its offset recovers the three raw readings, which fixes the sample uniquely |
| `TaskImu.NextCursor` | Code_we_wrote/task_imu.cpp:53-57 | the cursor advance stays within 0..5 |
| `TaskImu.Store` | Code_we_wrote/task_imu.cpp:50 | only slot `dataIndex` is replaced; the write to index 5 changes none of the five slots |
| `TaskImu.Append` | Code_we_wrote/task_imu.cpp:47-59 | one cycle on buffer and cursor keeps the cursor within 0..5 |
| `TaskImu.AppendAll` | Code_we_wrote/task_imu.cpp:44-63 | consecutive cycles keep the cursor within 0..5 |
| `TaskImu.CursorPeriodSix` | Code_we_wrote/task_imu.cpp:38-57 | from cursor 0, after n cycles the cursor is n mod 6: it visits 0, 1, 2, 3, 4, 5, 0, … |
| `TaskImu.AsWrittenSlots` | Code_we_wrote/task_imu.cpp:44-59 | cycle t's sample sits in slot t mod 6 until overwritten, unless t mod 6 = 5 |
| `TaskImu.SixthSampleLost` | Code_we_wrote/task_imu.cpp:50-57 | seven cycles from cursor 0 leave [s7, s2, s3, s4, s5] with cursor 1: the sixth sample is lost |
| `TaskImu.NextCursorWrapped` | Code_we_wrote/task_imu.cpp:53-57 | the corrected advance keeps the cursor inside the five slots |
| `TaskImu.AppendWrapped` | Code_we_wrote/task_imu.cpp:47-59 | a corrected cycle keeps the cursor inside the five slots |
| `TaskImu.AppendAllWrapped` | Code_we_wrote/task_imu.cpp:44-63 | corrected cycles keep the cursor inside the five slots |
| `TaskImu.WrappedCursor` | Code_we_wrote/task_imu.cpp:53-57 | with the corrected advance, after n cycles the cursor is n mod 5 |
| `TaskImu.WrappedKeepsLatestFive` | Code_we_wrote/task_imu.cpp:47-59 | with the corrected advance, each of the last five samples sits in slot t mod 5 (circular overwrite, nothing lost) |
| `TaskImu.Accelerometer.GetOneAxis` | Code_we_wrote/task_imu.cpp:51 | `get_one_axis(i)` returns the current raw reading of axis i and is logged |
| `TaskImu.ImuTask.constructor` | Code_we_wrote/task_imu.cpp:20-38 | the share and sensor are stored and the cursor starts at 0 |
| `TaskImu.ImuTask.Step` | Code_we_wrote/task_imu.cpp:44-63 | one cycle: reads axes 0, 1, 2 in order; the share becomes `Append` of its old value at the old cursor (one slot replaced, none at cursor 5); returns which slot was written or that the write fell past the end; `runs` grows by one |
| `TaskController.ControllerTask.constructor` | Code_we_wrote/task_controller.cpp:33-38 | the controller and the accelerometer shares are stored; the task has not started |
| `TaskController.ControllerTask.Start` | Code_we_wrote/task_controller.cpp:48-51 | the pre-loop `get` and the single `set_gains` call: callable only before the first cycle, after which kp = 0.15 and ki = 0.1 hold for every cycle |
| `TaskController.ControllerTask.Cycle` | Code_we_wrote/task_controller.cpp:52-60 | one cycle: a `get` of accelerometer A, `convert`, then `control` with gains 0.15/0.1 and setpoints 0; accelerometer B's share is untouched; `runs` grows by one |
| `TaskMotor.MotorTask.constructor` | Code_we_wrote/task_motor.cpp:23-30 | motor driver and `motor_val` are stored |
| `TaskMotor.MotorTask.Cycle` | Code_we_wrote/task_motor.cpp:45-57 | one `setActuation` with motor A's share if `motor_val == 0`, else motor B's; the duties become `Drive` of that value (so an unchanged share leaves them unchanged); no share changes; `runs` grows by one |

## Left out

- Scheduling, timing and interleaving: `TaskBase`, `xTaskGetTickCount`, `delay_from_for_ms`, priorities. Each loop iteration is one atomic step. `runs` is assumed to start at 0.
- Share internals: a share is a plain cell, so mutual exclusion and copy semantics are not modelled.
- The accelerometer driver (`mma8452q`): raw readings are the current values of `TaskImu.Accelerometer.axes`, and the sensor's sentinel behaviour is not modelled.
- What the write to `accel_buffer[5]` overwrites. It lands outside the buffer (undefined behaviour). The model reports it as `PastEnd` and leaves the five slots unchanged.
- PWM peripheral programming (`hw_pwm`): each lead is a duty value.
- The hardware part of the `Motor` constructor (EN-pin GPIO and clock setup, lines 38-51). The constructor's `motorIn_2` typo (line 34) is not modelled; the model stores the channel numbers it is given.
- `Balance::set_setpoint`: it is never called, and it assigns fields the class does not declare. The unused gain `kg` is not modelled either.
- IEEE-754 rounding. Floats and the double constants 0.005 and 0.01 are exact reals, and 16.425 etc. are exact decimals.
- Process startup and wiring (`main.cpp`). Its `task_motor` constructions pass five arguments to a six-parameter constructor, so which share each motor task reads is not determined there. `TaskMotor.MotorTask` takes `motor_val` as a parameter.
- `TaskController.ControllerTask.Cycle`: does not state that accelerometer B's share is never *read*, only that it is left unchanged.

## Findings

| source | as written | input that shows it | evidently intended | confidence | as-written member | corrected member |
|---|---|---|---|---|---|---|
| Code_we_wrote/task_imu.cpp:53-57 | `dataIndex` is reset only when it exceeds 5, so the cursor reaches 5 and line 50 writes `accel_buffer[5]` of a 5-element array | the sixth cycle after start (cursor 5); with seven samples s1..s7 the buffer ends as [s7, s2, s3, s4, s5] and s6 is lost | wrap after slot 4, so each slot holds one of the last five samples | high (not executed) | `TaskImu.SixthSampleLost` | `TaskImu.WrappedKeepsLatestFive` |

The task model `TaskImu.ImuTask.Step` keeps the code's cursor (`TaskImu.Append`). It does not hide the out-of-bounds write. The controller's averaging does not depend on which cursor filled the buffer.
