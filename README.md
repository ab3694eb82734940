# Chuck motor controller — a verified Dafny model

This project models the `Chuck` class of `motor.cpp`, the controller of a two-axis stage
(the chuck). Two coupled stepper motors drive the stage, each through a Pololu Tic controller.
The model covers three parts:

- **Role resolution.** The constructor takes the list of discovered Tic devices. It binds them
  to the roles motor A (serial `00195103`) and motor B (serial `00195303`) by serial number, in
  either discovery order. It sets the error flag unless exactly those two devices are present.
  Handles are opened and initialised only when resolution succeeds.
- **Kinematics.** `from_lin_to_steps` and `from_steps_to_lin` convert between a displacement in
  metres and the step counts of motors A and B. The scale is 5000 steps per metre: motor A gets
  -5000·(x+y) and motor B gets 5000·(x−y). Assigning a float to an int truncates toward zero.
- **Cached position.** `start` zeroes both step counters and the cache. `update_position`
  refreshes the cache from the reported counters. `motorGetPosition` returns the refreshed cache.
  `motorSetPosition` issues step targets, and `motorSetSpeed` issues velocity targets scaled by
  the driver's time base of 10000.

Modules:

- `Kinematics` (kinematics.dfy) holds the pure conversions.
- `Resolution` (resolution.dfy) holds the resolver's decision as a function, plus the counting loop.
- `Motor` (motor.dfy) holds the serial constants and the `Chuck` class. The class fields are
  those of `motor.h:15-24`.
- `Tic` (tic.dfy) is the abstract driver. A device is a serial number plus an id. A handle is a
  record of the reported step counter, the target position, the target velocity, the energised
  flag, the safe-start state and an "initialised" flag. Each driver call becomes a function on
  that record. Opening a handle yields the state the controller already holds.
- `Estimator` (estimator.dfy) holds the `ChuckState` record of `estimator.h`.
- `Wrappers` (wrappers.dfy) holds `Option`.

The device enumeration of the Tic library becomes a parameter of the constructor. So does the
state each discovered controller already holds, given in the same order as the devices.

`Motor.ChuckScenario` is a usage check of the contracts, not a model of any source function. It
binds two controllers discovered in the order (B, A), starts the chuck, reads the position and
sets a speed.

## Notes on the source

- Motor A's step count is -5000·(x+y) (motor.cpp:195), and motor B's is 5000·(x−y) (motor.cpp:196).
- `start` sets both step counters to 0 with halt-and-set-position (motor.cpp:113, 116).
- One `error_flag` covers both a wrong device count and a wrong serial (motor.cpp:42, 69).
- `motorSetPosition` converts the displacement to the destination into steps, not the destination
  itself (motor.cpp:162-165). See Findings.
- A failed resolution may still bind one role. For example, if the first device has serial A
  and the second an unknown serial, `motor_a` is set and the error flag stays true (motor.cpp:48-50).
- Opening a handle (motor.cpp:77-78) does not reset the controller. Until `start`, the step
  counter, targets and safe-start state are whatever the controller already held. The model
  takes that state as a constructor input.

## Model

| member | source | states |
|---|---|---|
| Kinematics.TruncToZero | motor.cpp:195-196 | the int is the real with its fractional part dropped toward zero: below the real by less than 1 when the real is non-negative, above it by less than 1 when it is negative |
| Kinematics.LinToSteps | motor.cpp:193-197 | each step count is less than one step from its exact value -5000·(x+y) or 5000·(x−y), and never larger in magnitude |
| Kinematics.StepsToLin | motor.cpp:186-190 | the position returned is the exact inverse of the step conversion: its exact step counts are the given ones |
| Kinematics.VelocityCommand | motor.cpp:176-179 | both velocity commands are multiples of 10000 that lie within 10000 of 10000 times the exact step rate and never exceed it in magnitude |
| Kinematics.TruncOfInteger | motor.cpp:195-196 | truncating a whole number gives that number |
| Kinematics.TruncNegate | motor.cpp:195-196 | truncation toward zero commutes with negation |
| Kinematics.StepsRoundTrip | motor.cpp:186-197 | steps to metres and back to steps returns the original pair exactly |
| Kinematics.LinRoundTripError | motor.cpp:186-197 | metres to steps and back differs from the input by less than 1/5000 m on each axis |
| Kinematics.LinToStepsZero | motor.cpp:193-197 | a zero displacement converts to zero steps on both motors |
| Kinematics.LinToStepsNegate | motor.cpp:193-197 | negating the displacement negates both step counts |
| Kinematics.VelocityNegate | motor.cpp:171-183 | negating the velocity negates both velocity commands |
| Kinematics.VelocityFitsInt32 | motor.cpp:178-179 | when \|vx\|+\|vy\| ≤ 42 m/s, both commands fit in a signed 32-bit int |
| Kinematics.VelocityExample | motor.cpp:171-183 | the velocity (-0.1, 0.1) gives the commands (0, -10000000) |
| Resolution.CountDevices | motor.cpp:34-37 | the counting loop yields the length of the device list |
| Resolution.Resolve | motor.cpp:40-71 | resolution succeeds iff there are exactly two devices with serials (A,B) or (B,A); on success the two listed devices fill one role each; any device bound to a role, even on failure, is a listed device with that role's serial |
| Resolution.WrongCountFails | motor.cpp:67-71 | a device count other than two sets the error flag and binds nothing |
| Resolution.DuplicateSerialFails | motor.cpp:48-65 | two devices with the same serial fail when the expected serials differ |
| Resolution.UnknownSerialFails | motor.cpp:48-65 | a device with neither expected serial makes resolution fail |
| Resolution.ResolveOrderIndependent | motor.cpp:48-65 | swapping the two devices gives the same error flag and, on success, the same binding |
| Resolution.ResolvedRolesBySerial | motor.cpp:48-65 | on success, each role holds exactly the listed device with that role's serial |
| Resolution.ResolveExample | motor.cpp:23-66 | the list ["00195303", "00195103"] binds index 1 to motor A and index 0 to motor B |
| Motor.RelativeTargets | motor.cpp:159-165 | motorSetPosition's targets equal the destination's exact absolute step counts minus the current counters, truncated toward zero |
| Motor.RelativeTargetsAtDestination | motor.cpp:159-165 | when the destination is the refreshed position, both targets are 0 |
| Motor.RelativeTargetsFromOrigin | motor.cpp:154-169 | when both counters are 0, the relative targets equal the absolute conversion of the destination |
| Motor.RelativeTargetsMisplaceStage | motor.cpp:165-168 | away from the origin, asking to hold the current position issues targets that differ from the current counters |
| Motor.RelativeTargetsExample | motor.cpp:154-169 | at counters (-5000, 5000), i.e. (1 m, 0 m), holding that position issues targets (0, 0), which is the origin |
| Motor.Chuck.constructor | motor.cpp:27-82 | the error flag is set iff the list is not exactly the two expected serials in some order; on success motor A and motor B have serials A and B, and each role's handle is the state its controller already held, initialised and de-energised; on failure no handle is opened |
| Motor.Chuck.DeviceError | motor.cpp:123-126 | device_error is true iff the discovered devices do not resolve to both roles |
| Motor.Chuck.Start | motor.cpp:109-120 | both motors are energised, out of safe start, halted with counter 0; the cache is (0, 0) and consistent with the counters; nothing else changes |
| Motor.Chuck.UpdatePosition | motor.cpp:128-145 | the cache becomes the metre conversion of the reported counters; only the cache changes |
| Motor.Chuck.MotorGetPosition | motor.cpp:147-152 | returns the refreshed cache, which is the metre conversion of the reported counters |
| Motor.Chuck.MotorSetPosition | motor.cpp:154-169 | refreshes the cache, then sets only the target positions, to the relative targets for the destination; if the destination is the refreshed position, both targets are 0; posChuck is unused |
| Motor.Chuck.MotorSetPositionAbsolute | motor.cpp:154-169 | corrected version: the targets are the absolute conversion of the destination; holding the current position keeps the counters as targets; the commanded position is within 1/5000 m of the destination |
| Motor.Chuck.MotorSetSpeed | motor.cpp:171-183 | only the target velocities change, to 10000 times the step conversion of (vx, vy) |

## Left out

- Motor settings in `initialize` (motor.cpp:85-106) are foreign calls into the Tic library. This
  covers the current limit, step mode, maximum speed, acceleration, deceleration, decay mode,
  clearing the driver error, disabling the command timeout and `reinitialize`. The model keeps
  only the initial de-energising and an "initialised" flag on the handle.
- The internals of the Tic library are modelled as record updates. This covers
  `list_connected_devices`, `tic::handle` and `get_variables`. Only the effect the chuck relies
  on is kept.
- The hardware's progress toward its targets is not modelled. The reported step counter changes
  only through halt-and-set-position. Motion happens outside the program.
- Calling a motion operation on a chuck whose resolution failed uses null Tic handles, and the
  library raises an error. The motion methods therefore require resolution to have succeeded.
- Float rounding is not modelled. Single-precision values are exact reals. This includes the
  double-to-float narrowing in `from_steps_to_lin` (motor.cpp:188-189) and the float-to-uint32
  casts of the acceleration settings (motor.cpp:92-93).
- Overflow of the 32-bit int results is not modelled. The integers are unbounded. This covers
  `speed*10000` (motor.cpp:178-179) and out-of-range float-to-int conversions, which are
  undefined in C++. `Kinematics.VelocityFitsInt32` gives a speed bound under which the velocity
  commands fit.
- The cached position is uninitialised in C++ until `start`. The model's constructor sets it to
  (0, 0).
- Console output of the device count (motor.cpp:70) and `main` (motor.cpp:199-204) are I/O and a
  demo entry point.
- transformation.h holds only camera and table geometry constants, which `motor.cpp` does not use.
- The two constructors of `chuckState` in estimator.h are not modelled. `ChuckState` is only the
  type of `motorSetPosition`'s unused parameter.
- Boundary monitoring, background polling and a liveness flag do not exist in `motor.cpp`.
  Concurrency is not modelled.

## Findings

| source | as written | input that shows it | evidently intended | confidence | as-written member | corrected member |
|---|---|---|---|---|---|---|
| motor.cpp:162-168 | the displacement to the destination, in steps, is passed to `set_target_position`, whose target is an absolute step count | counters (-5000, 5000), i.e. the chuck at (1 m, 0 m), with destination (1 m, 0 m): the targets are (0, 0), which drives the chuck to the origin | convert the destination itself into absolute step targets | medium, not executed | Motor.Chuck.MotorSetPosition (shown by Motor.RelativeTargetsMisplaceStage and Motor.RelativeTargetsExample) | Motor.Chuck.MotorSetPositionAbsolute (proved through Kinematics.StepsRoundTrip and Kinematics.LinRoundTripError) |
