/**
 * An abstract view of the Pololu Tic motor controller library. A discovered device is its
 * serial number plus an identity; a handle is the record of what the controller holds:
 * the reported step counter, the target position, the target velocity and the power state.
 * Each driver call used by the chuck becomes a function from the old record to the new one.
 * Opening a handle does not change the controller: a new handle shows whatever state the
 * controller already holds.
 */
module Tic {

  datatype Device = Device(serialNumber: string, id: nat)

  datatype Handle = Handle(
    device: Device,
    initialised: bool,       // the motor settings have been applied
    energized: bool,
    safeStartExited: bool,
    currentPosition: int,    // the step counter the controller reports
    targetPosition: int,
    targetVelocity: int      // steps per 10000 seconds
  )

  /** Applying the motor settings, which begins by de-energising the motor. */
  function Initialise(h: Handle): Handle
  {
    h.(initialised := true, energized := false)
  }

  function ExitSafeStart(h: Handle): Handle
  {
    h.(safeStartExited := true)
  }

  function Energize(h: Handle): Handle
  {
    h.(energized := true)
  }

  /** Stops the motor at once and redefines its current step counter as `steps`. */
  function HaltAndSetPosition(h: Handle, steps: int): Handle
  {
    h.(currentPosition := steps, targetPosition := steps, targetVelocity := 0)
  }

  /** The target is an absolute step count, not a displacement. */
  function SetTargetPosition(h: Handle, steps: int): Handle
  {
    h.(targetPosition := steps)
  }

  function SetTargetVelocity(h: Handle, stepsPer10000s: int): Handle
  {
    h.(targetVelocity := stepsPer10000s)
  }
}
