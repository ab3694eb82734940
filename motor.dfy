/**
 * The chuck controller of motor.cpp: it binds the two discovered Tic controllers to the roles
 * motor A and motor B, caches the chuck's position in metres, and turns position and speed
 * requests into step targets for the two motors.
 */
module Motor {
  import opened Wrappers
  import opened Estimator
  import opened Tic
  import opened Kinematics
  import opened Resolution

  /** The expected serial numbers of the controllers in the two roles. */
  const MotorASerial: string := "00195103"
  const MotorBSerial: string := "00195303"

  /**
   * The step targets motorSetPosition computes for a destination, given the motors' reported
   * counters: the conversion of the displacement from the refreshed position. They are the exact
   * absolute targets of the destination minus the current counters, truncated toward zero.
   */
  function RelativeTargets(destX: real, destY: real, stepsA: int, stepsB: int): (t: (int, int))
    ensures t.0 == TruncToZero(ExactStepsA(destX, destY) - stepsA as real)
    ensures t.1 == TruncToZero(ExactStepsB(destX, destY) - stepsB as real)
  {
    var p := StepsToLin(stepsA, stepsB);
    assert ExactStepsA(destX - p.0, destY - p.1) == ExactStepsA(destX, destY) - stepsA as real;
    assert ExactStepsB(destX - p.0, destY - p.1) == ExactStepsB(destX, destY) - stepsB as real;
    LinToSteps(destX - p.0, destY - p.1)
  }

  /** Asking for the position the chuck is already at yields zero targets on both motors. */
  lemma RelativeTargetsAtDestination(stepsA: int, stepsB: int)
    ensures var p := StepsToLin(stepsA, stepsB); RelativeTargets(p.0, p.1, stepsA, stepsB) == (0, 0)
  {
  }

  /** From the origin established by start, the relative targets are the absolute ones. */
  lemma RelativeTargetsFromOrigin(destX: real, destY: real)
    ensures RelativeTargets(destX, destY, 0, 0) == LinToSteps(destX, destY)
  {
  }

  /**
   * The Tic target position is absolute, so away from the origin the relative targets do not
   * hold the chuck where it is: asked to stay put, the motors are sent back to step 0.
   */
  lemma RelativeTargetsMisplaceStage(stepsA: int, stepsB: int)
    requires (stepsA, stepsB) != (0, 0)
    ensures var p := StepsToLin(stepsA, stepsB); RelativeTargets(p.0, p.1, stepsA, stepsB) != (stepsA, stepsB)
  {
  }

  /** A concrete case: at counters (-5000, 5000), i.e. (1 m, 0 m), holding that position commands (0, 0). */
  lemma RelativeTargetsExample()
    ensures StepsToLin(-5000, 5000) == (1.0, 0.0)
    ensures RelativeTargets(1.0, 0.0, -5000, 5000) == (0, 0)
    ensures StepsToLin(0, 0) == (0.0, 0.0)
  {
  }

  class Chuck {
    var xPosition: real
    var yPosition: real
    var errorFlag: bool

    var devicesList: seq<Device>
    var motorA: Option<Device>
    var motorB: Option<Device>

    var motorAHandle: Option<Handle>
    var motorBHandle: Option<Handle>

    /** The error flag and the role bindings are those the discovered devices resolve to. */
    ghost predicate Resolved()
      reads this
    {
      var r := Resolve(devicesList, MotorASerial, MotorBSerial);
      errorFlag == r.errorFlag && motorA == r.motorA && motorB == r.motorB
    }

    /** Handles exist, each on its role's device and initialised, exactly when resolution succeeded. */
    ghost predicate Valid()
      reads this
    {
      Resolved() &&
      (errorFlag ==> motorAHandle.None? && motorBHandle.None?) &&
      (!errorFlag ==>
        motorA.Some? && motorB.Some? && motorAHandle.Some? && motorBHandle.Some? &&
        motorAHandle.value.device == motorA.value && motorBHandle.value.device == motorB.value &&
        motorAHandle.value.initialised && motorBHandle.value.initialised)
    }

    /** Both roles are bound and their handles open. */
    ghost predicate Ready()
      reads this
    {
      Valid() && !errorFlag
    }

    /** The cached position is the conversion of the motors' reported step counters. */
    ghost predicate CacheFresh()
      reads this
      requires Ready()
    {
      (xPosition, yPosition) == StepsToLin(motorAHandle.value.currentPosition, motorBHandle.value.currentPosition)
    }

    /**
     * The constructor, given the devices the Tic library reports as connected and, for each,
     * the state its controller already holds. Opening a handle does not change that state.
     */
    constructor (devices: seq<Device>, held: seq<Handle>)
      requires |held| == |devices|
      requires forall i :: 0 <= i < |devices| ==> held[i].device == devices[i]
      ensures Valid()
      ensures devicesList == devices
      ensures errorFlag <==> !RolesMatch(devices, MotorASerial, MotorBSerial)
      ensures !errorFlag ==>
        motorA.value.serialNumber == MotorASerial && motorB.value.serialNumber == MotorBSerial
      ensures !errorFlag && devices[0].serialNumber == MotorASerial ==>
        motorAHandle == Some(Initialise(held[0])) && motorBHandle == Some(Initialise(held[1]))
      ensures !errorFlag && devices[0].serialNumber == MotorBSerial ==>
        motorAHandle == Some(Initialise(held[1])) && motorBHandle == Some(Initialise(held[0]))
      ensures errorFlag ==> motorAHandle == None && motorBHandle == None
      ensures xPosition == 0.0 && yPosition == 0.0
    {
      devicesList := devices;
      var deviceCount := CountDevices(devices);
      motorA, motorB := None, None;
      // The list positions the roles are bound to, used to open each role's controller.
      var indexA, indexB := 0, 0;

      if deviceCount == 2 {
        errorFlag := true;
        var firstDevice := devices[0];
        var secondDevice := devices[1];
        if firstDevice.serialNumber == MotorASerial {
          motorA, indexA := Some(firstDevice), 0;
          if secondDevice.serialNumber == MotorBSerial {
            motorB, indexB := Some(secondDevice), 1;
            errorFlag := false;
          }
        } else if firstDevice.serialNumber == MotorBSerial {
          motorB, indexB := Some(firstDevice), 0;
          if secondDevice.serialNumber == MotorASerial {
            motorA, indexA := Some(secondDevice), 1;
            errorFlag := false;
          }
        }
      } else {
        errorFlag := true;
      }

      xPosition, yPosition := 0.0, 0.0;
      motorAHandle, motorBHandle := None, None;
      new;

      if !DeviceError() {
        motorAHandle := Some(Initialise(held[indexA]));
        motorBHandle := Some(Initialise(held[indexB]));
      }
    }

    /** device_error: true exactly when the discovered devices did not resolve to both roles. */
    function DeviceError(): (e: bool)
      reads this
      requires Resolved()
      ensures e <==> !RolesMatch(devicesList, MotorASerial, MotorBSerial)
      ensures !e ==> motorA.Some? && motorB.Some?
    {
      errorFlag
    }

    /** start: power both motors and redefine their step counters, and the cached position, as zero. */
    method Start()
      requires Ready()
      modifies this`motorAHandle, this`motorBHandle, this`xPosition, this`yPosition
      ensures Ready() && CacheFresh()
      ensures motorAHandle == Some(old(motorAHandle.value).(
        safeStartExited := true, energized := true, currentPosition := 0, targetPosition := 0, targetVelocity := 0))
      ensures motorBHandle == Some(old(motorBHandle.value).(
        safeStartExited := true, energized := true, currentPosition := 0, targetPosition := 0, targetVelocity := 0))
      ensures xPosition == 0.0 && yPosition == 0.0
    {
      var a := motorAHandle.value;
      a := ExitSafeStart(a);
      a := Energize(a);
      a := HaltAndSetPosition(a, 0);
      motorAHandle := Some(a);

      var b := motorBHandle.value;
      b := ExitSafeStart(b);
      b := Energize(b);
      b := HaltAndSetPosition(b, 0);
      motorBHandle := Some(b);

      xPosition := 0.0;
      yPosition := 0.0;
    }

    /** update_position: overwrite the cached position from the reported step counters. */
    method UpdatePosition()
      requires Ready()
      modifies this`xPosition, this`yPosition
      ensures Ready() && CacheFresh()
    {
      var aPosition := motorAHandle.value.currentPosition;
      var bPosition := motorBHandle.value.currentPosition;
      var newPosition := StepsToLin(aPosition, bPosition);
      xPosition := newPosition.0;
      yPosition := newPosition.1;
    }

    /** motorGetPosition: refresh the cache and return it. */
    method MotorGetPosition() returns (posX: real, posY: real)
      requires Ready()
      modifies this`xPosition, this`yPosition
      ensures Ready() && CacheFresh()
      ensures posX == xPosition && posY == yPosition
      ensures (posX, posY) == StepsToLin(motorAHandle.value.currentPosition, motorBHandle.value.currentPosition)
    {
      UpdatePosition();
      posX := xPosition;
      posY := yPosition;
    }

    /**
     * motorSetPosition as written: refresh the cache, convert the displacement to the destination
     * into steps and issue those as the motors' target positions. `posChuck` is not used.
     */
    method MotorSetPosition(destX: real, destY: real, posChuck: ChuckState)
      requires Ready()
      modifies this`motorAHandle, this`motorBHandle, this`xPosition, this`yPosition
      ensures Ready() && CacheFresh()
      ensures (xPosition, yPosition) == StepsToLin(old(motorAHandle.value.currentPosition), old(motorBHandle.value.currentPosition))
      ensures var t := RelativeTargets(destX, destY, old(motorAHandle.value.currentPosition), old(motorBHandle.value.currentPosition));
              motorAHandle == Some(old(motorAHandle.value).(targetPosition := t.0)) &&
              motorBHandle == Some(old(motorBHandle.value).(targetPosition := t.1))
      ensures destX == xPosition && destY == yPosition ==>
              motorAHandle.value.targetPosition == 0 && motorBHandle.value.targetPosition == 0
    {
      UpdatePosition();

      var deltaX := destX - xPosition;
      var deltaY := destY - yPosition;
      var steps := LinToSteps(deltaX, deltaY);

      motorAHandle := Some(SetTargetPosition(motorAHandle.value, steps.0));
      motorBHandle := Some(SetTargetPosition(motorBHandle.value, steps.1));

      if destX == xPosition && destY == yPosition {
        RelativeTargetsAtDestination(motorAHandle.value.currentPosition, motorBHandle.value.currentPosition);
      }
    }

    /**
     * motorSetPosition with the destination converted as an absolute target, which is what the
     * Tic target position means: holding the current position keeps the counters, and the
     * commanded position is within one step length of the destination.
     */
    method MotorSetPositionAbsolute(destX: real, destY: real, posChuck: ChuckState)
      requires Ready()
      modifies this`motorAHandle, this`motorBHandle, this`xPosition, this`yPosition
      ensures Ready() && CacheFresh()
      ensures (xPosition, yPosition) == StepsToLin(old(motorAHandle.value.currentPosition), old(motorBHandle.value.currentPosition))
      ensures var t := LinToSteps(destX, destY);
              motorAHandle == Some(old(motorAHandle.value).(targetPosition := t.0)) &&
              motorBHandle == Some(old(motorBHandle.value).(targetPosition := t.1))
      ensures destX == xPosition && destY == yPosition ==>
              motorAHandle.value.targetPosition == motorAHandle.value.currentPosition &&
              motorBHandle.value.targetPosition == motorBHandle.value.currentPosition
      ensures var q := StepsToLin(motorAHandle.value.targetPosition, motorBHandle.value.targetPosition);
              Abs(q.0 - destX) < 1.0 / StepsPerMeter as real && Abs(q.1 - destY) < 1.0 / StepsPerMeter as real
    {
      UpdatePosition();

      var steps := LinToSteps(destX, destY);

      motorAHandle := Some(SetTargetPosition(motorAHandle.value, steps.0));
      motorBHandle := Some(SetTargetPosition(motorBHandle.value, steps.1));

      StepsRoundTrip(motorAHandle.value.currentPosition, motorBHandle.value.currentPosition);
      LinRoundTripError(destX, destY);
    }

    /** motorSetSpeed: convert the velocity to steps, scale by the time base, and issue target velocities. */
    method MotorSetSpeed(vx: real, vy: real)
      requires Ready()
      modifies this`motorAHandle, this`motorBHandle
      ensures Ready()
      ensures motorAHandle == Some(old(motorAHandle.value).(targetVelocity := VelocityCommand(vx, vy).0))
      ensures motorBHandle == Some(old(motorBHandle.value).(targetVelocity := VelocityCommand(vx, vy).1))
    {
      var speeds := LinToSteps(vx, vy);
      var speedA := speeds.0 * VelocityTimeBase;
      var speedB := speeds.1 * VelocityTimeBase;

      motorAHandle := Some(SetTargetVelocity(motorAHandle.value, speedA));
      motorBHandle := Some(SetTargetVelocity(motorBHandle.value, speedB));
    }
  }

  /**
   * A usage check of the contracts, not a model of any source function: the two controllers
   * discovered in the order (B, A) are bound by serial and opened in the state they hold; after
   * start the chuck is at the origin, and a speed request issues the expected velocity commands.
   */
  method ChuckScenario(idB: nat, idA: nat)
  {
    var devices := [Device("00195303", idB), Device("00195103", idA)];
    var held := [Handle(devices[0], false, true, false, 17, 40, 0), Handle(devices[1], false, false, true, -3, 0, 5)];
    var chuck := new Chuck(devices, held);
    assert chuck.motorAHandle.value.currentPosition == -3 && !chuck.motorBHandle.value.energized;
    assert !chuck.DeviceError();
    ResolveExample(idB, idA);
    assert chuck.motorA == Some(devices[1]) && chuck.motorB == Some(devices[0]);

    chuck.Start();
    var x, y := chuck.MotorGetPosition();
    assert x == 0.0 && y == 0.0;

    chuck.MotorSetSpeed(-0.1, 0.1);
    VelocityExample();
    assert chuck.motorAHandle.value.targetVelocity == 0;
    assert chuck.motorBHandle.value.targetVelocity == -10000000;
  }
}
