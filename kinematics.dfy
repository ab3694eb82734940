/**
 * The conversions between the chuck's Cartesian displacement (metres) and the step counts of
 * its two coupled motors A and B. Single-precision floats are modelled as exact reals; the
 * assignment of a float to an int truncates toward zero, as in C++.
 */
module Kinematics {

  /** Steps per metre, written `1000*5` in the source. */
  const StepsPerMeter: int := 1000 * 5

  /** Metres per step of the combined motion, written `0.001*0.1` in the source: 1 / (2 * StepsPerMeter). */
  const MetersPerStep: real := 0.001 * 0.1

  /** The driver's velocity unit is steps per 10000 seconds. */
  const VelocityTimeBase: int := 10000

  const Int32Min: int := -0x8000_0000
  const Int32Max: int := 0x7fff_ffff

  predicate IsInt32(n: int)
  {
    Int32Min <= n <= Int32Max
  }

  function Abs(r: real): real
  {
    if r < 0.0 then -r else r
  }

  /** The float-to-int conversion of C++: drop the fractional part, rounding toward zero. */
  function TruncToZero(r: real): (t: int)
    ensures 0.0 <= r ==> t as real <= r < t as real + 1.0
    ensures r < 0.0 ==> t as real - 1.0 < r <= t as real
  {
    if r < 0.0 then -((-r).Floor) else r.Floor
  }

  /** The exact (untruncated) step counts for a displacement (x, y). */
  function ExactStepsA(x: real, y: real): real
  {
    -(StepsPerMeter as real) * (x + y)
  }

  function ExactStepsB(x: real, y: real): real
  {
    (StepsPerMeter as real) * (x - y)
  }

  /**
   * from_lin_to_steps: each motor's step count is its exact count truncated toward zero, so it
   * lies less than one step from the exact value and never beyond it.
   */
  function LinToSteps(x: real, y: real): (s: (int, int))
    ensures Abs(s.0 as real - ExactStepsA(x, y)) < 1.0 && Abs(s.0 as real) <= Abs(ExactStepsA(x, y))
    ensures Abs(s.1 as real - ExactStepsB(x, y)) < 1.0 && Abs(s.1 as real) <= Abs(ExactStepsB(x, y))
  {
    (TruncToZero(ExactStepsA(x, y)), TruncToZero(ExactStepsB(x, y)))
  }

  /**
   * from_steps_to_lin: the position (x, y) whose exact step counts are the given ones, i.e. the
   * algebraic inverse of the step conversion.
   */
  function StepsToLin(stepsA: int, stepsB: int): (p: (real, real))
    ensures ExactStepsA(p.0, p.1) == stepsA as real
    ensures ExactStepsB(p.0, p.1) == stepsB as real
  {
    (MetersPerStep * (-stepsA + stepsB) as real, 0.001 * -0.1 * (stepsA + stepsB) as real)
  }

  /** The velocity commands of motorSetSpeed: the step conversion of (vx, vy), times the time base. */
  function VelocityCommand(vx: real, vy: real): (c: (int, int))
    ensures c.0 % VelocityTimeBase == 0 && c.1 % VelocityTimeBase == 0
    ensures Abs(c.0 as real - (VelocityTimeBase as real) * ExactStepsA(vx, vy)) < VelocityTimeBase as real
    ensures Abs(c.1 as real - (VelocityTimeBase as real) * ExactStepsB(vx, vy)) < VelocityTimeBase as real
    ensures Abs(c.0 as real) <= (VelocityTimeBase as real) * Abs(ExactStepsA(vx, vy))
    ensures Abs(c.1 as real) <= (VelocityTimeBase as real) * Abs(ExactStepsB(vx, vy))
  {
    var s := LinToSteps(vx, vy);
    (VelocityTimeBase * s.0, VelocityTimeBase * s.1)
  }

  /** Truncation of a whole number changes nothing. */
  lemma TruncOfInteger(n: int)
    ensures TruncToZero(n as real) == n
  {
  }

  /** Truncation toward zero is an odd function. */
  lemma TruncNegate(r: real)
    ensures TruncToZero(-r) == -TruncToZero(r)
  {
  }

  /** Steps to metres and back gives the original step pair exactly. */
  lemma StepsRoundTrip(stepsA: int, stepsB: int)
    ensures var p := StepsToLin(stepsA, stepsB); LinToSteps(p.0, p.1) == (stepsA, stepsB)
  {
    TruncOfInteger(stepsA);
    TruncOfInteger(stepsB);
  }

  /** Metres to steps and back is off by less than one step length, 1 / StepsPerMeter, per axis. */
  lemma LinRoundTripError(x: real, y: real)
    ensures var p := var s := LinToSteps(x, y); StepsToLin(s.0, s.1);
            Abs(p.0 - x) < 1.0 / StepsPerMeter as real && Abs(p.1 - y) < 1.0 / StepsPerMeter as real
  {
    var s := LinToSteps(x, y);
    var p := StepsToLin(s.0, s.1);
    var ea := s.0 as real - ExactStepsA(x, y);
    var eb := s.1 as real - ExactStepsB(x, y);
    assert p.0 - x == MetersPerStep * (eb - ea);
    assert p.1 - y == -MetersPerStep * (ea + eb);
  }

  /** No displacement needs no steps. */
  lemma LinToStepsZero()
    ensures LinToSteps(0.0, 0.0) == (0, 0)
  {
  }

  /** Reversing the displacement reverses both step counts. */
  lemma LinToStepsNegate(x: real, y: real)
    ensures LinToSteps(-x, -y) == (-LinToSteps(x, y).0, -LinToSteps(x, y).1)
  {
    TruncNegate(ExactStepsA(x, y));
    TruncNegate(ExactStepsB(x, y));
  }

  /** Reversing the velocity reverses both velocity commands. */
  lemma VelocityNegate(vx: real, vy: real)
    ensures VelocityCommand(-vx, -vy) == (-VelocityCommand(vx, vy).0, -VelocityCommand(vx, vy).1)
  {
    LinToStepsNegate(vx, vy);
  }

  /** Below 42 m/s of combined speed both velocity commands fit the driver's signed 32-bit range. */
  lemma VelocityFitsInt32(vx: real, vy: real)
    requires Abs(vx) + Abs(vy) <= 42.0
    ensures IsInt32(VelocityCommand(vx, vy).0) && IsInt32(VelocityCommand(vx, vy).1)
  {
    var s := LinToSteps(vx, vy);
    assert -210000 <= s.0 <= 210000;
    assert -210000 <= s.1 <= 210000;
  }

  /** The velocity (-0.1, 0.1) m/s commands 0 on motor A and -1000 steps/s on motor B. */
  lemma VelocityExample()
    ensures VelocityCommand(-0.1, 0.1) == (0, -10000000)
  {
  }
}
