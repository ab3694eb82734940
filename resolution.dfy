/**
 * Binding the discovered motor controllers to the roles motor A and motor B by serial number,
 * as the Chuck constructor does. Discovery order is not stable, so either order must work.
 */
module Resolution {
  import opened Wrappers
  import opened Tic

  /** What the constructor leaves behind: the error flag and whatever it bound to each role. */
  datatype Resolution = Resolution(errorFlag: bool, motorA: Option<Device>, motorB: Option<Device>)

  /** Exactly two devices whose serials are the expected pair, in either order. */
  predicate RolesMatch(devices: seq<Device>, serialA: string, serialB: string)
  {
    |devices| == 2 &&
    ((devices[0].serialNumber == serialA && devices[1].serialNumber == serialB) ||
     (devices[0].serialNumber == serialB && devices[1].serialNumber == serialA))
  }

  /** The count of discovered devices, taken with the constructor's counting loop. */
  method CountDevices(devices: seq<Device>) returns (count: int)
    ensures count == |devices|
  {
    count := 0;
    for i := 0 to |devices|
      invariant count == i
    {
      count := count + 1;
    }
  }

  /**
   * The branches of the constructor. Resolution succeeds exactly when the roles match, and then
   * the two listed devices are bound one to each role. Whatever is bound to a role, even on
   * failure, is a listed device with that role's serial.
   */
  function Resolve(devices: seq<Device>, serialA: string, serialB: string): (r: Resolution)
    ensures !r.errorFlag <==> RolesMatch(devices, serialA, serialB)
    ensures !r.errorFlag ==>
      |devices| == 2 && r.motorA.Some? && r.motorB.Some? &&
      ((r.motorA.value == devices[0] && r.motorB.value == devices[1]) ||
       (r.motorA.value == devices[1] && r.motorB.value == devices[0]))
    ensures r.motorA.Some? ==> r.motorA.value in devices && r.motorA.value.serialNumber == serialA
    ensures r.motorB.Some? ==> r.motorB.value in devices && r.motorB.value.serialNumber == serialB
  {
    if |devices| == 2 then
      var first, second := devices[0], devices[1];
      if first.serialNumber == serialA then
        if second.serialNumber == serialB then Resolution(false, Some(first), Some(second))
        else Resolution(true, Some(first), None)
      else if first.serialNumber == serialB then
        if second.serialNumber == serialA then Resolution(false, Some(second), Some(first))
        else Resolution(true, None, Some(first))
      else
        Resolution(true, None, None)
    else
      Resolution(true, None, None)
  }

  /** Any device count other than two fails and binds nothing. */
  lemma WrongCountFails(devices: seq<Device>, serialA: string, serialB: string)
    requires |devices| != 2
    ensures Resolve(devices, serialA, serialB) == Resolution(true, None, None)
  {
  }

  /** Two devices with the same serial cannot fill two distinct roles. */
  lemma DuplicateSerialFails(devices: seq<Device>, serialA: string, serialB: string)
    requires serialA != serialB
    requires |devices| == 2 && devices[0].serialNumber == devices[1].serialNumber
    ensures Resolve(devices, serialA, serialB).errorFlag
  {
  }

  /** A device whose serial is neither expected one makes resolution fail. */
  lemma UnknownSerialFails(devices: seq<Device>, serialA: string, serialB: string, k: nat)
    requires k < |devices|
    requires devices[k].serialNumber != serialA && devices[k].serialNumber != serialB
    ensures Resolve(devices, serialA, serialB).errorFlag
  {
  }

  /** The outcome does not depend on the discovery order of the two devices. */
  lemma ResolveOrderIndependent(d0: Device, d1: Device, serialA: string, serialB: string)
    requires serialA != serialB
    ensures Resolve([d0, d1], serialA, serialB).errorFlag == Resolve([d1, d0], serialA, serialB).errorFlag
    ensures !Resolve([d0, d1], serialA, serialB).errorFlag ==>
      Resolve([d0, d1], serialA, serialB) == Resolve([d1, d0], serialA, serialB)
  {
  }

  /** On success each role holds the listed device with that role's serial. */
  lemma ResolvedRolesBySerial(devices: seq<Device>, serialA: string, serialB: string, k: nat)
    requires serialA != serialB
    requires k < |devices|
    requires RolesMatch(devices, serialA, serialB)
    ensures devices[k].serialNumber == serialA ==> Resolve(devices, serialA, serialB).motorA == Some(devices[k])
    ensures devices[k].serialNumber == serialB ==> Resolve(devices, serialA, serialB).motorB == Some(devices[k])
  {
  }

  /** With A = "00195103" and B = "00195303", the list [B-device, A-device] binds index 1 to A and 0 to B. */
  lemma ResolveExample(h0: nat, h1: nat)
    ensures var devices := [Device("00195303", h0), Device("00195103", h1)];
            Resolve(devices, "00195103", "00195303") == Resolution(false, Some(devices[1]), Some(devices[0]))
  {
  }
}
