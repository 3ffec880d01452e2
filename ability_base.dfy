/**
 * Helpers of the ability base class that the concrete abilities call.
 */
module AbilityBase {
  import opened Common
  import opened Host

  /**
   * `removeCharacteristic(c)`: removes `c` only when `testCharacteristic`
   * reports it present, so a missing characteristic is never created.
   */
  method RemoveCharacteristic(s: Service, c: Characteristic)
    modifies s`values, s`writable, s`perms
    ensures c !in s.values && s.values == old(s.values) - {c}
    ensures s.values.Keys <= old(s.values).Keys
    ensures !old(s.Has(c)) ==> s.writable == old(s.writable) && s.perms == old(s.perms)
    ensures old(s.Has(c)) ==> s.writable == old(s.writable) - {c} && s.perms == old(s.perms) - {c}
  {
    if s.Has(c) {
      s.Remove(c);
    }
  }

  /**
   * What a write handler throws when the device rejects its command: the
   * SERVICE_COMMUNICATION_FAILURE status, unless the ability has been torn
   * down, in which case the `log` getter throws first.
   */
  function CommandFailure(setUp: bool): (e: Error)
    ensures e == ServiceCommunicationFailure || e == NotSetUp
    ensures e == NotSetUp <==> !setUp
  {
    if setUp then ServiceCommunicationFailure else NotSetUp
  }
}
