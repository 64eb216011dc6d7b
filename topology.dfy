/** Topology parameters shared by both generators. */
module Topology {

  /** Largest VLAN identifier usable for a VLAN (section 9.6 of IEEE 802.1Q
      reserves VID 0 and VID 4095). */
  const MaxVlanId: int := 4094

  /** The access VLANs `startVlan .. startVlan + numElevPorts - 1` are all
      valid VLAN identifiers. Neither generator checks this: it is what their
      callers must ensure. With no access ports no VLAN number is printed,
      and any `startVlan` will do. */
  predicate ValidElevVlanRange(startVlan: int, numElevPorts: nat) {
    numElevPorts == 0 || (1 <= startVlan && startVlan + numElevPorts - 1 <= MaxVlanId)
  }

  /** The start VLAN as the generators use it. Without access ports it is
      never printed, and 0 stands in for it. */
  function ElevVlanBase(startVlan: int, numElevPorts: nat): nat
    requires ValidElevVlanRange(startVlan, numElevPorts)
  {
    if numElevPorts == 0 then 0 else startVlan
  }
}
