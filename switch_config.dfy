/** The Cisco 2960 configuration generator `generate_switch_config` and the
    per-switch identity derivation of its driver loop. */
module SwitchConfig {
  import opened Decimal
  import opened TextLines
  import opened Topology

  /** Hostname and management address the driver gives to switch `i`. */
  datatype SwitchIdentity = SwitchIdentity(hostname: string, ipAddress: string)

  function IdentityOf(i: nat): SwitchIdentity {
    SwitchIdentity("SW" + NatToString(i), "10.0.10." + NatToString(i + 1))
  }

  /** Hostname line and the management interface on VLAN 10. */
  function Header(hostname: string, ipAddress: string): seq<string> {
    [ "hostname " + hostname,
      "ip routing",
      "no ip domain-lookup",
      "interface vlan 10",
      "ip address " + ipAddress + " 255.255.255.0",
      "no shutdown" ]
  }

  function VlanBlock(vlanId: nat): seq<string> {
    [ "vlan " + NatToString(vlanId),
      " name elev" + NatToString(vlanId),
      "exit" ]
  }

  function AccessPortBlock(port: nat, vlanId: nat): seq<string> {
    [ "interface GigabitEthernet0/" + NatToString(port),
      "switchport mode access",
      "switchport access vlan " + NatToString(vlanId),
      "switchport port-security",
      "switchport port-security maximum 2",
      "switchport port-security violation restrict",
      "spanning-tree portfast",
      "exit" ]
  }

  function TrunkPortBlock(port: nat): seq<string> {
    [ "interface GigabitEthernet0/" + NatToString(port),
      "switchport mode trunk",
      "switchport trunk encapsulation dot1q",
      "switchport trunk native vlan 10",
      "switchport trunk allowed vlan all",
      "exit" ]
  }

  const Closing: seq<string> := ["end", "write memory"]

  /** One VLAN definition per access VLAN, in ascending order. */
  function VlanBlocks(startVlan: nat, count: nat): seq<seq<string>> {
    seq(count, i requires 0 <= i < count => VlanBlock(startVlan + i))
  }

  /** Access port `i + 1` is bound to VLAN `startVlan + i`. */
  function AccessPortBlocks(startVlan: nat, count: nat): seq<seq<string>> {
    seq(count, i requires 0 <= i < count => AccessPortBlock(i + 1, startVlan + i))
  }

  /** Trunk ports take the interface numbers `firstPort ..`. */
  function TrunkPortBlocks(firstPort: nat, count: nat): seq<seq<string>> {
    seq(count, j requires 0 <= j < count => TrunkPortBlock(firstPort + j))
  }

  /** The command list `generate_switch_config` returns. */
  function SwitchConfig(hostname: string, ipAddress: string,
                        startVlan: nat, numElevPorts: nat, numTrunkPorts: nat): seq<string>
  {
    Header(hostname, ipAddress)
      + Flatten(VlanBlocks(startVlan, numElevPorts))
      + Flatten(AccessPortBlocks(startVlan, numElevPorts))
      + Flatten(TrunkPortBlocks(numElevPorts + 1, numTrunkPorts))
      + Closing
  }

  /** Builds the command list line by line, as the source appends to
      `config_cmds`: header, the three loops, closing lines. The credentials
      are accepted and ignored: the result depends only on the hostname, the
      address and the three counts. */
  method GenerateSwitchConfig(hostname: string, ipAddress: string,
                              username: string, password: string,
                              startVlan: int, numElevPorts: nat, numTrunkPorts: nat)
    returns (configCmds: seq<string>)
    requires ValidElevVlanRange(startVlan, numElevPorts)
    ensures configCmds
         == SwitchConfig(hostname, ipAddress, ElevVlanBase(startVlan, numElevPorts), numElevPorts, numTrunkPorts)
  {
    var base := ElevVlanBase(startVlan, numElevPorts);
    configCmds := [];
    configCmds := configCmds + ["hostname " + hostname];
    configCmds := configCmds + ["ip routing", "no ip domain-lookup"];
    configCmds := configCmds + ["interface vlan 10"];
    configCmds := configCmds + ["ip address " + ipAddress + " 255.255.255.0"];
    configCmds := configCmds + ["no shutdown"];
    assert configCmds == Header(hostname, ipAddress);

    configCmds := AppendVlanDefinitions(configCmds, base, numElevPorts);
    configCmds := AppendAccessPorts(configCmds, base, numElevPorts);
    configCmds := AppendTrunkPorts(configCmds, numElevPorts + 1, numTrunkPorts);

    ghost var body := configCmds;
    configCmds := configCmds + ["end"];
    configCmds := configCmds + ["write memory"];
    assert configCmds == body + Closing;
  }

  /** The loop over the access VLANs: `vlan`, ` name elev`, `exit` for each. */
  method AppendVlanDefinitions(cmds: seq<string>, startVlan: nat, numElevPorts: nat)
    returns (configCmds: seq<string>)
    ensures configCmds == cmds + Flatten(VlanBlocks(startVlan, numElevPorts))
  {
    configCmds := cmds;
    var i: nat := 0;
    while i < numElevPorts
      invariant i <= numElevPorts
      invariant configCmds == cmds + Flatten(VlanBlocks(startVlan, i))
    {
      ghost var before := configCmds;
      var vlanId: nat := startVlan + i;
      configCmds := configCmds + ["vlan " + NatToString(vlanId)];
      configCmds := configCmds + [" name elev" + NatToString(vlanId)];
      configCmds := configCmds + ["exit"];
      assert configCmds == before + VlanBlock(vlanId);
      VlanBlocksSnoc(cmds, startVlan, i);
      i := i + 1;
    }
  }

  /** The loop over the access ports: interface `i + 1` bound to VLAN
      `startVlan + i`, with port security and portfast. */
  method AppendAccessPorts(cmds: seq<string>, startVlan: nat, numElevPorts: nat)
    returns (configCmds: seq<string>)
    ensures configCmds == cmds + Flatten(AccessPortBlocks(startVlan, numElevPorts))
  {
    configCmds := cmds;
    var i: nat := 0;
    while i < numElevPorts
      invariant i <= numElevPorts
      invariant configCmds == cmds + Flatten(AccessPortBlocks(startVlan, i))
    {
      ghost var before := configCmds;
      var vlanId: nat := startVlan + i;
      var interfaceId: nat := i + 1;
      configCmds := configCmds + ["interface GigabitEthernet0/" + NatToString(interfaceId)];
      configCmds := configCmds + ["switchport mode access"];
      configCmds := configCmds + ["switchport access vlan " + NatToString(vlanId)];
      configCmds := configCmds + ["switchport port-security"];
      configCmds := configCmds + ["switchport port-security maximum 2"];
      configCmds := configCmds + ["switchport port-security violation restrict"];
      configCmds := configCmds + ["spanning-tree portfast"];
      configCmds := configCmds + ["exit"];
      assert configCmds == before + AccessPortBlock(interfaceId, vlanId);
      AccessPortBlocksSnoc(cmds, startVlan, i);
      i := i + 1;
    }
  }

  /** The loop over the trunk ports, numbered from `startTrunkPort`. */
  method AppendTrunkPorts(cmds: seq<string>, startTrunkPort: nat, numTrunkPorts: nat)
    returns (configCmds: seq<string>)
    ensures configCmds == cmds + Flatten(TrunkPortBlocks(startTrunkPort, numTrunkPorts))
  {
    configCmds := cmds;
    var j: nat := 0;
    while j < numTrunkPorts
      invariant j <= numTrunkPorts
      invariant configCmds == cmds + Flatten(TrunkPortBlocks(startTrunkPort, j))
    {
      ghost var before := configCmds;
      var interfaceId: nat := startTrunkPort + j;
      configCmds := configCmds + ["interface GigabitEthernet0/" + NatToString(interfaceId)];
      configCmds := configCmds + ["switchport mode trunk"];
      configCmds := configCmds + ["switchport trunk encapsulation dot1q"];
      configCmds := configCmds + ["switchport trunk native vlan 10"];
      configCmds := configCmds + ["switchport trunk allowed vlan all"];
      configCmds := configCmds + ["exit"];
      assert configCmds == before + TrunkPortBlock(interfaceId);
      TrunkPortBlocksSnoc(cmds, startTrunkPort, j);
      j := j + 1;
    }
  }

  /** One more VLAN definition after the ones already appended to `cmds`. */
  lemma VlanBlocksSnoc(cmds: seq<string>, startVlan: nat, count: nat)
    ensures cmds + Flatten(VlanBlocks(startVlan, count)) + VlanBlock(startVlan + count)
         == cmds + Flatten(VlanBlocks(startVlan, count + 1))
  {
    ConcatAssoc(cmds, Flatten(VlanBlocks(startVlan, count)), VlanBlock(startVlan + count));
    assert VlanBlocks(startVlan, count + 1)
        == VlanBlocks(startVlan, count) + [VlanBlock(startVlan + count)];
    FlattenSnoc(VlanBlocks(startVlan, count), VlanBlock(startVlan + count));
  }

  lemma AccessPortBlocksSnoc(cmds: seq<string>, startVlan: nat, count: nat)
    ensures cmds + Flatten(AccessPortBlocks(startVlan, count)) + AccessPortBlock(count + 1, startVlan + count)
         == cmds + Flatten(AccessPortBlocks(startVlan, count + 1))
  {
    var block := AccessPortBlock(count + 1, startVlan + count);
    ConcatAssoc(cmds, Flatten(AccessPortBlocks(startVlan, count)), block);
    assert AccessPortBlocks(startVlan, count + 1) == AccessPortBlocks(startVlan, count) + [block];
    FlattenSnoc(AccessPortBlocks(startVlan, count), block);
  }

  lemma TrunkPortBlocksSnoc(cmds: seq<string>, firstPort: nat, count: nat)
    ensures cmds + Flatten(TrunkPortBlocks(firstPort, count)) + TrunkPortBlock(firstPort + count)
         == cmds + Flatten(TrunkPortBlocks(firstPort, count + 1))
  {
    ConcatAssoc(cmds, Flatten(TrunkPortBlocks(firstPort, count)), TrunkPortBlock(firstPort + count));
    assert TrunkPortBlocks(firstPort, count + 1)
        == TrunkPortBlocks(firstPort, count) + [TrunkPortBlock(firstPort + count)];
    FlattenSnoc(TrunkPortBlocks(firstPort, count), TrunkPortBlock(firstPort + count));
  }

  /* Properties of the generated command list. */

  /** Every VLAN definition is 3 lines, so the section is `3 * count` lines
      and block `i` sits at line `3 * i` of it. */
  lemma VlanSection(startVlan: nat, count: nat, i: nat)
    requires i < count
    ensures |Flatten(VlanBlocks(startVlan, count))| == 3 * count
    ensures Flatten(VlanBlocks(startVlan, count))[3 * i .. 3 * i + 3] == VlanBlock(startVlan + i)
  {
    var blocks := VlanBlocks(startVlan, count);
    forall k | 0 <= k < count ensures |blocks[k]| == 3 {
      assert blocks[k] == VlanBlock(startVlan + k);
    }
    FlattenLength(blocks, 3);
    FlattenBlockAt(blocks, 3, i);
    assert blocks[i] == VlanBlock(startVlan + i);
  }

  /** Every access port block is 8 lines. */
  lemma AccessSection(startVlan: nat, count: nat, i: nat)
    requires i < count
    ensures |Flatten(AccessPortBlocks(startVlan, count))| == 8 * count
    ensures Flatten(AccessPortBlocks(startVlan, count))[8 * i .. 8 * i + 8]
         == AccessPortBlock(i + 1, startVlan + i)
  {
    var blocks := AccessPortBlocks(startVlan, count);
    forall k | 0 <= k < count ensures |blocks[k]| == 8 {
      assert blocks[k] == AccessPortBlock(k + 1, startVlan + k);
    }
    FlattenLength(blocks, 8);
    FlattenBlockAt(blocks, 8, i);
    assert blocks[i] == AccessPortBlock(i + 1, startVlan + i);
  }

  /** Every trunk port block is 6 lines. */
  lemma TrunkSection(firstPort: nat, count: nat, j: nat)
    requires j < count
    ensures |Flatten(TrunkPortBlocks(firstPort, count))| == 6 * count
    ensures Flatten(TrunkPortBlocks(firstPort, count))[6 * j .. 6 * j + 6]
         == TrunkPortBlock(firstPort + j)
  {
    var blocks := TrunkPortBlocks(firstPort, count);
    forall k | 0 <= k < count ensures |blocks[k]| == 6 {
      assert blocks[k] == TrunkPortBlock(firstPort + k);
    }
    FlattenLength(blocks, 6);
    FlattenBlockAt(blocks, 6, j);
    assert blocks[j] == TrunkPortBlock(firstPort + j);
  }

  /** Sizes of the sections: 6 header lines, 3 per VLAN, 8 per access port,
      6 per trunk port. */
  lemma SectionSizes(startVlan: nat, numElevPorts: nat, numTrunkPorts: nat)
    ensures |Flatten(VlanBlocks(startVlan, numElevPorts))| == 3 * numElevPorts
    ensures |Flatten(AccessPortBlocks(startVlan, numElevPorts))| == 8 * numElevPorts
    ensures |Flatten(TrunkPortBlocks(numElevPorts + 1, numTrunkPorts))| == 6 * numTrunkPorts
  {
    if numElevPorts > 0 {
      VlanSection(startVlan, numElevPorts, 0);
      AccessSection(startVlan, numElevPorts, 0);
    }
    if numTrunkPorts > 0 {
      TrunkSection(numElevPorts + 1, numTrunkPorts, 0);
    }
  }

  lemma SwitchConfigLength(hostname: string, ipAddress: string,
                           startVlan: nat, numElevPorts: nat, numTrunkPorts: nat)
    ensures |SwitchConfig(hostname, ipAddress, startVlan, numElevPorts, numTrunkPorts)|
         == 8 + 11 * numElevPorts + 6 * numTrunkPorts
  {
    SectionSizes(startVlan, numElevPorts, numTrunkPorts);
  }

  /** Without access ports the start VLAN is never printed: the list is the
      same whatever it is. */
  lemma StartVlanUnusedWithoutAccessPorts(hostname: string, ipAddress: string,
                                          startVlan: nat, otherStartVlan: nat, numTrunkPorts: nat)
    ensures SwitchConfig(hostname, ipAddress, startVlan, 0, numTrunkPorts)
         == SwitchConfig(hostname, ipAddress, otherStartVlan, 0, numTrunkPorts)
  {
  }

  /** The list opens with the hostname and closes with `end`, `write memory`. */
  lemma SwitchConfigFrame(hostname: string, ipAddress: string,
                          startVlan: nat, numElevPorts: nat, numTrunkPorts: nat)
    ensures var c := SwitchConfig(hostname, ipAddress, startVlan, numElevPorts, numTrunkPorts);
      |c| >= 8 && c[0] == "hostname " + hostname
      && c[|c| - 2] == "end" && c[|c| - 1] == "write memory"
  {
  }


  /** VLAN `startVlan + i` is defined by lines `6 + 3 * i` to `8 + 3 * i`. */
  lemma VlanDefinitionAt(hostname: string, ipAddress: string,
                         startVlan: nat, numElevPorts: nat, numTrunkPorts: nat, i: nat)
    requires i < numElevPorts
    ensures var c := SwitchConfig(hostname, ipAddress, startVlan, numElevPorts, numTrunkPorts);
      6 + 3 * i + 3 <= |c|
      && c[6 + 3 * i .. 6 + 3 * i + 3]
         == [ "vlan " + NatToString(startVlan + i),
              " name elev" + NatToString(startVlan + i),
              "exit" ]
  {
    var h := Header(hostname, ipAddress);
    var v := Flatten(VlanBlocks(startVlan, numElevPorts));
    var a := Flatten(AccessPortBlocks(startVlan, numElevPorts));
    var t := Flatten(TrunkPortBlocks(numElevPorts + 1, numTrunkPorts));
    VlanSection(startVlan, numElevPorts, i);
    SliceOfMiddle(h, v, a, 3 * i, 3 * i + 3);
    SliceOfPrefix(h + v + a, t, 6 + 3 * i, 6 + 3 * i + 3);
    SliceOfPrefix(h + v + a + t, Closing, 6 + 3 * i, 6 + 3 * i + 3);
  }


  /** Reading the VLAN ids back from the `vlan` lines, they are strictly
      ascending. */
  lemma VlanIdsAscending(hostname: string, ipAddress: string,
                         startVlan: nat, numElevPorts: nat, numTrunkPorts: nat, i: nat, j: nat)
    requires i < j < numElevPorts
    ensures var c := SwitchConfig(hostname, ipAddress, startVlan, numElevPorts, numTrunkPorts);
      6 + 3 * j < |c|
      && |c[6 + 3 * i]| > 5 && |c[6 + 3 * j]| > 5
      && AllDigits(c[6 + 3 * i][5..]) && AllDigits(c[6 + 3 * j][5..])
      && ParseNat(c[6 + 3 * i][5..]) < ParseNat(c[6 + 3 * j][5..])
  {
    var c := SwitchConfig(hostname, ipAddress, startVlan, numElevPorts, numTrunkPorts);
    assert 6 + 3 * j < |c| && c[6 + 3 * i] == "vlan " + NatToString(startVlan + i) by {
      VlanDefinitionAt(hostname, ipAddress, startVlan, numElevPorts, numTrunkPorts, i);
      VlanDefinitionAt(hostname, ipAddress, startVlan, numElevPorts, numTrunkPorts, j);
      assert c[6 + 3 * i] == c[6 + 3 * i .. 6 + 3 * i + 3][0];
    }
    assert c[6 + 3 * j] == "vlan " + NatToString(startVlan + j) by {
      VlanDefinitionAt(hostname, ipAddress, startVlan, numElevPorts, numTrunkPorts, j);
      assert c[6 + 3 * j] == c[6 + 3 * j .. 6 + 3 * j + 3][0];
    }
    assert c[6 + 3 * i][5..] == NatToString(startVlan + i);
    assert c[6 + 3 * j][5..] == NatToString(startVlan + j);
    ParseNatToString(startVlan + i);
    ParseNatToString(startVlan + j);
  }

  /** Access port `i + 1` is configured by lines `6 + 3a + 8i` onwards: bound to
      VLAN `startVlan + i`, with port security (at most 2 addresses, violation
      restrict) and portfast. */
  lemma AccessPortAt(hostname: string, ipAddress: string,
                     startVlan: nat, numElevPorts: nat, numTrunkPorts: nat, i: nat)
    requires i < numElevPorts
    ensures var c := SwitchConfig(hostname, ipAddress, startVlan, numElevPorts, numTrunkPorts);
      var at := 6 + 3 * numElevPorts + 8 * i;
      at + 8 <= |c|
      && c[at .. at + 8]
         == [ "interface GigabitEthernet0/" + NatToString(i + 1),
              "switchport mode access",
              "switchport access vlan " + NatToString(startVlan + i),
              "switchport port-security",
              "switchport port-security maximum 2",
              "switchport port-security violation restrict",
              "spanning-tree portfast",
              "exit" ]
  {
    var hv := Header(hostname, ipAddress) + Flatten(VlanBlocks(startVlan, numElevPorts));
    var a := Flatten(AccessPortBlocks(startVlan, numElevPorts));
    var t := Flatten(TrunkPortBlocks(numElevPorts + 1, numTrunkPorts));
    VlanSection(startVlan, numElevPorts, i);
    AccessSection(startVlan, numElevPorts, i);
    SliceOfMiddle(hv, a, t, 8 * i, 8 * i + 8);
    SliceOfPrefix(hv + a + t, Closing, |hv| + 8 * i, |hv| + 8 * i + 8);
  }


  /** Trunk port `j` (counting from 0) is interface `numElevPorts + 1 + j`,
      configured by lines `6 + 11a + 6j` onwards with native VLAN 10 and all
      VLANs allowed. With no access ports the trunks start at interface 1. */
  lemma TrunkPortAt(hostname: string, ipAddress: string,
                    startVlan: nat, numElevPorts: nat, numTrunkPorts: nat, j: nat)
    requires j < numTrunkPorts
    ensures var c := SwitchConfig(hostname, ipAddress, startVlan, numElevPorts, numTrunkPorts);
      var at := 6 + 11 * numElevPorts + 6 * j;
      at + 6 <= |c|
      && c[at .. at + 6]
         == [ "interface GigabitEthernet0/" + NatToString(numElevPorts + 1 + j),
              "switchport mode trunk",
              "switchport trunk encapsulation dot1q",
              "switchport trunk native vlan 10",
              "switchport trunk allowed vlan all",
              "exit" ]
  {
    var hva := Header(hostname, ipAddress) + Flatten(VlanBlocks(startVlan, numElevPorts))
      + Flatten(AccessPortBlocks(startVlan, numElevPorts));
    var t := Flatten(TrunkPortBlocks(numElevPorts + 1, numTrunkPorts));
    SectionSizes(startVlan, numElevPorts, numTrunkPorts);
    TrunkSection(numElevPorts + 1, numTrunkPorts, j);
    SliceOfMiddle(hva, t, Closing, 6 * j, 6 * j + 6);
  }


  /** The interface and VLAN lines of access port `i + 1`. */
  lemma AccessPortLines(hostname: string, ipAddress: string,
                        startVlan: nat, numElevPorts: nat, numTrunkPorts: nat, i: nat)
    requires i < numElevPorts
    ensures var c := SwitchConfig(hostname, ipAddress, startVlan, numElevPorts, numTrunkPorts);
      var at := 6 + 3 * numElevPorts + 8 * i;
      at + 2 < |c|
      && c[at] == "interface GigabitEthernet0/" + NatToString(i + 1)
      && c[at + 2] == "switchport access vlan " + NatToString(startVlan + i)
  {
    var c := SwitchConfig(hostname, ipAddress, startVlan, numElevPorts, numTrunkPorts);
    var at := 6 + 3 * numElevPorts + 8 * i;
    AccessPortAt(hostname, ipAddress, startVlan, numElevPorts, numTrunkPorts, i);
    assert c[at] == c[at .. at + 8][0] && c[at + 2] == c[at .. at + 8][2];
  }

  /** The interface line of trunk port `j`. */
  lemma TrunkInterfaceLine(hostname: string, ipAddress: string,
                           startVlan: nat, numElevPorts: nat, numTrunkPorts: nat, j: nat)
    requires j < numTrunkPorts
    ensures var c := SwitchConfig(hostname, ipAddress, startVlan, numElevPorts, numTrunkPorts);
      var at := 6 + 11 * numElevPorts + 6 * j;
      at < |c| && c[at] == "interface GigabitEthernet0/" + NatToString(numElevPorts + 1 + j)
  {
    var c := SwitchConfig(hostname, ipAddress, startVlan, numElevPorts, numTrunkPorts);
    var at := 6 + 11 * numElevPorts + 6 * j;
    TrunkPortAt(hostname, ipAddress, startVlan, numElevPorts, numTrunkPorts, j);
    assert c[at] == c[at .. at + 6][0];
  }

  /** Port to VLAN is one-to-one: distinct access ports name distinct
      interfaces and are bound to distinct VLANs. Together with AccessPortAt
      (VLAN `v` is bound to port `v - startVlan + 1`) the allocation is a
      bijection from ports `1 .. a` onto VLANs `startVlan .. startVlan + a - 1`. */
  lemma AccessPortsDistinct(hostname: string, ipAddress: string,
                            startVlan: nat, numElevPorts: nat, numTrunkPorts: nat, i: nat, k: nat)
    requires i < numElevPorts && k < numElevPorts && i != k
    ensures var c := SwitchConfig(hostname, ipAddress, startVlan, numElevPorts, numTrunkPorts);
      var at, ak := 6 + 3 * numElevPorts + 8 * i, 6 + 3 * numElevPorts + 8 * k;
      at + 2 < |c| && ak + 2 < |c| && c[at] != c[ak] && c[at + 2] != c[ak + 2]
  {
    AccessPortLines(hostname, ipAddress, startVlan, numElevPorts, numTrunkPorts, i);
    AccessPortLines(hostname, ipAddress, startVlan, numElevPorts, numTrunkPorts, k);
    NatToStringInjective(i + 1, k + 1);
    NatToStringInjective(startVlan + i, startVlan + k);
    PrefixCancel("interface GigabitEthernet0/", NatToString(i + 1), NatToString(k + 1));
    PrefixCancel("switchport access vlan ", NatToString(startVlan + i), NatToString(startVlan + k));
  }

  /** Every trunk interface differs from every access interface. */
  lemma AccessTrunkDisjoint(hostname: string, ipAddress: string,
                            startVlan: nat, numElevPorts: nat, numTrunkPorts: nat, i: nat, j: nat)
    requires i < numElevPorts && j < numTrunkPorts
    ensures var c := SwitchConfig(hostname, ipAddress, startVlan, numElevPorts, numTrunkPorts);
      var ai, aj := 6 + 3 * numElevPorts + 8 * i, 6 + 11 * numElevPorts + 6 * j;
      ai < |c| && aj < |c| && c[ai] != c[aj]
  {
    AccessPortLines(hostname, ipAddress, startVlan, numElevPorts, numTrunkPorts, i);
    TrunkInterfaceLine(hostname, ipAddress, startVlan, numElevPorts, numTrunkPorts, j);
    NatToStringInjective(i + 1, numElevPorts + 1 + j);
    PrefixCancel("interface GigabitEthernet0/", NatToString(i + 1), NatToString(numElevPorts + 1 + j));
  }

  /** Distinct trunk ports name distinct interfaces. */
  lemma TrunkPortsDistinct(hostname: string, ipAddress: string,
                           startVlan: nat, numElevPorts: nat, numTrunkPorts: nat, i: nat, j: nat)
    requires i < numTrunkPorts && j < numTrunkPorts && i != j
    ensures var c := SwitchConfig(hostname, ipAddress, startVlan, numElevPorts, numTrunkPorts);
      var ai, aj := 6 + 11 * numElevPorts + 6 * i, 6 + 11 * numElevPorts + 6 * j;
      ai < |c| && aj < |c| && c[ai] != c[aj]
  {
    TrunkInterfaceLine(hostname, ipAddress, startVlan, numElevPorts, numTrunkPorts, i);
    TrunkInterfaceLine(hostname, ipAddress, startVlan, numElevPorts, numTrunkPorts, j);
    NatToStringInjective(numElevPorts + 1 + i, numElevPorts + 1 + j);
    PrefixCancel("interface GigabitEthernet0/", NatToString(numElevPorts + 1 + i),
                 NatToString(numElevPorts + 1 + j));
  }

  /* The identity derivation of the driver loop. */

  /** The hostname and address of switch `i` carry `i` and `i + 1` back. */
  lemma IdentityRoundTrip(i: nat)
    ensures var id := IdentityOf(i);
      |id.hostname| > 2 && id.hostname[..2] == "SW"
      && AllDigits(id.hostname[2..]) && ParseNat(id.hostname[2..]) == i
      && |id.ipAddress| > 8 && id.ipAddress[..8] == "10.0.10."
      && AllDigits(id.ipAddress[8..]) && ParseNat(id.ipAddress[8..]) == i + 1
  {
    var id := IdentityOf(i);
    assert id.hostname[2..] == NatToString(i);
    assert id.ipAddress[8..] == NatToString(i + 1);
    ParseNatToString(i);
    ParseNatToString(i + 1);
  }

  /** Distinct switches get distinct hostnames, distinct management
      addresses, and so distinct command lists. */
  lemma IdentitiesDistinct(i: nat, k: nat, startVlan: nat, numElevPorts: nat, numTrunkPorts: nat)
    requires i != k
    ensures IdentityOf(i).hostname != IdentityOf(k).hostname
    ensures IdentityOf(i).ipAddress != IdentityOf(k).ipAddress
    ensures SwitchConfig(IdentityOf(i).hostname, IdentityOf(i).ipAddress, startVlan, numElevPorts, numTrunkPorts)
         != SwitchConfig(IdentityOf(k).hostname, IdentityOf(k).ipAddress, startVlan, numElevPorts, numTrunkPorts)
  {
    IdentityRoundTrip(i);
    IdentityRoundTrip(k);
    var hi, hk := IdentityOf(i).hostname, IdentityOf(k).hostname;
    SwitchConfigFrame(hi, IdentityOf(i).ipAddress, startVlan, numElevPorts, numTrunkPorts);
    SwitchConfigFrame(hk, IdentityOf(k).ipAddress, startVlan, numElevPorts, numTrunkPorts);
    PrefixCancel("hostname ", hi, hk);
  }
}
