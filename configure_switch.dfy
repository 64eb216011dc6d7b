/** The second generator, `configure_switch`: a configuration with
    interfaces named `gi1/0/N` in which each trunk lists the access VLANs
    explicitly, followed by a fixed management VLAN and access-list block,
    returned as one newline-joined text. */
module ConfigureSwitch {
  import opened Decimal
  import opened TextLines
  import opened Topology

  function AccessBlock(port: nat, vlanId: nat): seq<string> {
    [ "interface gi1/0/" + NatToString(port),
      " switchport mode access",
      " switchport access vlan " + NatToString(vlanId),
      " description elev" + NatToString(vlanId) ]
  }

  function TrunkHead(port: nat): seq<string> {
    [ "interface gi1/0/" + NatToString(port),
      " switchport mode trunk",
      " switchport trunk native vlan 10" ]
  }

  function AllowedVlanAdd(vlanId: nat): string {
    " switchport trunk allowed vlan add " + NatToString(vlanId)
  }

  /** One `allowed vlan add` line per access VLAN, ascending from `startVlan`. */
  function AllowedVlanAdds(startVlan: nat, count: nat): seq<string> {
    seq(count, k requires 0 <= k < count => AllowedVlanAdd(startVlan + k))
  }

  function TrunkBlock(port: nat, startVlan: nat, numElevPorts: nat): seq<string> {
    TrunkHead(port) + AllowedVlanAdds(startVlan, numElevPorts)
  }

  /** Access port `p` in `1 .. count` is bound to VLAN `startVlan + p - 1`. */
  function AccessBlocks(startVlan: nat, count: nat): seq<seq<string>> {
    seq(count, i requires 0 <= i < count => AccessBlock(i + 1, startVlan + i))
  }

  /** Trunk ports follow the access ports: interfaces `numElevPorts + 1 ..`. */
  function TrunkBlocks(startVlan: nat, numElevPorts: nat, count: nat): seq<seq<string>> {
    seq(count, j requires 0 <= j < count => TrunkBlock(numElevPorts + 1 + j, startVlan, numElevPorts))
  }

  /** The fixed address of the management interface, on every switch. */
  const ManagementAddress: string := "192.168.10.1"

  /** Management VLAN 10 with the management address, and an access list
      that admits only traffic to that address. */
  const ManagementAcl: seq<string> := ManagementVlan + ManagementInterface + ManagementAccessList

  const ManagementVlan: seq<string> := ["vlan 10", " name Management", "!"]

  const ManagementInterface: seq<string> :=
    [ "interface vlan 10",
      " ip address " + ManagementAddress + " 255.255.255.0",
      " ip access-group 10 in",
      "!" ]

  const ManagementAccessList: seq<string> :=
    [ "access-list 10 permit ip any host " + ManagementAddress,
      "access-list 10 deny ip any any" ]

  /** The list `configure_switch` builds before joining it. */
  function ConfigLines(startVlan: nat, numElevPorts: nat, numTrunkPorts: nat): seq<string> {
    Flatten(AccessBlocks(startVlan, numElevPorts))
      + Flatten(TrunkBlocks(startVlan, numElevPorts, numTrunkPorts))
      + ManagementAcl
  }

  /** Joins the configuration lines with newlines. `switchId` is accepted
      and ignored: the text is the same for every switch. */
  method ConfigureSwitch(switchId: int, startVlan: int, numElevPorts: nat, numTrunkPorts: nat)
    returns (text: string)
    requires ValidElevVlanRange(startVlan, numElevPorts)
    ensures text == Join(ConfigLines(ElevVlanBase(startVlan, numElevPorts), numElevPorts, numTrunkPorts), '\n')
    ensures Split(text, '\n') == ConfigLines(ElevVlanBase(startVlan, numElevPorts), numElevPorts, numTrunkPorts)
  {
    var config := BuildConfigLines(startVlan, numElevPorts, numTrunkPorts);
    text := Join(config, '\n');
    ConfigTextSplits(ElevVlanBase(startVlan, numElevPorts), numElevPorts, numTrunkPorts);
  }

  /** The body of `configure_switch` up to the join: the access-port loop,
      the trunk-port loop, then the management block. */
  method BuildConfigLines(startVlan: int, numElevPorts: nat, numTrunkPorts: nat)
    returns (config: seq<string>)
    requires ValidElevVlanRange(startVlan, numElevPorts)
    ensures config == ConfigLines(ElevVlanBase(startVlan, numElevPorts), numElevPorts, numTrunkPorts)
  {
    var base := ElevVlanBase(startVlan, numElevPorts);
    config := [];
    config := AppendAccessPorts(config, base, numElevPorts);
    config := AppendTrunkPorts(config, base, numElevPorts, numTrunkPorts);

    ghost var trunksDone := config;
    config := config + ["vlan 10"];
    config := config + [" name Management"];
    config := config + ["!"];
    assert config == trunksDone + ManagementVlan;
    config := config + ["interface vlan 10"];
    config := config + [" ip address " + ManagementAddress + " 255.255.255.0"];
    config := config + [" ip access-group 10 in"];
    config := config + ["!"];
    assert config == trunksDone + ManagementVlan + ManagementInterface;
    config := config + ["access-list 10 permit ip any host " + ManagementAddress];
    config := config + ["access-list 10 deny ip any any"];
    assert config == trunksDone + ManagementVlan + ManagementInterface + ManagementAccessList;
    ConcatAssoc(trunksDone, ManagementVlan + ManagementInterface, ManagementAccessList);
    ConcatAssoc(trunksDone, ManagementVlan, ManagementInterface);
  }

  /** The loop over ports `1 .. numElevPorts`: port `p` gets VLAN
      `startVlan + p - 1`. */
  method AppendAccessPorts(lines: seq<string>, startVlan: nat, numElevPorts: nat)
    returns (config: seq<string>)
    ensures config == lines + Flatten(AccessBlocks(startVlan, numElevPorts))
  {
    config := lines;
    var port: nat := 1;
    while port < numElevPorts + 1
      invariant 1 <= port <= numElevPorts + 1
      invariant config == lines + Flatten(AccessBlocks(startVlan, port - 1))
    {
      ghost var before := config;
      var vlanId: nat := startVlan + port - 1;
      config := config + ["interface gi1/0/" + NatToString(port)];
      config := config + [" switchport mode access"];
      config := config + [" switchport access vlan " + NatToString(vlanId)];
      config := config + [" description elev" + NatToString(vlanId)];
      assert config == before + AccessBlock(port, vlanId);
      AccessBlocksSnoc(lines, startVlan, port - 1);
      port := port + 1;
    }
  }

  /** The loop over ports `numElevPorts + 1 .. numElevPorts + numTrunkPorts`,
      each with its nested loop over the access VLANs. */
  method AppendTrunkPorts(lines: seq<string>, startVlan: nat, numElevPorts: nat, numTrunkPorts: nat)
    returns (config: seq<string>)
    ensures config == lines + Flatten(TrunkBlocks(startVlan, numElevPorts, numTrunkPorts))
  {
    config := lines;
    var port: nat := numElevPorts + 1;
    while port < numElevPorts + numTrunkPorts + 1
      invariant numElevPorts + 1 <= port <= numElevPorts + numTrunkPorts + 1
      invariant config == lines + Flatten(TrunkBlocks(startVlan, numElevPorts, port - numElevPorts - 1))
    {
      ghost var before := config;
      config := config + ["interface gi1/0/" + NatToString(port)];
      config := config + [" switchport mode trunk"];
      config := config + [" switchport trunk native vlan 10"];
      assert config == before + TrunkHead(port) + AllowedVlanAdds(startVlan, 0);
      var vlan: nat := startVlan;
      while vlan < startVlan + numElevPorts
        invariant startVlan <= vlan <= startVlan + numElevPorts
        invariant config == before + TrunkHead(port) + AllowedVlanAdds(startVlan, vlan - startVlan)
      {
        config := config + [" switchport trunk allowed vlan add " + NatToString(vlan)];
        AllowedVlanAddsSnoc(startVlan, vlan - startVlan);
        vlan := vlan + 1;
      }
      TrunkStep(lines, before, config, startVlan, numElevPorts, port - numElevPorts - 1);
      port := port + 1;
    }
  }

  /** One trunk port's lines, appended after `done` trunk blocks. */
  lemma TrunkStep(accessDone: seq<string>, before: seq<string>, after: seq<string>,
                  startVlan: nat, numElevPorts: nat, done: nat)
    requires before == accessDone + Flatten(TrunkBlocks(startVlan, numElevPorts, done))
    requires after == before + TrunkHead(numElevPorts + 1 + done) + AllowedVlanAdds(startVlan, numElevPorts)
    ensures after == accessDone + Flatten(TrunkBlocks(startVlan, numElevPorts, done + 1))
  {
    TrunkBlocksSnoc(accessDone, startVlan, numElevPorts, done);
    assert after == before + TrunkBlock(numElevPorts + 1 + done, startVlan, numElevPorts);
  }

  /** One more access port after the ones already appended to `lines`. */
  lemma AccessBlocksSnoc(lines: seq<string>, startVlan: nat, count: nat)
    ensures lines + Flatten(AccessBlocks(startVlan, count)) + AccessBlock(count + 1, startVlan + count)
         == lines + Flatten(AccessBlocks(startVlan, count + 1))
  {
    ConcatAssoc(lines, Flatten(AccessBlocks(startVlan, count)), AccessBlock(count + 1, startVlan + count));
    assert AccessBlocks(startVlan, count + 1)
        == AccessBlocks(startVlan, count) + [AccessBlock(count + 1, startVlan + count)];
    FlattenSnoc(AccessBlocks(startVlan, count), AccessBlock(count + 1, startVlan + count));
  }

  lemma AllowedVlanAddsSnoc(startVlan: nat, count: nat)
    ensures AllowedVlanAdds(startVlan, count + 1)
         == AllowedVlanAdds(startVlan, count) + [AllowedVlanAdd(startVlan + count)]
  {
  }

  lemma TrunkBlocksSnoc(lines: seq<string>, startVlan: nat, numElevPorts: nat, count: nat)
    ensures lines + Flatten(TrunkBlocks(startVlan, numElevPorts, count))
            + TrunkBlock(numElevPorts + 1 + count, startVlan, numElevPorts)
         == lines + Flatten(TrunkBlocks(startVlan, numElevPorts, count + 1))
  {
    var block := TrunkBlock(numElevPorts + 1 + count, startVlan, numElevPorts);
    ConcatAssoc(lines, Flatten(TrunkBlocks(startVlan, numElevPorts, count)), block);
    assert TrunkBlocks(startVlan, numElevPorts, count + 1)
        == TrunkBlocks(startVlan, numElevPorts, count) + [block];
    FlattenSnoc(TrunkBlocks(startVlan, numElevPorts, count), block);
  }

  /* Properties of the generated lines and text. */

  /** Every access block is 4 lines, so the section is `4 * count` lines and
      block `i` sits at line `4 * i` of it. */
  lemma AccessSection(startVlan: nat, count: nat, i: nat)
    requires i < count
    ensures |Flatten(AccessBlocks(startVlan, count))| == 4 * count
    ensures Flatten(AccessBlocks(startVlan, count))[4 * i .. 4 * i + 4]
         == AccessBlock(i + 1, startVlan + i)
  {
    var blocks := AccessBlocks(startVlan, count);
    forall k | 0 <= k < count ensures |blocks[k]| == 4 {
      assert blocks[k] == AccessBlock(k + 1, startVlan + k);
    }
    FlattenLength(blocks, 4);
    FlattenBlockAt(blocks, 4, i);
    assert blocks[i] == AccessBlock(i + 1, startVlan + i);
  }

  /** Every trunk block is `3 + numElevPorts` lines. */
  lemma TrunkSection(startVlan: nat, numElevPorts: nat, count: nat, j: nat)
    requires j < count
    ensures |Flatten(TrunkBlocks(startVlan, numElevPorts, count))| == (3 + numElevPorts) * count
    ensures (3 + numElevPorts) * j + (3 + numElevPorts) <= (3 + numElevPorts) * count
    ensures Flatten(TrunkBlocks(startVlan, numElevPorts, count))
              [(3 + numElevPorts) * j .. (3 + numElevPorts) * j + (3 + numElevPorts)]
         == TrunkBlock(numElevPorts + 1 + j, startVlan, numElevPorts)
  {
    var blocks := TrunkBlocks(startVlan, numElevPorts, count);
    var size := 3 + numElevPorts;
    forall k | 0 <= k < count ensures |blocks[k]| == size {
      assert blocks[k] == TrunkBlock(numElevPorts + 1 + k, startVlan, numElevPorts);
    }
    FlattenLength(blocks, size);
    FlattenBlockAt(blocks, size, j);
    assert blocks[j] == TrunkBlock(numElevPorts + 1 + j, startVlan, numElevPorts);
  }

  lemma SectionSizes(startVlan: nat, numElevPorts: nat, numTrunkPorts: nat)
    ensures |Flatten(AccessBlocks(startVlan, numElevPorts))| == 4 * numElevPorts
    ensures |Flatten(TrunkBlocks(startVlan, numElevPorts, numTrunkPorts))|
         == (3 + numElevPorts) * numTrunkPorts
  {
    if numElevPorts > 0 {
      AccessSection(startVlan, numElevPorts, 0);
    }
    if numTrunkPorts > 0 {
      TrunkSection(startVlan, numElevPorts, numTrunkPorts, 0);
    }
  }

  /** Without access ports the start VLAN is never printed: the lines are
      the same whatever it is. */
  lemma StartVlanUnusedWithoutAccessPorts(startVlan: nat, otherStartVlan: nat, numTrunkPorts: nat)
    ensures ConfigLines(startVlan, 0, numTrunkPorts) == ConfigLines(otherStartVlan, 0, numTrunkPorts)
  {
    var trunks, others := TrunkBlocks(startVlan, 0, numTrunkPorts), TrunkBlocks(otherStartVlan, 0, numTrunkPorts);
    forall j | 0 <= j < numTrunkPorts ensures trunks[j] == others[j] {
      assert AllowedVlanAdds(startVlan, 0) == [] == AllowedVlanAdds(otherStartVlan, 0);
      assert trunks[j] == TrunkBlock(1 + j, startVlan, 0) == TrunkBlock(1 + j, otherStartVlan, 0) == others[j];
    }
    assert trunks == others;
  }

  /** 4 lines per access port, 3 plus one per access VLAN for each trunk
      port, and the 9 management lines. */
  lemma ConfigLinesLength(startVlan: nat, numElevPorts: nat, numTrunkPorts: nat)
    ensures |ConfigLines(startVlan, numElevPorts, numTrunkPorts)|
         == 4 * numElevPorts + numTrunkPorts * (3 + numElevPorts) + 9
  {
    SectionSizes(startVlan, numElevPorts, numTrunkPorts);
  }

  /** Access port `p` is configured by lines `4(p-1)` to `4p - 1`, bound to
      VLAN `startVlan + p - 1`. */
  lemma AccessPortLines(startVlan: nat, numElevPorts: nat, numTrunkPorts: nat, p: nat)
    requires 1 <= p <= numElevPorts
    ensures var c := ConfigLines(startVlan, numElevPorts, numTrunkPorts);
      4 * p <= |c|
      && c[4 * (p - 1) .. 4 * p]
         == [ "interface gi1/0/" + NatToString(p),
              " switchport mode access",
              " switchport access vlan " + NatToString(startVlan + p - 1),
              " description elev" + NatToString(startVlan + p - 1) ]
  {
    var access := Flatten(AccessBlocks(startVlan, numElevPorts));
    var rest := Flatten(TrunkBlocks(startVlan, numElevPorts, numTrunkPorts)) + ManagementAcl;
    AccessSection(startVlan, numElevPorts, p - 1);
    SliceOfMiddle([], access, rest, 4 * (p - 1), 4 * p);
    assert [] + access + rest == access + rest;
    ConcatAssoc(access, Flatten(TrunkBlocks(startVlan, numElevPorts, numTrunkPorts)), ManagementAcl);
  }


  /** Trunk block `j` (counting from 0) starts at line `4a + j(3 + a)` and is
      interface `a + 1 + j` in trunk mode with native VLAN 10, followed by
      the `a` allowed-VLAN lines. */
  lemma TrunkBlockAt(startVlan: nat, numElevPorts: nat, numTrunkPorts: nat, j: nat)
    requires j < numTrunkPorts
    ensures var c := ConfigLines(startVlan, numElevPorts, numTrunkPorts);
      var at := 4 * numElevPorts + (3 + numElevPorts) * j;
      at + 3 + numElevPorts <= |c|
      && c[at .. at + 3 + numElevPorts]
         == TrunkBlock(numElevPorts + 1 + j, startVlan, numElevPorts)
  {
    var size := 3 + numElevPorts;
    var access := Flatten(AccessBlocks(startVlan, numElevPorts));
    var trunks := Flatten(TrunkBlocks(startVlan, numElevPorts, numTrunkPorts));
    SectionSizes(startVlan, numElevPorts, numTrunkPorts);
    TrunkSection(startVlan, numElevPorts, numTrunkPorts, j);
    SliceOfMiddle(access, trunks, ManagementAcl, size * j, size * j + size);
  }


  /** The first three lines of trunk block `j`: the interface, trunk mode and
      native VLAN 10. */
  lemma TrunkPortLines(startVlan: nat, numElevPorts: nat, numTrunkPorts: nat, j: nat)
    requires j < numTrunkPorts
    ensures var c := ConfigLines(startVlan, numElevPorts, numTrunkPorts);
      var at := 4 * numElevPorts + (3 + numElevPorts) * j;
      at + 3 <= |c|
      && c[at] == "interface gi1/0/" + NatToString(numElevPorts + 1 + j)
      && c[at + 1] == " switchport mode trunk"
      && c[at + 2] == " switchport trunk native vlan 10"
  {
    var c := ConfigLines(startVlan, numElevPorts, numTrunkPorts);
    var at := 4 * numElevPorts + (3 + numElevPorts) * j;
    TrunkBlockAt(startVlan, numElevPorts, numTrunkPorts, j);
    var block := c[at .. at + 3 + numElevPorts];
    assert c[at] == block[0] && c[at + 1] == block[1] && c[at + 2] == block[2];
  }

  /** Line `3 + k` of trunk block `j` adds VLAN `startVlan + k`: the allowed
      list is the access VLANs in ascending order, on every trunk. */
  lemma TrunkAllowedVlanAt(startVlan: nat, numElevPorts: nat, numTrunkPorts: nat, j: nat, k: nat)
    requires j < numTrunkPorts && k < numElevPorts
    ensures var c := ConfigLines(startVlan, numElevPorts, numTrunkPorts);
      var at := 4 * numElevPorts + (3 + numElevPorts) * j + 3 + k;
      at < |c| && c[at] == " switchport trunk allowed vlan add " + NatToString(startVlan + k)
  {
    var c := ConfigLines(startVlan, numElevPorts, numTrunkPorts);
    var at := 4 * numElevPorts + (3 + numElevPorts) * j;
    TrunkBlockAt(startVlan, numElevPorts, numTrunkPorts, j);
    assert c[at + 3 + k] == c[at .. at + 3 + numElevPorts][3 + k];
    assert TrunkBlock(numElevPorts + 1 + j, startVlan, numElevPorts)[3 + k]
        == AllowedVlanAdds(startVlan, numElevPorts)[k]
        == AllowedVlanAdd(startVlan + k);
  }

  /** The text ends with the management and access-list block; the `permit`
      entry comes right before the closing `deny ip any any`. */
  lemma ManagementAclAtEnd(startVlan: nat, numElevPorts: nat, numTrunkPorts: nat)
    ensures var c := ConfigLines(startVlan, numElevPorts, numTrunkPorts);
      |c| >= 9
      && c[|c| - 9 ..] == ManagementAcl
      && c[|c| - 2] == "access-list 10 permit ip any host " + ManagementAddress
      && c[|c| - 1] == "access-list 10 deny ip any any"
  {
  }


  /** Interface lines of different ports differ. */
  lemma InterfaceLinesDiffer(p: nat, q: nat)
    requires p != q
    ensures "interface gi1/0/" + NatToString(p) != "interface gi1/0/" + NatToString(q)
  {
    NatToStringInjective(p, q);
    PrefixCancel("interface gi1/0/", NatToString(p), NatToString(q));
  }

  /** The interface line of every access port differs from that of every
      trunk port. */
  lemma AccessTrunkDisjoint(startVlan: nat, numElevPorts: nat, numTrunkPorts: nat, p: nat, j: nat)
    requires 1 <= p <= numElevPorts && j < numTrunkPorts
    ensures var c := ConfigLines(startVlan, numElevPorts, numTrunkPorts);
      var aj := 4 * numElevPorts + (3 + numElevPorts) * j;
      4 * (p - 1) < |c| && aj < |c| && c[4 * (p - 1)] != c[aj]
  {
    var c := ConfigLines(startVlan, numElevPorts, numTrunkPorts);
    TrunkPortLines(startVlan, numElevPorts, numTrunkPorts, j);
    AccessPortLines(startVlan, numElevPorts, numTrunkPorts, p);
    assert c[4 * (p - 1)] == c[4 * (p - 1) .. 4 * p][0];
    InterfaceLinesDiffer(p, numElevPorts + 1 + j);
  }

  /** Distinct trunk blocks name distinct interfaces. */
  lemma TrunkPortsDistinct(startVlan: nat, numElevPorts: nat, numTrunkPorts: nat, i: nat, j: nat)
    requires i < numTrunkPorts && j < numTrunkPorts && i != j
    ensures var c := ConfigLines(startVlan, numElevPorts, numTrunkPorts);
      var ai := 4 * numElevPorts + (3 + numElevPorts) * i;
      var aj := 4 * numElevPorts + (3 + numElevPorts) * j;
      ai < |c| && aj < |c| && c[ai] != c[aj]
  {
    TrunkPortLines(startVlan, numElevPorts, numTrunkPorts, i);
    TrunkPortLines(startVlan, numElevPorts, numTrunkPorts, j);
    InterfaceLinesDiffer(numElevPorts + 1 + i, numElevPorts + 1 + j);
  }

  lemma AccessBlockNewlineFree(port: nat, vlanId: nat)
    ensures NoSeparator(AccessBlock(port, vlanId), '\n')
  {
  }


  lemma TrunkBlockNewlineFree(port: nat, startVlan: nat, numElevPorts: nat)
    ensures NoSeparator(TrunkBlock(port, startVlan, numElevPorts), '\n')
  {
    NatToStringHasNoNewline(port);
    var adds := AllowedVlanAdds(startVlan, numElevPorts);
    forall k | 0 <= k < numElevPorts ensures '\n' !in adds[k] {
      NatToStringHasNoNewline(startVlan + k);
      assert adds[k] == AllowedVlanAdd(startVlan + k);
    }
    NoSeparatorConcat(TrunkHead(port), adds, '\n');
  }

  lemma ManagementAclNewlineFree()
    ensures NoSeparator(ManagementAcl, '\n')
  {
    ManagementVlanNewlineFree();
    ManagementInterfaceNewlineFree();
    ManagementAccessListNewlineFree();
    NoSeparatorConcat(ManagementVlan, ManagementInterface, '\n');
    NoSeparatorConcat(ManagementVlan + ManagementInterface, ManagementAccessList, '\n');
  }

  lemma ManagementVlanNewlineFree()
    ensures NoSeparator(ManagementVlan, '\n')
  {
  }

  lemma ManagementInterfaceNewlineFree()
    ensures NoSeparator(ManagementInterface, '\n')
  {
  }

  lemma ManagementAccessListNewlineFree()
    ensures NoSeparator(ManagementAccessList, '\n')
  {
  }


  /** No generated line contains a newline. */
  lemma ConfigLinesNewlineFree(startVlan: nat, numElevPorts: nat, numTrunkPorts: nat)
    ensures NoSeparator(ConfigLines(startVlan, numElevPorts, numTrunkPorts), '\n')
  {
    var access := AccessBlocks(startVlan, numElevPorts);
    forall i | 0 <= i < numElevPorts ensures NoSeparator(access[i], '\n') {
      AccessBlockNewlineFree(i + 1, startVlan + i);
    }
    var trunks := TrunkBlocks(startVlan, numElevPorts, numTrunkPorts);
    forall j | 0 <= j < numTrunkPorts ensures NoSeparator(trunks[j], '\n') {
      TrunkBlockNewlineFree(numElevPorts + 1 + j, startVlan, numElevPorts);
    }
    FlattenNoSeparator(access, '\n');
    FlattenNoSeparator(trunks, '\n');
    NoSeparatorConcat(Flatten(access), Flatten(trunks), '\n');
    ManagementAclNewlineFree();
    NoSeparatorConcat(Flatten(access) + Flatten(trunks), ManagementAcl, '\n');
  }

  /** Splitting the returned text on newlines gives back exactly the lines,
      and the text ends with the last line and no trailing newline. */
  lemma ConfigTextSplits(startVlan: nat, numElevPorts: nat, numTrunkPorts: nat)
    ensures var c := ConfigLines(startVlan, numElevPorts, numTrunkPorts);
      var text := Join(c, '\n');
      Split(text, '\n') == c
      && |text| >= 30 && text[|text| - 30 ..] == "access-list 10 deny ip any any"
      && text[|text| - 1] != '\n'
  {
    var c := ConfigLines(startVlan, numElevPorts, numTrunkPorts);
    ConfigLinesNewlineFree(startVlan, numElevPorts, numTrunkPorts);
    ManagementAclAtEnd(startVlan, numElevPorts, numTrunkPorts);
    SplitJoin(c, '\n');
    JoinEndsWithLastLine(c, '\n');
  }
}
