# Cisco switch configuration generator, modelled in Dafny

The repository is a small tool that configures Cisco 2960 switches whose
access ports are student ("elev") ports. One student access port is bound to
each student VLAN. The uplink ports are trunks with native VLAN 10, the
management VLAN. The logic is a generator that turns topology parameters
into an ordered list of IOS CLI lines. There are two variants:

- `generate_switch_config` (test1.py) emits, in order:
  - a hostname line;
  - the management interface on VLAN 10;
  - one `vlan` definition per student VLAN;
  - an 8-line block per access port, with port security and portfast;
  - a 6-line block per trunk port;
  - `end` and `write memory`.

  Its driver loop names switch `i` `SW{i}` and gives it the address `10.0.10.{i+1}`.
- `configure_switch` (test2.py) emits:
  - a 4-line block per access port;
  - per trunk port, three lines plus one `allowed vlan add` line per student VLAN;
  - a fixed management VLAN and access-list block.

  It then returns the lines joined with newlines.

Both variants allocate ports the same way. Access port `p` in `1 .. a` gets
VLAN `startVlan + p - 1`. The trunk ports take the next interface numbers,
`a + 1 .. a + t`.

Project layout:

- `decimal.dfy` (module `Decimal`): how an f-string prints a non-negative
  `int` (`NatToString`), and its inverse `ParseNat`.
- `text_lines.dfy` (module `TextLines`):
  - concatenating equal-sized blocks of lines (`Flatten`);
  - Python's `sep.join` (`Join`) and `str.split` (`Split`), with the round trip between them.
- `topology.dfy` (module `Topology`): the VLAN identifier range of
  section 9.6 of IEEE 802.1Q, which callers must respect.
- `switch_config.dfy` (module `SwitchConfig`): `generate_switch_config`.
  - The method builds the list with the source's three loops, appending
    line by line.
  - It is proved equal to the specification function `SwitchConfig`.
  - Lemmas state the layout, the port and VLAN allocation, and the
    distinctness facts.
  - The identity rule is modelled as `IdentityOf`.
- `configure_switch.dfy` (module `ConfigureSwitch`): `configure_switch`.
  - It follows the same scheme, including the nested loop over trunk ports
    and allowed VLANs.
  - The join is the function `Join`.
  - It is proved that splitting the returned text on newlines gives the
    lines back.

The methods take the start VLAN as an `int` and require the student VLAN
range to be valid when there is at least one access port. Neither generator
checks this. The specification functions and the lemmas take the start VLAN
as a `nat`. Without access ports no VLAN number is printed, so the methods
pass 0 in its place (`Topology.ElevVlanBase`), and
`StartVlanUnusedWithoutAccessPorts` shows that the choice does not matter.

## Model

| member | source | states |
|---|---|---|
| SwitchConfig.GenerateSwitchConfig | test1.py:20-94 | The returned list is `SwitchConfig`: the header, the VLAN definitions, the access-port blocks, the trunk blocks starting at interface `a + 1`, then `end` and `write memory`. It does not depend on `username` or `password`. |
| SwitchConfig.StartVlanUnusedWithoutAccessPorts | test1.py:55-75 | With no access ports, the list is the same for every start VLAN. |
| SwitchConfig.AppendVlanDefinitions | test1.py:55-59 | The loop appends `vlan v`, ` name elev v`, `exit` for each `v` from `startVlan` upwards, and changes nothing before them. |
| SwitchConfig.AppendAccessPorts | test1.py:64-75 | The loop appends, for each `i < a`, the 8-line block binding interface `i + 1` to VLAN `startVlan + i`. |
| SwitchConfig.AppendTrunkPorts | test1.py:80-88 | The loop appends one 6-line trunk block per interface `startTrunkPort + j`, for `j < t`. |
| SwitchConfig.VlanSection | test1.py:55-59 | The VLAN section has `3a` lines. Block `i` sits at offset `3i` and defines VLAN `startVlan + i`. |
| SwitchConfig.AccessSection | test1.py:64-75 | The access section has `8a` lines. Block `i` sits at offset `8i`. |
| SwitchConfig.TrunkSection | test1.py:81-88 | The trunk section has `6t` lines. Block `j` sits at offset `6j`. |
| SwitchConfig.SectionSizes | test1.py:55-88 | The three loop sections have `3a`, `8a` and `6t` lines. |
| SwitchConfig.SwitchConfigLength | test1.py:41-92 | The list has exactly `8 + 11a + 6t` lines. |
| SwitchConfig.SwitchConfigFrame | test1.py:41-92 | The first line is `hostname {hostname}`. The second-to-last is `end` and the last is `write memory`. |
| SwitchConfig.VlanDefinitionAt | test1.py:55-59 | Lines `6 + 3i .. 8 + 3i` are `vlan {startVlan+i}`, ` name elev{startVlan+i}`, `exit`. |
| SwitchConfig.VlanIdsAscending | test1.py:55-57 | The VLAN ids read back from the `vlan` lines are strictly ascending. |
| SwitchConfig.AccessPortAt | test1.py:64-75 | Lines `6 + 3a + 8i` onwards configure `GigabitEthernet0/{i+1}`: access mode on VLAN `startVlan + i`, port security with maximum 2 and violation restrict, portfast, `exit`. |
| SwitchConfig.AccessPortLines | test1.py:67-69 | The same block's interface line and `switchport access vlan` line. |
| SwitchConfig.AccessPortsDistinct | test1.py:64-69 | Distinct access ports name distinct interfaces and distinct VLANs. With AccessPortAt, this makes port to VLAN a bijection from `1 .. a` onto `startVlan .. startVlan + a - 1`. |
| SwitchConfig.TrunkPortAt | test1.py:80-88 | Lines `6 + 11a + 6j` onwards configure `GigabitEthernet0/{a+1+j}` as a dot1q trunk with native VLAN 10 and `allowed vlan all`. With `a = 0` the trunks start at interface 1. |
| SwitchConfig.TrunkInterfaceLine | test1.py:82-83 | The interface line of trunk `j` names interface `a + 1 + j`. |
| SwitchConfig.AccessTrunkDisjoint | test1.py:80-83 | No trunk interface line equals an access interface line. |
| SwitchConfig.TrunkPortsDistinct | test1.py:81-83 | Distinct trunk ports name distinct interfaces. |
| SwitchConfig.IdentityRoundTrip | test1.py:116-120 | `IdentityOf(i)`: switch `i` is named `SW` followed by the numeral of `i`, and its address is `10.0.10.` followed by the numeral of `i + 1`. Both numbers read back. |
| SwitchConfig.IdentitiesDistinct | test1.py:116-120 | Distinct switches get distinct hostnames, distinct addresses and distinct command lists. |
| ConfigureSwitch.ConfigureSwitch | test2.py:3-33 | The result is `Join` with `\n` of `ConfigLines`: the access blocks, the trunk blocks and the management block. Splitting it on newlines gives exactly those lines. It does not depend on `switch_id`. |
| ConfigureSwitch.BuildConfigLines | test2.py:4-31 | The list built before the join is `ConfigLines`: the access blocks, then the trunk blocks, then the 9 fixed management and access-list lines. |
| ConfigureSwitch.AppendAccessPorts | test2.py:7-12 | The loop appends the 4-line block of port `p` on VLAN `startVlan + p - 1` for `p` in `1 .. a`. |
| ConfigureSwitch.AppendTrunkPorts | test2.py:15-20 | The outer and inner loops append, for each trunk interface `a + 1 + j`, three fixed lines and one `allowed vlan add` line per student VLAN. |
| ConfigureSwitch.TrunkStep | test2.py:15-20 | One pass of the outer loop extends the list by exactly one trunk block. |
| ConfigureSwitch.StartVlanUnusedWithoutAccessPorts | test2.py:7-20 | With no access ports, the lines are the same for every start VLAN. |
| ConfigureSwitch.AccessSection | test2.py:7-12 | The access section has `4a` lines. Block `i` sits at offset `4i`. |
| ConfigureSwitch.TrunkSection | test2.py:15-20 | The trunk section has `(3 + a) t` lines. Block `j` sits at offset `(3 + a) j`. |
| ConfigureSwitch.SectionSizes | test2.py:7-20 | The two loop sections have `4a` and `(3 + a) t` lines. |
| ConfigureSwitch.ConfigLinesLength | test2.py:7-31 | The list has exactly `4a + t(3 + a) + 9` lines. |
| ConfigureSwitch.AccessPortLines | test2.py:7-12 | Lines `4(p-1) .. 4p-1` are `interface gi1/0/{p}`, ` switchport mode access`, ` switchport access vlan {startVlan+p-1}`, ` description elev{startVlan+p-1}`. |
| ConfigureSwitch.TrunkBlockAt | test2.py:15-20 | Trunk block `j` starts at line `4a + (3 + a) j` and names interface `a + 1 + j`. |
| ConfigureSwitch.TrunkPortLines | test2.py:16-18 | The first three lines of trunk block `j` are its interface line, trunk mode and native VLAN 10. |
| ConfigureSwitch.TrunkAllowedVlanAt | test2.py:19-20 | Line `3 + k` of every trunk block adds VLAN `startVlan + k`, so the allowed list is the student VLANs in ascending order. |
| ConfigureSwitch.ManagementAclAtEnd | test2.py:23-31 | The last 9 lines are the management block. The `permit ... host 192.168.10.1` entry is second-to-last, right before the final `deny ip any any`. |
| ConfigureSwitch.InterfaceLinesDiffer | test2.py:9-16 | Interface lines of different port numbers differ. |
| ConfigureSwitch.AccessTrunkDisjoint | test2.py:7-16 | No trunk interface line equals an access interface line. |
| ConfigureSwitch.TrunkPortsDistinct | test2.py:15-16 | Distinct trunk blocks name distinct interfaces. |
| ConfigureSwitch.AccessBlockNewlineFree | test2.py:9-12 | No line of an access block contains a newline. |
| ConfigureSwitch.TrunkBlockNewlineFree | test2.py:16-20 | No line of a trunk block contains a newline. |
| ConfigureSwitch.ManagementAclNewlineFree | test2.py:23-31 | No line of the management block contains a newline. |
| ConfigureSwitch.ConfigLinesNewlineFree | test2.py:7-31 | No generated line contains a newline. |
| ConfigureSwitch.ConfigTextSplits | test2.py:33 | Splitting the joined text on `\n` gives back exactly the lines. The text ends with `access-list 10 deny ip any any` and has no trailing newline. |
| TextLines.SplitJoin | test2.py:33 | `Join` models `"\n".join`. For at least one line and no line containing the separator, `split(join(lines))` is `lines`. |
| TextLines.JoinEndsWithLastLine | test2.py:33 | The joined text ends with the last line, with no separator after it. |
| TextLines.Split | test2.py:33 | Splitting always gives at least one piece, and no piece contains the separator. |
| TextLines.JoinSplit | test2.py:33 | Joining the pieces of any split gives the text back, so `Split` is the inverse of `Join`. |
| Decimal.NatToString | test1.py:56-57 | The numeral of `n` is non-empty, all digits, and has no leading zero unless `n` is 0. |
| Decimal.ParseNatToString | test1.py:57 | Reading the numeral of `n` back gives `n`. |
| Decimal.NatToStringInjective | test1.py:67 | Two numbers have the same numeral exactly when they are equal. |

## Left out

- Both `main` functions and all of their I/O: the `input()` prompts and `print` calls (test1.py:97-163), and `argparse` (test2.py:35-42). Only the identity rule of test1.py:116-120 is modelled.
- The Netmiko transport (`ConnectHandler`, `enable`, `send_config_set`, `disconnect`) and the per-switch `try/except` around it. This is network I/O through a library that is not part of this model.
- How a switch interprets the emitted CLI. The model covers only the text produced.
- VLAN range checking. The code has no error path and accepts any `start_vlan`, so the model has no error result. When there is at least one access port, the valid 802.1Q range is a precondition instead (`ValidElevVlanRange`: `1 <= startVlan` and `startVlan + a - 1 <= 4094`).
  - Outside this range the code prints VLAN numbers that are zero, negative or above 4094. The model does not cover those inputs.
  - For `a = 0` the code prints no VLAN number, and its output does not depend on `startVlan`. The model accepts every start VLAN then.
- Nothing keeps VLAN 10 out of the student range. With `startVlan <= 10 <= startVlan + a - 1`, VLAN 10 is both a student VLAN and the native VLAN, and the model, like the code, allows it.
- test1.py configures `interface vlan 10` but emits no management VLAN definition of its own. It defines VLAN 10 only when 10 falls in the student range, and then names it `elev10`. Only test2.py emits ` name Management`, and the model follows both.
- Negative port counts. The counts are `nat` here, so a negative count is not modelled.
  - Python's `range` over a negative bound is empty, so a negative access count gives no VLAN or access lines.
  - Both sources still emit the trunk blocks, numbered from `a + 1 <= 0` (test1.py:80-83, test2.py:15). The model does not cover those interface numbers.
- Address validity. For switch `i >= 255` the last octet `i + 1` exceeds 255. The code does not check this, and the model gives the address as the text the code prints.
- `Split` is not an operation of the source: it states what reading the joined text back means. It models Python's `str.split` for a one-character separator only.
