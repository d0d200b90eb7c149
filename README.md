# router-policy-to-config, modelled in Dafny

This project models the core of `router-policy-to-config`. That tool reads a
declarative router policy (WAN, LANs, WiFi, VPN, firewall, NAT) and checks it
semantically. It lowers the policy to a MikroTik RouterOS script and diffs
generated configurations against existing RouterOS exports and OpenWrt UCI
files. The project also models the two small repository tools that lint the CI
templates and the logging-stack configurations.

The model follows the source file by file:

- `model.dfy` (module `Model`): the policy dataclasses as datatypes. Their
  defaults are constructor defaults, and `Optional[...]` becomes `Option`.
- `ipv4.dfy` (module `IPv4`): the subset of Python's `ipaddress` the core uses.
  Addresses are naturals below 2^32. A network is its masked address and
  prefix, parsed with `strict=False`. Containment and overlap are arithmetic.
- `policy_validator.dfy` (module `PolicyValidation`): class `PolicyValidator`
  with `errors` and `warnings` as `seq` fields. Each `_check_*` method is a
  method whose contract says exactly what it appends. The appended issues are
  given by a specification function of the policy.
  `validator_properties.dfy` proves what those functions mean.
- `routeros_backend.dfy` (module `RouterOS`): class `RouterOSBackend` with its
  `commands` buffer. Each `_generate_*` method appends the lines of a
  specification function. The `wlan` interface name reads the buffer length at
  the moment of emission, as in the source.
  `routeros_properties.dfy` proves the emission rules: which line appears,
  under which condition, with which default.
- `routeros_diff.dfy` and `openwrt_diff.dfy`: the two diff engines. Each is a
  class over its read-only inputs, with loop methods proved against
  specification functions for:
  - normalisation and grouping (RouterOS);
  - the UCI section parser (OpenWrt);
  - the section set differences;
  - the summaries.
- `linediff.dfy` (module `LineDiff`): a longest-common-subsequence edit script.
  It stands in for `difflib.unified_diff`. The `+`/`-` line filter that both
  engines apply to the diff is modelled as written, so a deleted line whose
  text starts with `--` is not counted.
- `policy_loader.dfy` (module `PolicyLoader`): secret-reference resolution
  and the conversion of a parsed document (`Json`, from `json.dfy`) into a
  `Policy`, including every error path.
- `test_case_generator.dfy` (module `TestCases`): the deterministic test
  cases, the summary text, and the provider-then-basic ordering.
- `ci_templates.dfy` and `logging_configs.dfy`: the two tools' checks, as
  functions of the parsed document. `Json` stands in for what `yaml.safe_load`
  returns.
- `wrappers.dfy`, `seqs.dfy`, `strings.dfy`, `report.dfy`: shared helpers:
  - `Option`/`Result`;
  - flat-map and filter lemmas;
  - Python's `strip`, `split`, `join`, `in`, `upper`/`lower` and `str(int)`;
  - the `path: text` issue format.

Environment variables, file contents, the AI provider and the YAML parser's
output are all parameters of the model.

## Model

| member | source | states |
|---|---|---|
| Model.LanNames | router-policy-to-config/src/router_policy_to_config/policy_validator.py:108 | the LAN-name set holds every LAN's name and nothing else |
| Model.DHCPDefaults | router-policy-to-config/src/router_policy_to_config/model.py:45-51 | a DHCP block defaults to disabled, no range, lease "24h", no DNS servers |
| Model.FirewallDefaults | router-policy-to-config/src/router_policy_to_config/model.py:132-136 | the firewall defaults to policy "drop" with no rules |
| Model.NATDefaults | router-policy-to-config/src/router_policy_to_config/model.py:149-164 | NAT defaults to masquerade with no forwards; a forward defaults to tcp with no name |
| Model.MetaDefaults | router-policy-to-config/src/router_policy_to_config/model.py:13-26 | the target defaults to vendor "routeros" without a version; no description |
| Model.PolicyDefaults | router-policy-to-config/src/router_policy_to_config/model.py:168-183 | a policy defaults to no LANs, WiFi, VPNs, firewall, DNS or NAT |
| Model.WANDefaults | router-policy-to-config/src/router_policy_to_config/model.py:30-41 | a WAN defaults to no credentials, addresses, DNS or MTU |
| IPv4.ParseAddress | router-policy-to-config/src/router_policy_to_config/policy_validator.py:55 | a parsed dotted quad is below 2^32 |
| IPv4.ParseNetwork | router-policy-to-config/src/router_policy_to_config/policy_validator.py:39 | a parsed subnet (strict=False) is aligned to its prefix, prefix at most 32 |
| IPv4.InNetworkRange | router-policy-to-config/src/router_policy_to_config/policy_validator.py:57 | membership in a network is lying between its address and its broadcast address |
| IPv4.OverlapsIffShared | router-policy-to-config/src/router_policy_to_config/policy_validator.py:47 | two networks overlap iff they share an address |
| IPv4.OverlapsSymmetric | router-policy-to-config/src/router_policy_to_config/policy_validator.py:47 | overlap does not depend on the order of the two networks |
| IPv4.ParseFormatAddress | router-policy-to-config/src/router_policy_to_config/policy_validator.py:69-74 | parsing the dotted-quad rendering of an address gives it back |
| IPv4.ParseFormatNetwork | router-policy-to-config/src/router_policy_to_config/policy_validator.py:39-48 | parsing the a.b.c.d/p rendering of a network gives it back |
| PolicyValidation.Bullets | router-policy-to-config/src/router_policy_to_config/policy_validator.py:222-224 | one line per issue, line k being "  - " followed by issue k's text |
| PolicyValidation.PolicyValidator.constructor | router-policy-to-config/src/router_policy_to_config/policy_validator.py:23-32 | the validator holds the policy with empty error and warning lists |
| PolicyValidation.PolicyValidator.CheckLanSubnet | router-policy-to-config/src/router_policy_to_config/policy_validator.py:37-42 | one LAN's subnet either parses (yielding its (name, network) entry) or appends the invalid-subnet error; warnings unchanged |
| PolicyValidation.PolicyValidator.CheckOverlapsWith | router-policy-to-config/src/router_policy_to_config/policy_validator.py:45-48 | appends one overlap error for each later network overlapping the given one, in order; warnings unchanged |
| PolicyValidation.PolicyValidator.CheckSubnetOverlaps | router-policy-to-config/src/router_policy_to_config/policy_validator.py:34-48 | appends exactly the subnet errors of the policy (invalid subnets in LAN order, then overlapping pairs i<j); warnings unchanged |
| PolicyValidation.PolicyValidator.CheckGatewayInSubnet | router-policy-to-config/src/router_policy_to_config/policy_validator.py:50-60 | appends exactly the gateway errors: gateway outside subnet, or invalid IP when subnet or gateway does not parse |
| PolicyValidation.PolicyValidator.CheckLanDhcp | router-policy-to-config/src/router_policy_to_config/policy_validator.py:64-86 | appends one LAN's DHCP-range errors, only when DHCP is present, enabled and has a range |
| PolicyValidation.PolicyValidator.CheckRangeBounds | router-policy-to-config/src/router_policy_to_config/policy_validator.py:72-83 | appends start-outside, end-outside and start>=end errors for a parsed range |
| PolicyValidation.PolicyValidator.CheckDhcpRanges | router-policy-to-config/src/router_policy_to_config/policy_validator.py:62-86 | appends exactly the DHCP errors of all LANs in order; warnings unchanged |
| PolicyValidation.PolicyValidator.CheckWanRequiredFields | router-policy-to-config/src/router_policy_to_config/policy_validator.py:88-104 | appends the WAN errors and warnings for pppoe/static, nothing for other types |
| PolicyValidation.PolicyValidator.CheckWifiLanReferences | router-policy-to-config/src/router_policy_to_config/policy_validator.py:106-118 | appends unknown-LAN errors and missing-password warnings for PSK networks |
| PolicyValidation.PolicyValidator.CheckIsolationReferences | router-policy-to-config/src/router_policy_to_config/policy_validator.py:120-129 | appends one error per isolated_from name that is not a LAN name |
| PolicyValidation.PolicyValidator.CheckLanIsolation | router-policy-to-config/src/router_policy_to_config/policy_validator.py:124-129 | appends one LAN's isolation errors |
| PolicyValidation.PolicyValidator.CheckZones | router-policy-to-config/src/router_policy_to_config/policy_validator.py:144-150 | appends one unknown-zone error per zone of one side of a rule that is not valid |
| PolicyValidation.PolicyValidator.CheckRule | router-policy-to-config/src/router_policy_to_config/policy_validator.py:143-150 | appends a rule's 'from' errors then its 'to' errors |
| PolicyValidation.PolicyValidator.CheckFirewallZoneReferences | router-policy-to-config/src/router_policy_to_config/policy_validator.py:131-150 | nothing without a firewall; otherwise unknown-zone errors against {wan} plus LAN names plus vpn when VPNs exist |
| PolicyValidation.PolicyValidator.CheckVpnConflicts | router-policy-to-config/src/router_policy_to_config/policy_validator.py:152-166 | appends duplicate-port errors and privileged-port warnings for server VPNs with a port |
| PolicyValidation.PolicyValidator.CheckForward | router-policy-to-config/src/router_policy_to_config/policy_validator.py:182-198 | one forward: invalid-IP error, or outside-all-LANs warning |
| PolicyValidation.PolicyValidator.CheckNatPortForwards | router-policy-to-config/src/router_policy_to_config/policy_validator.py:168-198 | nothing without NAT or forwards; otherwise the forward errors and warnings in order |
| PolicyValidation.PolicyValidator.Validate | router-policy-to-config/src/router_policy_to_config/policy_validator.py:200-225 | errors and warnings are rebuilt from scratch as the nine checks in order; the outcome fails with the bulleted message exactly when there are errors |
| PolicyValidation.PolicyValidator.GetWarnings | router-policy-to-config/src/router_policy_to_config/policy_validator.py:227-229 | returns the warnings list unchanged |
| PolicyValidation.LanNetworks | router-policy-to-config/src/router_policy_to_config/policy_validator.py:174-180 | the (name, network) entries of the LANs whose subnet parses, in order |
| PolicyValidation.FindNetwork | router-policy-to-config/src/router_policy_to_config/policy_validator.py:185-190 | found iff the address lies in some network of the list |
| PolicyValidation.ValidatePolicy | router-policy-to-config/src/router_policy_to_config/policy_validator.py:232-244 | the outcome of validating a fresh validator; it fails iff the policy has errors |
| ValidatorProperties.NetworksMember | router-policy-to-config/src/router_policy_to_config/policy_validator.py:37-40 | a (name, network) entry is listed iff some LAN of that name has that parsed subnet |
| ValidatorProperties.OverlapIssuesAreOverlaps | router-policy-to-config/src/router_policy_to_config/policy_validator.py:45-48 | the pair loop only produces overlap errors |
| ValidatorProperties.OverlapIssuesIff | router-policy-to-config/src/router_policy_to_config/policy_validator.py:45-48 | an overlap error for (a, b) is reported iff a comes before b in the list and they overlap |
| ValidatorProperties.NoOverlapIffPairwise | router-policy-to-config/src/router_policy_to_config/policy_validator.py:45-48 | no overlap errors iff no pair i<j overlaps |
| ValidatorProperties.NoOverlapIffDisjoint | router-policy-to-config/src/router_policy_to_config/policy_validator.py:45-48 | no overlap errors iff no two listed networks share an address |
| ValidatorProperties.InvalidSubnetIff | router-policy-to-config/src/router_policy_to_config/policy_validator.py:37-42 | an invalid-subnet error names a LAN iff that LAN's subnet does not parse |
| ValidatorProperties.OverlapMessageNamesBoth | router-policy-to-config/src/router_policy_to_config/policy_validator.py:48 | the overlap message names both LANs |
| ValidatorProperties.GatewayOutsideIff | router-policy-to-config/src/router_policy_to_config/policy_validator.py:52-60 | the "not in subnet" error naming a LAN's gateway and subnet is reported exactly when that LAN's subnet and gateway parse and the gateway lies outside the subnet |
| ValidatorProperties.InvalidIpIff | router-policy-to-config/src/router_policy_to_config/policy_validator.py:52-60 | an invalid-IP error names a LAN iff its subnet or gateway does not parse |
| ValidatorProperties.GatewaysClean | router-policy-to-config/src/router_policy_to_config/policy_validator.py:50-60 | no gateway errors iff every LAN's subnet and gateway parse and the gateway is inside |
| ValidatorProperties.DhcpOnlyWhenChecked | router-policy-to-config/src/router_policy_to_config/policy_validator.py:65 | every DHCP error comes from a LAN with DHCP enabled and a range |
| ValidatorProperties.BoundsOutcomes | router-policy-to-config/src/router_policy_to_config/policy_validator.py:72-83 | each of the three range errors is reported iff its condition holds; none iff both ends inside and start<end |
| ValidatorProperties.DhcpRangeOutcomes | router-policy-to-config/src/router_policy_to_config/policy_validator.py:66-86 | a range that splits into two parsable addresses under a parsable subnet gets the bound checks; otherwise the single invalid-range error |
| ValidatorProperties.DhcpUnchecked | router-policy-to-config/src/router_policy_to_config/policy_validator.py:65 | no DHCP errors for a LAN without an enabled range |
| ValidatorProperties.PasswordOnlyWarns | router-policy-to-config/src/router_policy_to_config/policy_validator.py:92-96 | password_ref never affects errors; for pppoe the warning appears iff it is unset |
| ValidatorProperties.PppoeUsername | router-policy-to-config/src/router_policy_to_config/policy_validator.py:93-94 | for pppoe, the username error appears iff the username is unset |
| ValidatorProperties.StaticAndOtherWan | router-policy-to-config/src/router_policy_to_config/policy_validator.py:98-104 | for static, one error per missing ip/netmask/gateway and no warnings; other types give nothing |
| ValidatorProperties.LanNameIff | router-policy-to-config/src/router_policy_to_config/policy_validator.py:108 | the LAN-name set is exactly the names of the LANs |
| ValidatorProperties.WifiUnknownLanIff | router-policy-to-config/src/router_policy_to_config/policy_validator.py:110-112 | an unknown-LAN error for (wifi, lan) iff such a WiFi exists and no LAN has that name |
| ValidatorProperties.WifiPasswordWarningIff | router-policy-to-config/src/router_policy_to_config/policy_validator.py:114-118 | the WiFi password warning iff the WiFi has PSK security without password_ref |
| ValidatorProperties.IsolationIff | router-policy-to-config/src/router_policy_to_config/policy_validator.py:120-129 | an isolation error for (lan, other) iff lan lists other and no LAN is named other |
| ValidatorProperties.ValidZoneIff | router-policy-to-config/src/router_policy_to_config/policy_validator.py:136-141 | valid zones are exactly wan, the LAN names, and vpn when VPNs exist |
| ValidatorProperties.NoFirewallNoZoneErrors | router-policy-to-config/src/router_policy_to_config/policy_validator.py:133-134 | no firewall section means no zone errors |
| ValidatorProperties.UnknownZoneIff | router-policy-to-config/src/router_policy_to_config/policy_validator.py:143-150 | an unknown-zone error iff some rule of that name lists an invalid zone on that side |
| ValidatorProperties.DuplicatePortCount | router-policy-to-config/src/router_policy_to_config/policy_validator.py:156-161 | along the loop, a port occurring c times among server ports gives c-1 duplicate errors (c if already seen) |
| ValidatorProperties.DuplicatePortErrors | router-policy-to-config/src/router_policy_to_config/policy_validator.py:152-161 | a port occurring c times gives c-1 duplicate errors; reported iff it occurs at least twice |
| ValidatorProperties.PrivilegedPortIff | router-policy-to-config/src/router_policy_to_config/policy_validator.py:163-166 | the privileged warning for a port iff some server VPN has that port below 1024 |
| ValidatorProperties.UncheckedForwards | router-policy-to-config/src/router_policy_to_config/policy_validator.py:170-171 | without NAT forwards there are no NAT errors or warnings |
| ValidatorProperties.InSomeNetworkIff | router-policy-to-config/src/router_policy_to_config/policy_validator.py:174-190 | an address is in some collected network iff some LAN's subnet parses and contains it |
| ValidatorProperties.InvalidForwardIff | router-policy-to-config/src/router_policy_to_config/policy_validator.py:183-198 | an invalid-internal-IP error iff forwards are checked and some forward has that unparsable IP |
| ValidatorProperties.ForwardReachMember | router-policy-to-config/src/router_policy_to_config/policy_validator.py:184-196 | one forward warns iff its IP parses and lies in no network |
| ValidatorProperties.ForwardOutsideIff | router-policy-to-config/src/router_policy_to_config/policy_validator.py:182-196 | the outside-LAN warning iff some forward has that parsable IP lying in no parsed LAN subnet |
| ValidatorProperties.ForwardOutsideNotError | router-policy-to-config/src/router_policy_to_config/policy_validator.py:192-196 | the outside-LAN finding is a warning, never an error |
| ValidatorProperties.OutcomeFailsIffErrors | router-policy-to-config/src/router_policy_to_config/policy_validator.py:221-225 | validation fails iff there are errors |
| ValidatorProperties.BulletsContain | router-policy-to-config/src/router_policy_to_config/policy_validator.py:222 | the bulleted list contains every issue's text |
| ValidatorProperties.MessageListsEverything | router-policy-to-config/src/router_policy_to_config/policy_validator.py:221-225 | a failing message contains every error's and every warning's text |
| RouterOS.MapZones | router-policy-to-config/src/router_policy_to_config/backends/routeros_backend.py:256-272 | each zone maps to the egress for "wan", wireguard1 for "vpn", bridge-lan otherwise, in order |
| RouterOS.RouterOSBackend.constructor | router-policy-to-config/src/router_policy_to_config/backends/routeros_backend.py:16-25 | the backend holds the policy, no commands, and the target version or "v7" |
| RouterOS.RouterOSBackend.AddComment | router-policy-to-config/src/router_policy_to_config/backends/routeros_backend.py:27-29 | appends exactly "# " followed by the text |
| RouterOS.RouterOSBackend.AddCommand | router-policy-to-config/src/router_policy_to_config/backends/routeros_backend.py:31-33 | appends exactly the command |
| RouterOS.RouterOSBackend.AddBlank | router-policy-to-config/src/router_policy_to_config/backends/routeros_backend.py:35-37 | appends exactly one empty line |
| RouterOS.RouterOSBackend.GenerateMtu | router-policy-to-config/src/router_policy_to_config/backends/routeros_backend.py:59-60 | appends the pppoe MTU line only when the MTU is set and non-zero |
| RouterOS.RouterOSBackend.GenerateRoute | router-policy-to-config/src/router_policy_to_config/backends/routeros_backend.py:76-77 | appends the default route only when a static gateway is set |
| RouterOS.RouterOSBackend.GenerateDns | router-policy-to-config/src/router_policy_to_config/backends/routeros_backend.py:79-82 | appends one DNS line with all servers joined, only when servers exist (the loop breaks after one) |
| RouterOS.RouterOSBackend.GenerateWanBody | router-policy-to-config/src/router_policy_to_config/backends/routeros_backend.py:45-82 | appends the pppoe, dhcp or static commands; nothing for other WAN types |
| RouterOS.RouterOSBackend.GenerateWan | router-policy-to-config/src/router_policy_to_config/backends/routeros_backend.py:39-84 | appends the WAN comment, body and blank line |
| RouterOS.RouterOSBackend.GenerateVlan | router-policy-to-config/src/router_policy_to_config/backends/routeros_backend.py:100-107 | appends the VLAN line when vlan_id is set; returns vlan-<name> or bridge-lan |
| RouterOS.RouterOSBackend.GenerateLanAddress | router-policy-to-config/src/router_policy_to_config/backends/routeros_backend.py:109-117 | appends the gateway address with the parsed prefix, /24 when the subnet does not parse |
| RouterOS.RouterOSBackend.GenerateDhcpNetwork | router-policy-to-config/src/router_policy_to_config/backends/routeros_backend.py:137-151 | appends the DHCP network line only when the subnet parses; DNS is the joined servers or the gateway |
| RouterOS.RouterOSBackend.GenerateLanDhcp | router-policy-to-config/src/router_policy_to_config/backends/routeros_backend.py:120-151 | appends pool, server and network lines only when DHCP is present and enabled; range defaults to 192.168.1.100-192.168.1.200 |
| RouterOS.RouterOSBackend.GenerateLan | router-policy-to-config/src/router_policy_to_config/backends/routeros_backend.py:97-153 | appends one LAN's comment, VLAN, address, DHCP lines and blank in that order |
| RouterOS.RouterOSBackend.GenerateLans | router-policy-to-config/src/router_policy_to_config/backends/routeros_backend.py:86-153 | nothing without LANs; otherwise header, bridge, blank, then every LAN's entry |
| RouterOS.RouterOSBackend.GenerateLanEntries | router-policy-to-config/src/router_policy_to_config/backends/routeros_backend.py:97-153 | appends the entries of the LANs in order |
| RouterOS.RouterOSBackend.GenerateMasquerade | router-policy-to-config/src/router_policy_to_config/backends/routeros_backend.py:163-170 | appends the masquerade rule when NAT is absent or masquerade is on |
| RouterOS.RouterOSBackend.GenerateForwards | router-policy-to-config/src/router_policy_to_config/backends/routeros_backend.py:174-188 | appends one dst-nat line per forward, with "both" as tcp,udp and the name as comment when set |
| RouterOS.RouterOSBackend.GeneratePortForwards | router-policy-to-config/src/router_policy_to_config/backends/routeros_backend.py:173-188 | appends the forward lines of the policy's NAT block |
| RouterOS.RouterOSBackend.GenerateNat | router-policy-to-config/src/router_policy_to_config/backends/routeros_backend.py:155-190 | appends the NAT comment, masquerade, forwards and blank |
| RouterOS.RouterOSBackend.MatchParts | router-policy-to-config/src/router_policy_to_config/backends/routeros_backend.py:274-288 | the in/out interface, protocol and port parts between chain and action, each only when present |
| RouterOS.RouterOSBackend.GenerateRule | router-policy-to-config/src/router_policy_to_config/backends/routeros_backend.py:253-294 | appends the one joined filter line of a rule |
| RouterOS.RouterOSBackend.GenerateRules | router-policy-to-config/src/router_policy_to_config/backends/routeros_backend.py:251-294 | appends one filter line per rule in order |
| RouterOS.RouterOSBackend.GenerateCustomRules | router-policy-to-config/src/router_policy_to_config/backends/routeros_backend.py:250-294 | appends the rule lines only when a firewall section exists |
| RouterOS.RouterOSBackend.GenerateDefaultDrop | router-policy-to-config/src/router_policy_to_config/backends/routeros_backend.py:297-304 | appends the default drop when there is no firewall or its policy is "drop" |
| RouterOS.RouterOSBackend.GenerateBaseline | router-policy-to-config/src/router_policy_to_config/backends/routeros_backend.py:198-247 | appends the six fixed input/forward protection rules |
| RouterOS.RouterOSBackend.GenerateFirewall | router-policy-to-config/src/router_policy_to_config/backends/routeros_backend.py:192-306 | appends comment, baseline, custom rules, default drop and blank |
| RouterOS.RouterOSBackend.GenerateProfile | router-policy-to-config/src/router_policy_to_config/backends/routeros_backend.py:317-330 | appends a security profile only for wpa2-psk security; password defaults to the placeholder |
| RouterOS.RouterOSBackend.WirelessCommand | router-policy-to-config/src/router_policy_to_config/backends/routeros_backend.py:336-352 | the wireless parts: fixed parts, then channel width, profile and hidden parts each when set |
| RouterOS.RouterOSBackend.GenerateWifiEntry | router-policy-to-config/src/router_policy_to_config/backends/routeros_backend.py:315-354 | appends the profile and the wireless line; the interface is wlan followed by the command count at that point |
| RouterOS.RouterOSBackend.GenerateWifiEntries | router-policy-to-config/src/router_policy_to_config/backends/routeros_backend.py:315-354 | appends every WiFi's entry, threading the command count |
| RouterOS.RouterOSBackend.GenerateWifi | router-policy-to-config/src/router_policy_to_config/backends/routeros_backend.py:308-356 | nothing without WiFi; otherwise header, entries and blank |
| RouterOS.RouterOSBackend.GeneratePeers | router-policy-to-config/src/router_policy_to_config/backends/routeros_backend.py:389-399 | appends one peer line per peer; key and allowed addresses default to placeholders |
| RouterOS.RouterOSBackend.GenerateVpnAddress | router-policy-to-config/src/router_policy_to_config/backends/routeros_backend.py:384-386 | appends the first allowed IP as interface address, only when there are allowed IPs |
| RouterOS.RouterOSBackend.InterfaceCommand | router-policy-to-config/src/router_policy_to_config/backends/routeros_backend.py:369-379 | name and private key parts, plus listen port for a server with a port |
| RouterOS.RouterOSBackend.GenerateWireguard | router-policy-to-config/src/router_policy_to_config/backends/routeros_backend.py:364-401 | appends the WireGuard comment, interface, address, peers and blank |
| RouterOS.RouterOSBackend.GenerateVpnEntry | router-policy-to-config/src/router_policy_to_config/backends/routeros_backend.py:363-401 | appends a WireGuard entry for wireguard VPNs, nothing for other types |
| RouterOS.RouterOSBackend.GenerateVpn | router-policy-to-config/src/router_policy_to_config/backends/routeros_backend.py:358-401 | appends the entries of every VPN in order |
| RouterOS.RouterOSBackend.GenerateHeader | router-policy-to-config/src/router_policy_to_config/backends/routeros_backend.py:417-425 | appends the nine header lines naming the policy and version |
| RouterOS.RouterOSBackend.GenerateFooter | router-policy-to-config/src/router_policy_to_config/backends/routeros_backend.py:435-438 | appends the four footer lines |
| RouterOS.RouterOSBackend.Generate | router-policy-to-config/src/router_policy_to_config/backends/routeros_backend.py:403-438 | commands are rebuilt from scratch, and the script is their newline join |
| RouterOSProperties.GenerateTwice | router-policy-to-config/src/router_policy_to_config/backends/routeros_backend.py:403-417 | generating twice gives the same script, because commands are reset first |
| RouterOSProperties.HeaderNamesPolicy | router-policy-to-config/src/router_policy_to_config/backends/routeros_backend.py:417-425 | the header has nine lines naming the policy and the target version (default v7) |
| RouterOSProperties.ScriptFrame | router-policy-to-config/src/router_policy_to_config/backends/routeros_backend.py:417-438 | every script starts with the header and ends with the footer |
| RouterOSProperties.PppoeSection | router-policy-to-config/src/router_policy_to_config/backends/routeros_backend.py:45-60 | a pppoe WAN gives the client line, the MTU line iff an MTU is set, and the password placeholder when no password_ref |
| RouterOSProperties.StaticDns | router-policy-to-config/src/router_policy_to_config/backends/routeros_backend.py:79-82 | a static WAN emits at most one DNS line, present iff DNS servers exist, listing all of them |
| RouterOSProperties.BridgeOnce | router-policy-to-config/src/router_policy_to_config/backends/routeros_backend.py:88-95 | LANs produce no lines when absent; otherwise the bridge line appears exactly once |
| RouterOSProperties.AddressPrefix | router-policy-to-config/src/router_policy_to_config/backends/routeros_backend.py:110-117 | the LAN address prefix is the subnet's prefix, or 24 when the subnet does not parse |
| RouterOSProperties.LanEntryOrder | router-policy-to-config/src/router_policy_to_config/backends/routeros_backend.py:97-153 | a LAN entry is comment, optional VLAN line, address line on the right interface, then DHCP lines |
| RouterOSProperties.DhcpOrder | router-policy-to-config/src/router_policy_to_config/backends/routeros_backend.py:120-151 | DHCP lines appear only when enabled: pool, server, then the network line when the subnet parses |
| RouterOSProperties.NatShape | router-policy-to-config/src/router_policy_to_config/backends/routeros_backend.py:155-190 | NAT is comment, masquerade line iff masquerading, one forward line per forward in order, blank |
| RouterOSProperties.NatForwardAt | router-policy-to-config/src/router_policy_to_config/backends/routeros_backend.py:174-188 | forward k's line sits right after the masquerade line |
| RouterOSProperties.MasqueradeIff | router-policy-to-config/src/router_policy_to_config/backends/routeros_backend.py:163-170 | the masquerade line appears iff NAT is absent or masquerade is on |
| RouterOSProperties.ForwardInInterface | router-policy-to-config/src/router_policy_to_config/backends/routeros_backend.py:179-186 | each forward line names the WAN egress as in-interface |
| RouterOSProperties.FirewallShape | router-policy-to-config/src/router_policy_to_config/backends/routeros_backend.py:192-306 | firewall is comment, six baseline rules, one line per rule in order, default drop iff dropping, blank |
| RouterOSProperties.RuleShape | router-policy-to-config/src/router_policy_to_config/backends/routeros_backend.py:253-294 | a rule line has chain, in/out interfaces from the first zones, optional protocol and port, action, and comment or name |
| RouterOSProperties.WirelessLinePosition | router-policy-to-config/src/router_policy_to_config/backends/routeros_backend.py:315-354 | a WiFi entry is an optional profile plus a wireless line whose interface is wlan followed by its own position |
| RouterOSProperties.EntryWirelessLine | router-policy-to-config/src/router_policy_to_config/backends/routeros_backend.py:333-354 | only the last line of an entry is a wireless line, and it names its position |
| RouterOSProperties.WirelessNamesArePositions | router-policy-to-config/src/router_policy_to_config/backends/routeros_backend.py:333 | every wireless line in the WiFi section is named wlan followed by its line number in the script |
| RouterOSProperties.SecurityProfilePart | router-policy-to-config/src/router_policy_to_config/backends/routeros_backend.py:348-349 | the wireless line references a profile iff the WiFi has security |
| RouterOSProperties.VpnEntryIff | router-policy-to-config/src/router_policy_to_config/backends/routeros_backend.py:364 | a VPN produces lines iff it is wireguard |
| RouterOSProperties.ListenPortIff | router-policy-to-config/src/router_policy_to_config/backends/routeros_backend.py:378-379 | the listen-port part appears iff the VPN is a server with a port |
| RouterOSProperties.WireguardShape | router-policy-to-config/src/router_policy_to_config/backends/routeros_backend.py:364-401 | WireGuard is comment, interface line, optional address, one peer line per peer with defaults, blank |
| PolicyLoader.ResolveKeepsShape | router-policy-to-config/src/router_policy_to_config/policy_loader.py:79-92 | resolution keeps every dict's keys and every list's length, changing only strings |
| PolicyLoader.ResolvedStringPlain | router-policy-to-config/src/router_policy_to_config/policy_loader.py:80-86 | with no environment value starting with "secret:", a resolved string never starts with "secret:" |
| PolicyLoader.ResolvedHasNoRefs | router-policy-to-config/src/router_policy_to_config/policy_loader.py:79-92 | under the same condition, no secret reference is left anywhere in the resolved data |
| PolicyLoader.PlainUnchanged | router-policy-to-config/src/router_policy_to_config/policy_loader.py:79-92 | data without secret references is returned unchanged |
| PolicyLoader.ResolveIdempotent | router-policy-to-config/src/router_policy_to_config/policy_loader.py:79-92 | resolving twice gives the same result as resolving once, under the same condition |
| PolicyLoader.ResolveReference | router-policy-to-config/src/router_policy_to_config/policy_loader.py:80-86 | "secret:name" becomes the value of SECRET_ followed by the upper-cased name, or the <SECRET_..._NOT_SET> placeholder when unset |
| PolicyLoader.RemoveLeading | router-policy-to-config/src/router_policy_to_config/policy_loader.py:81 | removing every "secret:" drops a leading occurrence |
| PolicyLoader.RemoveAbsent | router-policy-to-config/src/router_policy_to_config/policy_loader.py:81 | replace leaves a string without ':' unchanged |
| PolicyLoader.StringItems | router-policy-to-config/src/router_policy_to_config/policy_loader.py:217 | a list of strings is accepted only when every item is a string, keeping order and length |
| PolicyLoader.ParseAllSpec | router-policy-to-config/src/router_policy_to_config/policy_loader.py:204-219 | parsing a list succeeds iff every item parses, and then gives each item's value in input order |
| PolicyLoader.ParseAllFailsEarly | router-policy-to-config/src/router_policy_to_config/policy_loader.py:204-219 | the first failing item decides the error; later items are not looked at |
| PolicyLoader.ListOfSpec | router-policy-to-config/src/router_policy_to_config/policy_loader.py:205 | a missing list key acts as the empty list, and each parsed entry comes from the item at the same index |
| PolicyLoader.IfPresentSpec | router-policy-to-config/src/router_policy_to_config/policy_loader.py:259-311 | an optional section is None iff its key is absent; otherwise it is the parse of the section |
| PolicyLoader.BuildParts | router-policy-to-config/src/router_policy_to_config/policy_loader.py:177-322 | a built policy consists of the parsed head, the three lists and the three optional blocks |
| PolicyLoader.HeadParts | router-policy-to-config/src/router_policy_to_config/policy_loader.py:177-201 | meta and wan are required keys, parsed into the policy's meta and WAN |
| PolicyLoader.EntriesParts | router-policy-to-config/src/router_policy_to_config/policy_loader.py:203-257 | LANs, WiFi and VPNs are each the parsed list at their key |
| PolicyLoader.BlocksParts | router-policy-to-config/src/router_policy_to_config/policy_loader.py:259-311 | firewall, DNS and NAT are each the optional block at their key |
| PolicyLoader.ShapeItems | router-policy-to-config/src/router_policy_to_config/policy_loader.py:79-92 | resolution keeps top-level keys and the length of every list |
| PolicyLoader.ListsInInputOrder | router-policy-to-config/src/router_policy_to_config/policy_loader.py:203-257 | the LAN, WiFi and VPN lists have the input lists' lengths, item i parsed from input item i |
| PolicyLoader.AbsentIffKeyAbsent | router-policy-to-config/src/router_policy_to_config/policy_loader.py:259-311 | firewall, DNS and NAT are None iff their key is absent from the document |
| PolicyLoader.LanDhcpIffKey | router-policy-to-config/src/router_policy_to_config/policy_loader.py:206-208 | a LAN's DHCP block is None iff the "dhcp" key is absent |
| PolicyLoader.DhcpDefaults | router-policy-to-config/src/router_policy_to_config/policy_loader.py:138-145 | missing enabled, lease_time and dns_servers default to False, "24h" and [] |
| PolicyLoader.WifiDefaults | router-policy-to-config/src/router_policy_to_config/policy_loader.py:235-236 | missing hidden and guest default to False |
| PolicyLoader.FirewallDefaults | router-policy-to-config/src/router_policy_to_config/policy_loader.py:260-279 | a missing default_policy becomes "drop"; rules parsed in order |
| PolicyLoader.NatDefaults | router-policy-to-config/src/router_policy_to_config/policy_loader.py:297-309 | a missing forward protocol becomes "tcp"; a missing masquerade becomes True |
| PolicyLoader.WanPassword | router-policy-to-config/src/router_policy_to_config/policy_loader.py:196 | the WAN password_ref is the document's optional string |
| PolicyLoader.PortAsStored | router-policy-to-config/src/router_policy_to_config/policy_loader.py:271 | a loaded firewall port is set exactly when the value Python stores is truthy (so `port: 0` is absent, as the backend's truthiness test treats it), and then it is that value's f-string text |
| PolicyLoader.SecretsResolvedFirst | router-policy-to-config/src/router_policy_to_config/policy_loader.py:175-196 | the WAN password_ref in the model is the secret-resolved document value |
| PolicyLoader.Loader.ResolveSecrets | router-policy-to-config/src/router_policy_to_config/policy_loader.py:65-92 | resolution keeps the data's shape and, under the plain-environment condition, leaves no secret reference |
| PolicyLoader.Loader.ParseEach | router-policy-to-config/src/router_policy_to_config/policy_loader.py:204-219 | the loop over a list gives exactly the all-or-first-error parse of its items |
| PolicyLoader.Loader.LoadList | router-policy-to-config/src/router_policy_to_config/policy_loader.py:204-205 | loads the list at a key, missing meaning empty |
| PolicyLoader.Loader.LoadEntries | router-policy-to-config/src/router_policy_to_config/policy_loader.py:203-257 | loads the LAN, WiFi and VPN lists in that order |
| PolicyLoader.Loader.LoadBlocks | router-policy-to-config/src/router_policy_to_config/policy_loader.py:259-311 | loads the firewall, DNS and NAT blocks in that order |
| PolicyLoader.Loader.ToModel | router-policy-to-config/src/router_policy_to_config/policy_loader.py:164-322 | the loaded policy is the resolution of the data followed by the field-by-field conversion, including every error path |
| PolicyLoader.SecurityFields | router-policy-to-config/src/router_policy_to_config/policy_loader.py:147-154 | security requires an encryption string (else the missing-key error); password and RADIUS references are None when absent |
| PolicyLoader.PeerFields | router-policy-to-config/src/router_policy_to_config/policy_loader.py:156-162 | a peer requires a name (else the missing-key error); the key reference is None and allowed IPs empty when absent |
| RouterOSDiffEngine.BeforeComment | router-policy-to-config/src/router_policy_to_config/diff/routeros_diff.py:36 | the text kept before a comment is a prefix of the line without '#', cut exactly at the first '#' |
| RouterOSDiffEngine.NormalizedAreNormal | router-policy-to-config/src/router_policy_to_config/diff/routeros_diff.py:27-42 | every normalized line is non-empty, stripped and free of '#' and newlines |
| RouterOSDiffEngine.NormalLineFixed | router-policy-to-config/src/router_policy_to_config/diff/routeros_diff.py:34-41 | a line that is already normal normalizes to itself |
| RouterOSDiffEngine.NormalizeNormal | router-policy-to-config/src/router_policy_to_config/diff/routeros_diff.py:27-42 | normalizing the newline join of normal lines gives those lines back |
| RouterOSDiffEngine.NormalizeIdempotent | router-policy-to-config/src/router_policy_to_config/diff/routeros_diff.py:27-42 | normalizing is idempotent through a newline join |
| RouterOSDiffEngine.FiledShape | router-policy-to-config/src/router_policy_to_config/diff/routeros_diff.py:60-67 | filing a line appends it to its own section only, keeping section order distinct and in step with the keys |
| RouterOSDiffEngine.GroupedCurrent | router-policy-to-config/src/router_policy_to_config/diff/routeros_diff.py:51-63 | after any prefix of lines, the current section is that of the last command, or "general" |
| RouterOSDiffEngine.GroupedGroups | router-policy-to-config/src/router_policy_to_config/diff/routeros_diff.py:50-67 | each section holds exactly the lines owned by it, in input order |
| RouterOSDiffEngine.GroupedOrder | router-policy-to-config/src/router_policy_to_config/diff/routeros_diff.py:60-66 | sections are recorded once each, exactly the keys of the grouping |
| RouterOSDiffEngine.CommandFiled | router-policy-to-config/src/router_policy_to_config/diff/routeros_diff.py:55-67 | every normalized line is filed somewhere |
| RouterOSDiffEngine.CommandSection | router-policy-to-config/src/router_policy_to_config/diff/routeros_diff.py:55-59 | a line starting with '/' opens the section named by the second '/'-piece of its first token |
| RouterOSDiffEngine.EveryLineFiled | router-policy-to-config/src/router_policy_to_config/diff/routeros_diff.py:44-69 | every normalized line has an owning section, whose group is all lines owned by it |
| RouterOSDiffEngine.ChangesWithinAdd | router-policy-to-config/src/router_policy_to_config/diff/routeros_diff.py:108-119 | looking at one more section adds it exactly when its command sets differ, with both set differences |
| RouterOSDiffEngine.ChangesAlongSpec | router-policy-to-config/src/router_policy_to_config/diff/routeros_diff.py:108-119 | the loop over distinct section names computes the set-based changes of those names |
| RouterOSDiffEngine.ChangesAlongAll | router-policy-to-config/src/router_policy_to_config/diff/routeros_diff.py:105-119 | over all section names the loop computes exactly the section changes, listing each changed section once |
| RouterOSDiffEngine.SameSectionsNoChanges | router-policy-to-config/src/router_policy_to_config/diff/routeros_diff.py:108-119 | identical groupings have no section changes |
| RouterOSDiffEngine.SectionListedIff | router-policy-to-config/src/router_policy_to_config/diff/routeros_diff.py:108-119 | a section is listed iff some command is in one side's group but not the other's |
| RouterOSDiffEngine.SameLinesNoChanges | router-policy-to-config/src/router_policy_to_config/diff/routeros_diff.py:78-127 | equal normalized configs give no changes, no added or removed lines and no section changes |
| RouterOSDiffEngine.ChangesMeanDifferentLines | router-policy-to-config/src/router_policy_to_config/diff/routeros_diff.py:122 | has_changes implies the normalized configs differ |
| RouterOSDiffEngine.ChangedLinesAreSubsequences | router-policy-to-config/src/router_policy_to_config/diff/routeros_diff.py:91-99 | added lines are a subsequence of the generated lines, removed lines of the current lines |
| RouterOSDiffEngine.Listed | router-policy-to-config/src/router_policy_to_config/diff/routeros_diff.py:150-151 | at most the first ten lines, each prefixed by the marker |
| RouterOSDiffEngine.SummaryNoChangesIff | router-policy-to-config/src/router_policy_to_config/diff/routeros_diff.py:136-139 | the summary is exactly the no-changes text iff the diff has no changes |
| RouterOSDiffEngine.LinesBlockShape | router-policy-to-config/src/router_policy_to_config/diff/routeros_diff.py:147-154 | a block is count title, rule, first ten lines, "... and N more" beyond ten, blank |
| RouterOSDiffEngine.RouterOSDiff.constructor | router-policy-to-config/src/router_policy_to_config/diff/routeros_diff.py:16-25 | the engine holds both configs |
| RouterOSDiffEngine.RouterOSDiff.NormalizeConfig | router-policy-to-config/src/router_policy_to_config/diff/routeros_diff.py:27-42 | the loop yields exactly the normalized lines, all normal |
| RouterOSDiffEngine.RouterOSDiff.ExtractCommands | router-policy-to-config/src/router_policy_to_config/diff/routeros_diff.py:44-69 | the loop yields exactly the grouping of the normalized lines, with distinct section order |
| RouterOSDiffEngine.RouterOSDiff.CollectSectionChanges | router-policy-to-config/src/router_policy_to_config/diff/routeros_diff.py:105-119 | the loop yields exactly the section changes, with each changed section listed once |
| RouterOSDiffEngine.RouterOSDiff.ComputeDiff | router-policy-to-config/src/router_policy_to_config/diff/routeros_diff.py:71-127 | the result is a diff of the two configs: line edits of the normalized lines, section changes, has_changes iff any line changed |
| RouterOSDiffEngine.RouterOSDiff.AppendLinesBlock | router-policy-to-config/src/router_policy_to_config/diff/routeros_diff.py:147-163 | appends the added- or removed-lines block |
| RouterOSDiffEngine.RouterOSDiff.AppendSectionsBlock | router-policy-to-config/src/router_policy_to_config/diff/routeros_diff.py:165-173 | appends the changes-by-section block |
| RouterOSDiffEngine.RouterOSDiff.SummaryOf | router-policy-to-config/src/router_policy_to_config/diff/routeros_diff.py:138-179 | renders the summary of a diff result |
| RouterOSDiffEngine.RouterOSDiff.GetSummary | router-policy-to-config/src/router_policy_to_config/diff/routeros_diff.py:129-179 | the summary is the rendering of a diff of the two configs; it is the no-changes text iff that diff has no changes |
| OpenWrtDiffEngine.InlineCommentKept | router-policy-to-config/src/router_policy_to_config/diff/openwrt_diff.py:73-74 | a stripped non-empty line not starting with '#' is kept whole, a later '#' included |
| OpenWrtDiffEngine.KeptAreStripped | router-policy-to-config/src/router_policy_to_config/diff/openwrt_diff.py:73-74 | each raw line contributes at most one kept line, and it is stripped |
| OpenWrtDiffEngine.FilteredAreStripped | router-policy-to-config/src/router_policy_to_config/diff/openwrt_diff.py:73-74 | every compared line is stripped |
| OpenWrtDiffEngine.Kind | router-policy-to-config/src/router_policy_to_config/diff/openwrt_diff.py:42-59 | a line opens a section iff it starts with "config ", and joins the open section iff it is an option or list line instead |
| OpenWrtDiffEngine.OptionRun | router-policy-to-config/src/router_policy_to_config/diff/openwrt_diff.py:56-59 | the options gathered after a header are all option or list lines |
| OpenWrtDiffEngine.ParseFromClosed | router-policy-to-config/src/router_policy_to_config/diff/openwrt_diff.py:32-65 | with no open section, parsing appends exactly the sections of the remaining lines |
| OpenWrtDiffEngine.ParseFromOpen | router-policy-to-config/src/router_policy_to_config/diff/openwrt_diff.py:42-63 | an open section collects the leading option run before the next sections are appended |
| OpenWrtDiffEngine.SectionsHeaders | router-policy-to-config/src/router_policy_to_config/diff/openwrt_diff.py:42-55 | one section per "config" line, in order, with that line's type and name |
| OpenWrtDiffEngine.SectionsHoldJoins | router-policy-to-config/src/router_policy_to_config/diff/openwrt_diff.py:56-59 | every option stored in a section is an option or list line |
| OpenWrtDiffEngine.ParsedIsSections | router-policy-to-config/src/router_policy_to_config/diff/openwrt_diff.py:26-65 | the parsed sections are those of the filtered lines: one per config header with its type and name, holding only option/list lines |
| OpenWrtDiffEngine.ParseRawStep | router-policy-to-config/src/router_policy_to_config/diff/openwrt_diff.py:35-40 | a blank or comment line leaves the parser state unchanged; any other line is one parse step on its stripped text |
| OpenWrtDiffEngine.ModifiedKeyList | router-policy-to-config/src/router_policy_to_config/diff/openwrt_diff.py:112-117 | the (type, name) key of every modified entry, in order |
| OpenWrtDiffEngine.ModifiedAlongKeys | router-policy-to-config/src/router_policy_to_config/diff/openwrt_diff.py:106-117 | over distinct common keys, the modified keys are distinct and exactly those whose first sections' options differ |
| OpenWrtDiffEngine.ModifiedAlongEntries | router-policy-to-config/src/router_policy_to_config/diff/openwrt_diff.py:108-117 | each modified entry holds both first-matching sections' options |
| OpenWrtDiffEngine.ModifiedSectionsSpec | router-policy-to-config/src/router_policy_to_config/diff/openwrt_diff.py:99-117 | a file's modified sections list each differing common key once, with both option lists |
| OpenWrtDiffEngine.SameLinesNoChanges | router-policy-to-config/src/router_policy_to_config/diff/openwrt_diff.py:73-125 | equal filtered lines give no changes and no added, removed or modified sections |
| OpenWrtDiffEngine.ChangesMeanDifferentLines | router-policy-to-config/src/router_policy_to_config/diff/openwrt_diff.py:120 | has_changes implies the filtered lines differ |
| OpenWrtDiffEngine.FilteredChangesAreSubsequences | router-policy-to-config/src/router_policy_to_config/diff/openwrt_diff.py:77-92 | added lines are a subsequence of the generated lines, removed lines of the current lines |
| OpenWrtDiffEngine.ChangedLinesAreSubsequences | router-policy-to-config/src/router_policy_to_config/diff/openwrt_diff.py:85-92 | the same for the lines collected in a file's diff |
| OpenWrtDiffEngine.SameFilesNoChanges | router-policy-to-config/src/router_policy_to_config/diff/openwrt_diff.py:136-147 | files with equal filtered contents give no changes overall |
| OpenWrtDiffEngine.Labels | router-policy-to-config/src/router_policy_to_config/diff/openwrt_diff.py:181-187 | at most five section labels, each marker, type and quoted name |
| OpenWrtDiffEngine.SummaryNoChangesIff | router-policy-to-config/src/router_policy_to_config/diff/openwrt_diff.py:161-164 | the summary is exactly the no-changes text iff nothing changed |
| OpenWrtDiffEngine.KeysBlockShape | router-policy-to-config/src/router_policy_to_config/diff/openwrt_diff.py:179-187 | an added or removed block is the count line then the first five labels |
| OpenWrtDiffEngine.ModifiedBlockShape | router-policy-to-config/src/router_policy_to_config/diff/openwrt_diff.py:189-193 | a modified block is the count line then, for the first three, the label and the option counts |
| OpenWrtDiffEngine.OpenWrtDiff.constructor | router-policy-to-config/src/router_policy_to_config/diff/openwrt_diff.py:15-24 | the engine holds both file maps |
| OpenWrtDiffEngine.OpenWrtDiff.ParseUciConfig | router-policy-to-config/src/router_policy_to_config/diff/openwrt_diff.py:26-65 | the loop gives exactly the parsed sections of the content |
| OpenWrtDiffEngine.OpenWrtDiff.CollectModified | router-policy-to-config/src/router_policy_to_config/diff/openwrt_diff.py:106-117 | the loop over common keys gives exactly the modified entries in key order |
| OpenWrtDiffEngine.OpenWrtDiff.CompareConfigs | router-policy-to-config/src/router_policy_to_config/diff/openwrt_diff.py:67-127 | the result is a comparison of the two files: line edits, section key differences, modified sections, has_changes iff a line changed |
| OpenWrtDiffEngine.OpenWrtDiff.ComputeDiff | router-policy-to-config/src/router_policy_to_config/diff/openwrt_diff.py:129-152 | every non-empty file is compared; has_changes iff some file changed |
| OpenWrtDiffEngine.OpenWrtDiff.AppendKeysBlock | router-policy-to-config/src/router_policy_to_config/diff/openwrt_diff.py:179-187 | appends an added- or removed-sections block |
| OpenWrtDiffEngine.OpenWrtDiff.AppendModifiedBlock | router-policy-to-config/src/router_policy_to_config/diff/openwrt_diff.py:189-193 | appends the modified-sections block |
| OpenWrtDiffEngine.OpenWrtDiff.AppendFileBlock | router-policy-to-config/src/router_policy_to_config/diff/openwrt_diff.py:172-195 | appends one changed file's block |
| OpenWrtDiffEngine.OpenWrtDiff.SummaryOf | router-policy-to-config/src/router_policy_to_config/diff/openwrt_diff.py:163-200 | renders the summary of a result |
| OpenWrtDiffEngine.OpenWrtDiff.GetSummary | router-policy-to-config/src/router_policy_to_config/diff/openwrt_diff.py:154-200 | the summary is the rendering of a result of comparing the two file maps, and it is the no-changes text exactly when that comparison reports no changes |
| LineDiff.DiffBefore | router-policy-to-config/src/router_policy_to_config/diff/routeros_diff.py:82-88 | the edit script's kept and deleted lines are exactly the old lines |
| LineDiff.DiffAfter | router-policy-to-config/src/router_policy_to_config/diff/routeros_diff.py:82-88 | the edit script's kept and inserted lines are exactly the new lines |
| LineDiff.DiffKeepsLcs | router-policy-to-config/src/router_policy_to_config/diff/routeros_diff.py:82-88 | the script keeps a longest common subsequence of the two sides |
| LineDiff.UnchangedIffEqual | router-policy-to-config/src/router_policy_to_config/diff/routeros_diff.py:82-88 | the script has no insertions or deletions iff the two sides are equal |
| LineDiff.DeletedSubsequence | router-policy-to-config/src/router_policy_to_config/diff/routeros_diff.py:82-88 | deleted lines occur in the old lines in order |
| LineDiff.InsertedSubsequence | router-policy-to-config/src/router_policy_to_config/diff/routeros_diff.py:82-88 | inserted lines occur in the new lines in order |
| LineDiff.ChangedLines | router-policy-to-config/src/router_policy_to_config/diff/routeros_diff.py:95-99 | the loop collects exactly the stripped text of '+' lines other than "+++" and of '-' lines other than "---" |
| LineDiff.AddedOfEditLine | router-policy-to-config/src/router_policy_to_config/diff/routeros_diff.py:96-97 | an edit line counts as added iff it is an insertion whose text does not start with "++" |
| LineDiff.RemovedOfEditLine | router-policy-to-config/src/router_policy_to_config/diff/routeros_diff.py:98-99 | an edit line counts as removed iff it is a deletion whose text does not start with "--" |
| LineDiff.BodyFiltered | router-policy-to-config/src/router_policy_to_config/diff/routeros_diff.py:95-99 | filtering the rendered body gives exactly the shown insertions and deletions |
| LineDiff.UnifiedFiltered | router-policy-to-config/src/router_policy_to_config/diff/routeros_diff.py:82-99 | the same holds for the whole unified diff, headers included |
| LineDiff.HeadersFiltered | router-policy-to-config/src/router_policy_to_config/diff/routeros_diff.py:95-99 | the "---" and "+++" header lines are never counted |
| LineDiff.EqualGivesNoChanges | router-policy-to-config/src/router_policy_to_config/diff/routeros_diff.py:82-99 | equal sides give an empty diff and no changed lines |
| LineDiff.ChangesMeanDifferent | router-policy-to-config/src/router_policy_to_config/diff/routeros_diff.py:122 | any counted change means the sides differ |
| LineDiff.FilteredSubsequences | router-policy-to-config/src/router_policy_to_config/diff/routeros_diff.py:91-99 | for stripped lines, added lines are a subsequence of the new side and removed lines of the old side |
| LineDiff.DiffItems | router-policy-to-config/src/router_policy_to_config/diff/routeros_diff.py:82-88 | every line of the script comes from one of the two sides |
| LineDiff.HiddenDeletion | router-policy-to-config/src/router_policy_to_config/diff/routeros_diff.py:96-99 | deleting a line that starts with "--" gives a non-empty diff but no counted change |
| TestCases.IsolationLength | router-policy-to-config/src/router_policy_to_config/ai/test_case_generator.py:97-108 | one isolation case per (LAN, isolated_from entry) pair |
| TestCases.ServerLength | router-policy-to-config/src/router_policy_to_config/ai/test_case_generator.py:125-137 | one VPN case per server VPN |
| TestCases.BasicCaseCount | router-policy-to-config/src/router_policy_to_config/ai/test_case_generator.py:79-139 | the number of basic cases is LANs + isolation pairs + WiFi networks + server VPNs |
| TestCases.BasicCaseLayout | router-policy-to-config/src/router_policy_to_config/ai/test_case_generator.py:81-139 | the basic cases are the connectivity, isolation, WiFi and VPN groups in that order |
| TestCases.ConnectivityGroup | router-policy-to-config/src/router_policy_to_config/ai/test_case_generator.py:84-94 | case i is LAN i's internet connectivity case |
| TestCases.IsolationGroupKind | router-policy-to-config/src/router_policy_to_config/ai/test_case_generator.py:96-108 | the isolation group consists of "firewall" cases |
| TestCases.WifiGroup | router-policy-to-config/src/router_policy_to_config/ai/test_case_generator.py:110-122 | after the isolation group, case i is WiFi i's connectivity case |
| TestCases.VpnGroupKind | router-policy-to-config/src/router_policy_to_config/ai/test_case_generator.py:124-137 | the VPN group consists of "connectivity" cases |
| TestCases.ConnectivityCaseSpec | router-policy-to-config/src/router_policy_to_config/ai/test_case_generator.py:85-94 | a LAN's case is named test_<lan>_internet_connectivity, of type connectivity |
| TestCases.IsolationGroup | router-policy-to-config/src/router_policy_to_config/ai/test_case_generator.py:97-108 | an isolation case is present iff it comes from some LAN and one of its isolated_from names |
| TestCases.ServerCases | router-policy-to-config/src/router_policy_to_config/ai/test_case_generator.py:125-137 | a VPN case is present iff some VPN with role "server" gives it; clients give none |
| TestCases.SummaryShape | router-policy-to-config/src/router_policy_to_config/ai/test_case_generator.py:29-39 | the summary starts with the router, target and WAN lines, then "LANs: n" and one line per LAN |
| TestCases.IsolationNoteSpec | router-policy-to-config/src/router_policy_to_config/ai/test_case_generator.py:38 | the isolation note is empty iff the LAN has no isolated_from entries, and names every one otherwise |
| TestCases.GuestNoteSpec | router-policy-to-config/src/router_policy_to_config/ai/test_case_generator.py:44-45 | the WiFi line carries " (guest)" iff the network is a guest network |
| TestCases.LanBlockLines | router-policy-to-config/src/router_policy_to_config/ai/test_case_generator.py:35-39 | the LAN block consists of its count line and "  - " entries |
| TestCases.WifiBlockLines | router-policy-to-config/src/router_policy_to_config/ai/test_case_generator.py:41-45 | the WiFi block consists of its count line and "  - " entries |
| TestCases.TaggedLineBlock | router-policy-to-config/src/router_policy_to_config/ai/test_case_generator.py:29-53 | a summary line with a section tag belongs to that section's block |
| TestCases.SummaryCountLines | router-policy-to-config/src/router_policy_to_config/ai/test_case_generator.py:35-51 | the LAN, WiFi, VPN and firewall count lines appear iff there are LANs, WiFi, VPNs, or a firewall with rules |
| TestCases.AppendLines | router-policy-to-config/src/router_policy_to_config/ai/test_case_generator.py:37-45 | appending one line per item keeps the existing lines and adds the items' lines in order |
| TestCases.TestCaseGenerator.constructor | router-policy-to-config/src/router_policy_to_config/ai/test_case_generator.py:18-25 | the generator holds the provider's availability and its case function |
| TestCases.TestCaseGenerator.PolicyToSummary | router-policy-to-config/src/router_policy_to_config/ai/test_case_generator.py:27-53 | the loops build exactly the newline join of the summary lines |
| TestCases.TestCaseGenerator.GenerateBasicTestCases | router-policy-to-config/src/router_policy_to_config/ai/test_case_generator.py:79-139 | the four loops build exactly the basic cases |
| TestCases.TestCaseGenerator.AddConnectivityTests | router-policy-to-config/src/router_policy_to_config/ai/test_case_generator.py:84-94 | appends one connectivity case per LAN |
| TestCases.TestCaseGenerator.AddIsolationTests | router-policy-to-config/src/router_policy_to_config/ai/test_case_generator.py:97-108 | appends one isolation case per LAN and isolated name |
| TestCases.TestCaseGenerator.AddWifiTests | router-policy-to-config/src/router_policy_to_config/ai/test_case_generator.py:111-122 | appends one case per WiFi network |
| TestCases.TestCaseGenerator.AddVpnTests | router-policy-to-config/src/router_policy_to_config/ai/test_case_generator.py:125-137 | appends one case per server VPN |
| TestCases.TestCaseGenerator.GenerateTestCases | router-policy-to-config/src/router_policy_to_config/ai/test_case_generator.py:55-77 | without a provider the basic cases; with one, the provider's cases for the summary and vendor followed by the basic cases |
| CiTemplates.ContainsChar | tools/validate_ci_templates.py:17 | a one-character substring test is membership of that character |
| CiTemplates.ExplicitSecretIff | tools/validate_ci_templates.py:14-17 | a string is an explicit secret iff its lower-cased text mentions token, secret or password and it has no '$' (the "${{" test is subsumed) |
| CiTemplates.FlaggedIffSomeString | tools/validate_ci_templates.py:13-22 | a document is flagged iff some string reachable through dict values and list items is an explicit secret |
| CiTemplates.SubstitutedNeverFlagged | tools/validate_ci_templates.py:17 | a document whose every string uses '$' substitution is never flagged |
| CiTemplates.KeysIgnored | tools/validate_ci_templates.py:18-19 | only dict values are searched: dicts with the same values are flagged alike whatever their keys |
| CiTemplates.GitlabPathIff | tools/validate_ci_templates.py:39 | the GitLab test reduces to the path text containing "gitlab", since a name starting with ".gitlab-ci" already contains it |
| CiTemplates.CiStructureSpec | tools/validate_ci_templates.py:32-33 | a document that is not a mapping gets exactly the one structure issue |
| CiTemplates.CiChecksSpec | tools/validate_ci_templates.py:35-44 | the jobs issue iff a github path lacks "jobs", the stages issue iff a gitlab path lacks "stages", the secret issue iff the mapping is flagged |
| CiTemplates.CiIssuesOrder | tools/validate_ci_templates.py:36-45 | the secret issue comes last and no issue is reported twice |
| CiTemplates.CiIssuesNamePath | tools/validate_ci_templates.py:30-44 | every issue starts with the file path and ": " |
| CiTemplates.ValidateCiFile | tools/validate_ci_templates.py:25-45 | the checks run in source order and give exactly the file's issue list, including the parse-error path |
| CiTemplates.ValidateAll | tools/validate_ci_templates.py:48-57 | the issues are every file's issues in order; the exit code is 1 iff some file has issues, else 0 |
| LoggingConfigs.CollectAllSpec | tools/validate_logging_configs.py:26-30 | a loop whose body may raise succeeds iff every item's check succeeds, and then yields the items' issues in order |
| LoggingConfigs.CollectStep | tools/validate_logging_configs.py:50-52 | one more successful iteration appends that item's issues |
| LoggingConfigs.CollectFailsEarly | tools/validate_logging_configs.py:26-30 | once an iteration raises, later items do not matter |
| LoggingConfigs.CollectFails | tools/validate_logging_configs.py:50-52 | the first item whose check raises decides the error |
| LoggingConfigs.ValidateCompose | tools/validate_logging_configs.py:34-41 | the loop gives exactly the compose issues, or the YAML error |
| LoggingConfigs.ComposeDictSpec | tools/validate_logging_configs.py:37-41 | with a services mapping, the issues are one "service NAME missing" per expected name not among its keys, in expected order |
| LoggingConfigs.ComposeMissingIff | tools/validate_logging_configs.py:38-40 | a service's missing issue is reported iff it is expected and absent |
| LoggingConfigs.ComposeNonDict | tools/validate_logging_configs.py:37 | a document that is not a mapping reports every expected service missing |
| LoggingConfigs.CheckLabels | tools/validate_logging_configs.py:28-30 | the label loop gives exactly the label issues of one scrape config |
| LoggingConfigs.ValidatePromtail | tools/validate_logging_configs.py:20-31 | the loop gives exactly the promtail issues, or the error a malformed scrape config raises |
| LoggingConfigs.PromtailEmpty | tools/validate_logging_configs.py:23-25 | a non-mapping, a missing key or an empty list gives just the empty scrape_configs issue |
| LoggingConfigs.LabelIssuesInOrder | tools/validate_logging_configs.py:28-30 | the label issues are those for job, service and env, each when that label is falsy, in that order |
| LoggingConfigs.LabelIssuesSpec | tools/validate_logging_configs.py:28-30 | each label's issue iff its value is falsy, and no issue twice |
| LoggingConfigs.PromtailConfigsSpec | tools/validate_logging_configs.py:23-31 | for a list of well-formed configs, the issues are the empty issue when the list is empty, then every config's label issues |
| LoggingConfigs.ValidateFilebeat | tools/validate_logging_configs.py:44-53 | the loop gives exactly the filebeat issues, or the error a non-mapping input raises |
| LoggingConfigs.FilebeatEmpty | tools/validate_logging_configs.py:47-49 | a non-mapping, a missing key or an empty list gives just the empty-inputs issue |
| LoggingConfigs.FilebeatSpec | tools/validate_logging_configs.py:47-53 | for mapping inputs, the issues are the empty issue when there are none, then one per input lacking paths, in order |
| LoggingConfigs.CheckAll | tools/validate_logging_configs.py:56-67 | the exit code is an error iff some check raises; otherwise 1 iff issues were found and 0 iff none |
| Strings.StripSetSpec | router-policy-to-config/src/router_policy_to_config/diff/routeros_diff.py:38 | strip removes exactly a leading and a trailing run of whitespace and leaves a stripped slice |
| Strings.StripIdempotent | router-policy-to-config/src/router_policy_to_config/diff/routeros_diff.py:38 | stripping twice is stripping once |
| Strings.JoinSplit | router-policy-to-config/src/router_policy_to_config/diff/routeros_diff.py:34 | joining the pieces of a split with its separator gives the text back |
| Strings.SplitJoin | router-policy-to-config/src/router_policy_to_config/policy_validator.py:68 | splitting a join of separator-free pieces gives the pieces back |
| Strings.ContainsIff | tools/validate_ci_templates.py:16 | the substring test holds iff the text occurs at some position |
| Strings.DigitsValueOfNatToString | router-policy-to-config/src/router_policy_to_config/backends/routeros_backend.py:60 | the decimal rendering of a number reads back as that number |

## Left out

- Command-line interface, file reading and writing, schema loading and `jsonschema` validation: I/O around the core. File contents and parse results are parameters.
- The OpenWrt backend: `backends/openwrt_backend.py` is not part of this model; only the OpenWrt diff engine is modelled.
- `tools/generate_example_project.py`: writes example files to disk; pure I/O.
- Tests and package `__init__` files: not core behaviour.
- `to_json` and `export_test_cases`: library JSON/YAML serialisation.
- AI provider plumbing: the provider's availability and its test cases are parameters of `TestCases.TestCaseGenerator`; prompt texts are not modelled.
- `difflib.unified_diff`: replaced by an LCS edit script rendered with the `---`/`+++` headers and one line per kept, deleted or inserted item. Hunk headers, context trimming and difflib's matching heuristics are not modelled, so the added and removed lists can differ from difflib's on inputs where several edit scripts are equally short. Only the subsequence and equal-inputs properties are claimed.
- Python set and dict iteration order: where the source iterates a set, for example RouterOS section names or OpenWrt common section keys, the model iterates some enumeration of it. Results are stated as distinct lists of exactly the right elements. The added and removed OpenWrt section lists are likewise some enumeration of the key sets.
- `ipaddress` beyond IPv4 dotted quads with `/len`: IPv6, netmask-style prefixes and other spellings parse as failure. The exception texts that Python puts after "Invalid subnet …:", "Invalid IP …:" and "Invalid DHCP range …:" are not reproduced, only the message prefix.
- PolicyLoader.Loader.ToModel: a field of the wrong YAML type is modelled as a `WrongType` load error, where Python would store the value unchecked in the dataclass. The one exception is the firewall `port` (PolicyLoader.OptText), which accepts a number as Python does and stores it as its decimal text, or as absent when it is `0`; every use of the port tests its truthiness and renders it as text, so the two agree. The schema check that normally runs first excludes such documents. YAML floats are not modelled: `Json` numbers are integers.
- LoggingConfigs.ValidatePromtail: Python's several exception kinds from a malformed scrape config or filebeat input are all one `ShapeError`. stderr and stdout output of the tools' `main` is not modelled, and an exception escaping `main` is an `Err` result rather than a traceback.
- LoggingConfigs.LabelIssue: `str()` of a list or dict job name is rendered as a placeholder (`[...]`, `{...}`), not as Python's full repr.
- CiTemplates.BaseName: `path.name` is the text after the last `/` of the path string; other path normalisation (`..`, trailing slashes) is not modelled.
- Strings.Upper: `str.upper` and `str.lower` map ASCII letters only; Unicode case mappings are not modelled.
- RouterOS.RouterOSBackend.GenerateDns: the static-DNS loop that breaks after its first iteration is modelled as one conditional line, which is what it emits.
