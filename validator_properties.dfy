/**
 * What the validator's checks mean: each lemma relates the issues a check
 * appends (the functions of PolicyValidation) to the policy that was checked.
 */
module ValidatorProperties {
  import opened Wrappers
  import opened Strings
  import opened IPv4
  import opened Model
  import opened Seqs
  import opened PolicyValidation

  // ---------------------------------------------------------------- subnets

  /** The parsed-network list holds exactly the LANs whose subnet parses, with their networks. */
  lemma NetworksMember(lans: seq<LANConfig>, name: string, n: Net)
    ensures (name, n) in Networks(lans)
            <==> exists i :: 0 <= i < |lans| && lans[i].name == name && ParseNetwork(lans[i].subnet) == Some(n)
  {
    FlatMapMember(lans, ParsedLan, (name, n));
  }

  /** Every overlap check issue is an overlap error. */
  lemma {:induction false} OverlapIssuesAreOverlaps(nets: seq<(string, Net)>)
    ensures forall x :: x in OverlapIssues(nets) ==> x.SubnetsOverlap?
  {
    if nets != [] {
      OverlapIssuesAreOverlaps(nets[1..]);
      forall x | x in FlatMap(nets[1..], PairFn(nets[0]))
        ensures x.SubnetsOverlap?
      {
        FlatMapMember(nets[1..], PairFn(nets[0]), x);
      }
    }
  }

  /** Entry `i` comes before entry `j` and their networks overlap. */
  predicate OverlappingPair(nets: seq<(string, Net)>, i: int, j: int)
  {
    0 <= i < j < |nets| && Overlaps(nets[i].1, nets[j].1)
  }

  /** An overlap error for (`a`, `b`) is reported exactly when `a` comes
      before `b` in the parsed list and their networks overlap. */
  lemma {:induction false} OverlapIssuesIff(nets: seq<(string, Net)>, a: (string, Net), b: (string, Net))
    ensures SubnetsOverlap(a.0, a.1, b.0, b.1) in OverlapIssues(nets)
            <==> exists i, j :: OverlappingPair(nets, i, j) && nets[i] == a && nets[j] == b
  {
    var x := SubnetsOverlap(a.0, a.1, b.0, b.1);
    if nets != [] {
      var rest := nets[1..];
      OverlapIssuesIff(rest, a, b);
      FlatMapMember(rest, PairFn(nets[0]), x);
      if x in OverlapIssues(nets) {
        if x in FlatMap(rest, PairFn(nets[0])) {
          var k :| 0 <= k < |rest| && x in PairIssue(nets[0], rest[k]);
          assert OverlappingPair(nets, 0, k + 1) && nets[0] == a && nets[k + 1] == b;
        } else {
          var i, j :| OverlappingPair(rest, i, j) && rest[i] == a && rest[j] == b;
          assert OverlappingPair(nets, i + 1, j + 1) && nets[i + 1] == a && nets[j + 1] == b;
        }
      }
      if exists i, j :: OverlappingPair(nets, i, j) && nets[i] == a && nets[j] == b {
        var i, j :| OverlappingPair(nets, i, j) && nets[i] == a && nets[j] == b;
        if i == 0 {
          assert x in PairIssue(nets[0], rest[j - 1]);
        } else {
          assert OverlappingPair(rest, i - 1, j - 1) && rest[i - 1] == a && rest[j - 1] == b;
        }
      }
    }
  }

  /** The overlap check is silent exactly when no two parsed networks overlap. */
  lemma {:induction false} NoOverlapIffPairwise(nets: seq<(string, Net)>)
    ensures OverlapIssues(nets) == [] <==> forall i, j :: !OverlappingPair(nets, i, j)
  {
    if nets != [] {
      var rest := nets[1..];
      NoOverlapIffPairwise(rest);
      FlatMapEmpty(rest, PairFn(nets[0]));
      if OverlapIssues(nets) == [] {
        forall i, j | 0 <= i < j < |nets|
          ensures !Overlaps(nets[i].1, nets[j].1)
        {
          if i == 0 {
            assert PairIssue(nets[0], rest[j - 1]) == [];
          } else {
            assert !OverlappingPair(rest, i - 1, j - 1);
          }
        }
      } else if FlatMap(rest, PairFn(nets[0])) != [] {
        var k :| 0 <= k < |rest| && PairIssue(nets[0], rest[k]) != [];
        assert OverlappingPair(nets, 0, k + 1);
      } else {
        var i, j :| OverlappingPair(rest, i, j);
        assert OverlappingPair(nets, i + 1, j + 1);
      }
    }
  }

  /** No overlap error is reported exactly when no address lies in two parsed subnets. */
  lemma NoOverlapIffDisjoint(nets: seq<(string, Net)>)
    ensures OverlapIssues(nets) == []
            <==> forall i, j :: 0 <= i < j < |nets| ==> !ShareAddress(nets[i].1, nets[j].1)
  {
    NoOverlapIffPairwise(nets);
    if OverlapIssues(nets) == [] {
      forall i, j | 0 <= i < j < |nets|
        ensures !ShareAddress(nets[i].1, nets[j].1)
      {
        assert !OverlappingPair(nets, i, j);
        OverlapsIffShared(nets[i].1, nets[j].1);
      }
    } else {
      var i, j :| OverlappingPair(nets, i, j);
      OverlapsIffShared(nets[i].1, nets[j].1);
      assert 0 <= i < j < |nets| && ShareAddress(nets[i].1, nets[j].1);
    }
  }

  /** A LAN whose subnet does not parse gets an "Invalid subnet" error, and no other LAN name does. */
  lemma InvalidSubnetIff(p: Policy, name: string)
    ensures InvalidSubnet(name) in SubnetErrors(p)
            <==> exists i :: 0 <= i < |p.lans| && p.lans[i].name == name && ParseNetwork(p.lans[i].subnet).None?
  {
    FlatMapMember(p.lans, SubnetIssue, InvalidSubnet(name));
    OverlapIssuesAreOverlaps(Networks(p.lans));
  }

  /** A text built as `a + x + b + y + c`, each piece possibly several concatenations,
      contains both `x` and `y`. */
  lemma ContainsBothParts(a: string, x: string, b1: string, b2: string, b3: string, y: string,
                          c1: string, c2: string, c3: string)
    ensures Contains(a + x + b1 + b2 + b3 + y + c1 + c2 + c3, x)
    ensures Contains(a + x + b1 + b2 + b3 + y + c1 + c2 + c3, y)
  {
    var b, c := b1 + b2 + b3, c1 + c2 + c3;
    var t := a + x + b1 + b2 + b3 + y + c1 + c2 + c3;
    assert t == a + x + (b + y + c);
    ContainsPart(a, x, b + y + c);
    assert t == (a + x + b) + y + c;
    ContainsPart(a + x + b, y, c);
  }

  /** The overlap message names both LANs. */
  lemma OverlapMessageNamesBoth(name1: string, net1: Network, name2: string, net2: Network)
    ensures Contains(SubnetsOverlap(name1, net1, name2, net2).Text(), name1)
    ensures Contains(SubnetsOverlap(name1, net1, name2, net2).Text(), name2)
  {
    ContainsBothParts("Subnets overlap: '", name1, "' (", FormatNetwork(net1), ") and '",
                      name2, "' (", FormatNetwork(net2), ")");
  }

  // ---------------------------------------------------------------- gateways

  /** The "not in subnet" error for a (gateway, subnet, LAN) triple is reported
      exactly when some LAN with those fields has a subnet and a gateway that
      parse and the gateway lies outside the subnet. */
  lemma GatewayOutsideIff(p: Policy, gw: string, sn: string, name: string)
    ensures GatewayNotInSubnet(gw, sn, name) in GatewayErrors(p)
            <==> exists i :: 0 <= i < |p.lans| && p.lans[i].gateway == gw && p.lans[i].subnet == sn
                   && p.lans[i].name == name
                   && ParseNetwork(sn).Some? && ParseAddress(gw).Some?
                   && !InNetwork(ParseAddress(gw).value, ParseNetwork(sn).value)
  {
    FlatMapMember(p.lans, GatewayIssue, GatewayNotInSubnet(gw, sn, name));
  }

  /** "Invalid IP" is reported for exactly the LANs whose subnet or gateway does not parse. */
  lemma InvalidIpIff(p: Policy, name: string)
    ensures InvalidIp(name) in GatewayErrors(p)
            <==> exists i :: 0 <= i < |p.lans| && p.lans[i].name == name
                   && (ParseNetwork(p.lans[i].subnet).None? || ParseAddress(p.lans[i].gateway).None?)
  {
    FlatMapMember(p.lans, GatewayIssue, InvalidIp(name));
  }

  /** The gateway check is silent exactly when every gateway parses and lies in its parsed subnet. */
  lemma GatewaysClean(p: Policy)
    ensures GatewayErrors(p) == []
            <==> forall i :: 0 <= i < |p.lans| ==>
                   && ParseNetwork(p.lans[i].subnet).Some? && ParseAddress(p.lans[i].gateway).Some?
                   && InNetwork(ParseAddress(p.lans[i].gateway).value, ParseNetwork(p.lans[i].subnet).value)
  {
    FlatMapEmpty(p.lans, GatewayIssue);
  }

  // ---------------------------------------------------------------- DHCP ranges

  /** Every DHCP error comes from a LAN whose DHCP is present, enabled and has a range. */
  lemma DhcpOnlyWhenChecked(p: Policy, x: Issue)
    requires x in DhcpErrors(p)
    ensures exists i :: 0 <= i < |p.lans| && DhcpChecked(p.lans[i]) && x in DhcpIssue(p.lans[i])
  {
    FlatMapMember(p.lans, DhcpIssue, x);
  }

  /** A range that parsed gets one error for each of: start outside, end
      outside, start >= end, and never the parse-failure error. */
  lemma BoundsOutcomes(l: LANConfig, n: Net, s: nat, e: nat)
    ensures InvalidDhcpRange(l.name) !in BoundsIssues(l, n, s, e)
    ensures DhcpStartOutside(s, l.subnet, l.name) in BoundsIssues(l, n, s, e) <==> !InNetwork(s, n)
    ensures DhcpEndOutside(e, l.subnet, l.name) in BoundsIssues(l, n, s, e) <==> !InNetwork(e, n)
    ensures DhcpStartNotBeforeEnd(l.name) in BoundsIssues(l, n, s, e) <==> s >= e
    ensures BoundsIssues(l, n, s, e) == [] <==> InNetwork(s, n) && InNetwork(e, n) && s < e
  {
  }

  /** A checked range that does not parse (the subnet, the split on `-` into
      exactly two pieces, or either stripped address) gets exactly one error;
      one that parses gets the bound errors of `BoundsOutcomes`. */
  lemma DhcpRangeOutcomes(l: LANConfig)
    requires DhcpChecked(l)
    ensures var pieces := Split(l.dhcp.value.range.value, '-');
      if |pieces| == 2 && ParseNetwork(l.subnet).Some?
         && ParseAddress(Strip(pieces[0])).Some? && ParseAddress(Strip(pieces[1])).Some?
      then DhcpIssue(l) == BoundsIssues(l, ParseNetwork(l.subnet).value, ParseAddress(Strip(pieces[0])).value,
                                        ParseAddress(Strip(pieces[1])).value)
      else DhcpIssue(l) == [InvalidDhcpRange(l.name)]
  {
  }

  /** A LAN without DHCP, with DHCP disabled, or with an empty or absent range gets no DHCP error. */
  lemma DhcpUnchecked(l: LANConfig)
    requires !DhcpChecked(l)
    ensures DhcpIssue(l) == []
  {
  }

  // ---------------------------------------------------------------- WAN

  /** Clearing the password of a WAN never changes its errors: a missing
      `password_ref` is only ever a warning. */
  lemma PasswordOnlyWarns(w: WANConfig)
    ensures WanErrors(w.(passwordRef := None)) == WanErrors(w)
    ensures PppoeShouldHavePassword !in WanErrors(w)
    ensures w.kind == "pppoe" ==> (PppoeShouldHavePassword in WanWarnings(w) <==> !IsSet(w.passwordRef))
  {
  }

  /** pppoe without a username gets the error that mentions "username". */
  lemma PppoeUsername(w: WANConfig)
    requires w.kind == "pppoe"
    ensures PppoeNeedsUsername in WanErrors(w) <==> !IsSet(w.username)
    ensures Contains(PppoeNeedsUsername.Text(), "username")
  {
    ContainsPart("PPPoE WAN requires ", "username", "");
    assert PppoeNeedsUsername.Text() == "PPPoE WAN requires " + "username" + "";
  }

  function Missing(s: Option<string>): nat
  {
    if IsSet(s) then 0 else 1
  }

  /** A static WAN gets one error per missing ip, netmask and gateway; any
      other type besides pppoe gets nothing at all. */
  lemma StaticAndOtherWan(w: WANConfig)
    ensures w.kind == "static" ==>
      && |WanErrors(w)| == Missing(w.ip) + Missing(w.netmask) + Missing(w.gateway)
      && (StaticNeedsIp in WanErrors(w) <==> !IsSet(w.ip))
      && (StaticNeedsNetmask in WanErrors(w) <==> !IsSet(w.netmask))
      && (StaticNeedsGateway in WanErrors(w) <==> !IsSet(w.gateway))
      && WanWarnings(w) == []
    ensures w.kind != "static" && w.kind != "pppoe" ==> WanErrors(w) == [] && WanWarnings(w) == []
  {
  }

  // ---------------------------------------------------------------- WiFi and isolation

  lemma LanNameIff(lans: seq<LANConfig>, name: string)
    ensures name in LanNames(lans) <==> exists i :: 0 <= i < |lans| && lans[i].name == name
  {
    if name in LanNames(lans) {
      var l :| l in lans && l.name == name;
      var i :| 0 <= i < |lans| && lans[i] == l;
    }
  }

  /** A WiFi entry gets the "non-existent LAN" error exactly when its LAN is not declared. */
  lemma WifiUnknownLanIff(p: Policy, wifi: string, lan: string)
    ensures WifiUnknownLan(wifi, lan) in WifiErrors(p)
            <==> (exists i :: 0 <= i < |p.wifi| && p.wifi[i].name == wifi && p.wifi[i].lan == lan)
                 && !(exists k :: 0 <= k < |p.lans| && p.lans[k].name == lan)
  {
    FlatMapMember(p.wifi, WifiLanFn(LanNames(p.lans)), WifiUnknownLan(wifi, lan));
    LanNameIff(p.lans, lan);
  }

  /** The security warning goes to exactly the PSK WiFi entries that have no password. */
  lemma WifiPasswordWarningIff(p: Policy, wifi: string)
    ensures WifiShouldHavePassword(wifi) in WifiWarnings(p)
            <==> exists i :: 0 <= i < |p.wifi| && p.wifi[i].name == wifi && p.wifi[i].security.Some?
                   && IsPsk(p.wifi[i].security.value.encryption) && !IsSet(p.wifi[i].security.value.passwordRef)
  {
    FlatMapMember(p.wifi, WifiSecurityIssue, WifiShouldHavePassword(wifi));
  }

  /** An isolation error is reported exactly for an `isolated_from` entry that
      names no declared LAN. */
  lemma IsolationIff(p: Policy, lan: string, other: string)
    ensures IsolationUnknownLan(lan, other) in IsolationErrors(p)
            <==> (exists i, k :: 0 <= i < |p.lans| && 0 <= k < |p.lans[i].isolatedFrom|
                    && p.lans[i].name == lan && p.lans[i].isolatedFrom[k] == other)
                 && !(exists m :: 0 <= m < |p.lans| && p.lans[m].name == other)
  {
    var names := LanNames(p.lans);
    var x := IsolationUnknownLan(lan, other);
    LanNameIff(p.lans, other);
    FlatMapMember(p.lans, LanIsolationFn(names), x);
    forall i | 0 <= i < |p.lans|
      ensures x in LanIsolationIssues(names, p.lans[i])
              <==> p.lans[i].name == lan && other !in names
                   && exists k :: 0 <= k < |p.lans[i].isolatedFrom| && p.lans[i].isolatedFrom[k] == other
    {
      FlatMapMember(p.lans[i].isolatedFrom, IsolationFn(names, p.lans[i].name), x);
    }
    if x in IsolationErrors(p) {
      var i :| 0 <= i < |p.lans| && x in LanIsolationIssues(names, p.lans[i]);
      var k :| 0 <= k < |p.lans[i].isolatedFrom| && p.lans[i].isolatedFrom[k] == other;
      assert 0 <= i < |p.lans| && 0 <= k < |p.lans[i].isolatedFrom|
        && p.lans[i].name == lan && p.lans[i].isolatedFrom[k] == other;
    }
  }

  // ---------------------------------------------------------------- firewall zones

  /** A zone is valid exactly when it is "wan", a LAN name, or "vpn" with some VPN declared. */
  lemma ValidZoneIff(p: Policy, zone: string)
    ensures zone in ValidZones(p)
            <==> zone == "wan" || (exists i :: 0 <= i < |p.lans| && p.lans[i].name == zone)
                 || (zone == "vpn" && p.vpn != [])
  {
    LanNameIff(p.lans, zone);
  }

  /** Without a firewall section the zone check reports nothing. */
  lemma NoFirewallNoZoneErrors(p: Policy)
    requires p.firewall.None?
    ensures FirewallErrors(p) == []
  {
  }

  /** Each unknown zone of a rule's `from` or `to` list is reported, naming the
      rule, the zone and the side, and nothing else is. */
  lemma UnknownZoneIff(p: Policy, rule: string, zone: string, side: string)
    requires p.firewall.Some?
    ensures UnknownZone(rule, zone, side) in FirewallErrors(p)
            <==> zone !in ValidZones(p)
                 && exists i :: 0 <= i < |p.firewall.value.rules| && p.firewall.value.rules[i].name == rule
                      && ((side == "from" && zone in p.firewall.value.rules[i].fromZones)
                          || (side == "to" && zone in p.firewall.value.rules[i].toZones))
  {
    var zones := ValidZones(p);
    var rules := p.firewall.value.rules;
    var x := UnknownZone(rule, zone, side);
    FlatMapMember(rules, RuleFn(zones), x);
    forall i | 0 <= i < |rules|
      ensures x in RuleIssues(zones, rules[i])
              <==> zone !in zones && rules[i].name == rule
                   && ((side == "from" && zone in rules[i].fromZones) || (side == "to" && zone in rules[i].toZones))
    {
      var r := rules[i];
      FlatMapMember(r.fromZones, ZoneFn(zones, r.name, "from"), x);
      FlatMapMember(r.toZones, ZoneFn(zones, r.name, "to"), x);
      if zone in r.fromZones {
        var k :| 0 <= k < |r.fromZones| && r.fromZones[k] == zone;
      }
      if zone in r.toZones {
        var k :| 0 <= k < |r.toZones| && r.toZones[k] == zone;
      }
    }
  }

  // ---------------------------------------------------------------- VPN ports

  /** The number of duplicate-port errors for `port`: one per server VPN with
      that port except the first, counting the ports in `seen` as earlier ones. */
  lemma {:induction false} DuplicatePortCount(vpns: seq<VPNConfig>, seen: seq<int>, port: int)
    ensures var c := multiset(ServerPorts(vpns))[port];
      multiset(VpnErrorsAfter(vpns, seen))[DuplicateListenPort(port)]
      == if port in seen then c else if c == 0 then 0 else c - 1
  {
    if vpns != [] {
      assert ServerPorts(vpns) == ServerPort(vpns[0]) + ServerPorts(vpns[1..]);
      if IsServerWithPort(vpns[0]) {
        var q := vpns[0].listenPort.value;
        DuplicatePortCount(vpns[1..], seen + [q], port);
        assert port in seen + [q] <==> port in seen || port == q;
      } else {
        DuplicatePortCount(vpns[1..], seen, port);
      }
    }
  }

  /** Across the whole VPN list: a port used by `c >= 1` server VPNs gets exactly `c - 1` errors. */
  lemma DuplicatePortErrors(p: Policy, port: int)
    ensures var c := multiset(ServerPorts(p.vpn))[port];
      multiset(VpnErrors(p))[DuplicateListenPort(port)] == if c == 0 then 0 else c - 1
    ensures DuplicateListenPort(port) in VpnErrors(p) <==> multiset(ServerPorts(p.vpn))[port] >= 2
  {
    DuplicatePortCount(p.vpn, [], port);
  }

  /** The privileged-port warning goes to exactly the server VPNs with a truthy port below 1024. */
  lemma PrivilegedPortIff(p: Policy, port: int)
    ensures PrivilegedListenPort(port) in VpnWarnings(p)
            <==> exists i :: 0 <= i < |p.vpn| && IsServerWithPort(p.vpn[i])
                   && p.vpn[i].listenPort.value == port && port < 1024
  {
    FlatMapMember(p.vpn, VpnWarning, PrivilegedListenPort(port));
  }

  // ---------------------------------------------------------------- port forwards

  /** Without a NAT section that has forwards, the forward check reports nothing. */
  lemma UncheckedForwards(p: Policy)
    requires !ForwardsChecked(p)
    ensures NatErrors(p) == [] && NatWarnings(p) == []
  {
  }

  /** An address is in some parsed network exactly when some LAN's subnet parses to a network containing it. */
  lemma InSomeNetworkIff(a: nat, lans: seq<LANConfig>)
    ensures InSomeNetwork(a, Networks(lans))
            <==> exists i :: 0 <= i < |lans| && ParseNetwork(lans[i].subnet).Some?
                   && InNetwork(a, ParseNetwork(lans[i].subnet).value)
  {
    var nets := Networks(lans);
    if InSomeNetwork(a, nets) {
      var k :| 0 <= k < |nets| && InNetwork(a, nets[k].1);
      NetworksMember(lans, nets[k].0, nets[k].1);
      var i :| 0 <= i < |lans| && lans[i].name == nets[k].0 && ParseNetwork(lans[i].subnet) == Some(nets[k].1);
    }
    if exists i :: 0 <= i < |lans| && ParseNetwork(lans[i].subnet).Some? && InNetwork(a, ParseNetwork(lans[i].subnet).value) {
      var i :| 0 <= i < |lans| && ParseNetwork(lans[i].subnet).Some? && InNetwork(a, ParseNetwork(lans[i].subnet).value);
      var n: Net := ParseNetwork(lans[i].subnet).value;
      NetworksMember(lans, lans[i].name, n);
      var k :| 0 <= k < |nets| && nets[k] == (lans[i].name, n);
    }
  }

  /** An unparsable forward target is an error. */
  lemma InvalidForwardIff(p: Policy, ip: string)
    ensures InvalidForwardIp(ip) in NatErrors(p)
            <==> ForwardsChecked(p) && ParseAddress(ip).None?
                 && exists i :: 0 <= i < |p.natConfig.value.portForwards| && p.natConfig.value.portForwards[i].internalIp == ip
  {
    if ForwardsChecked(p) {
      FlatMapMember(p.natConfig.value.portForwards, ForwardIpIssue, InvalidForwardIp(ip));
    }
  }

  /** One forward's reachability warning is about its own target, when that parses and lies outside every network. */
  lemma ForwardReachMember(nets: seq<(string, Net)>, pf: PortForward, ip: string)
    ensures ForwardOutsideLans(ip) in ForwardReachFn(nets)(pf)
            <==> pf.internalIp == ip && ParseAddress(ip).Some? && !InSomeNetwork(ParseAddress(ip).value, nets)
  {
  }

  /** A parsable forward target outside every parsed LAN subnet is warned about. */
  lemma ForwardOutsideIff(p: Policy, ip: string)
    ensures ForwardOutsideLans(ip) in NatWarnings(p)
            <==> && ForwardsChecked(p) && ParseAddress(ip).Some?
                 && (exists i :: 0 <= i < |p.natConfig.value.portForwards| && p.natConfig.value.portForwards[i].internalIp == ip)
                 && !exists k :: 0 <= k < |p.lans| && ParseNetwork(p.lans[k].subnet).Some?
                      && InNetwork(ParseAddress(ip).value, ParseNetwork(p.lans[k].subnet).value)
  {
    if ForwardsChecked(p) {
      var pfs, nets := p.natConfig.value.portForwards, Networks(p.lans);
      FlatMapMember(pfs, ForwardReachFn(nets), ForwardOutsideLans(ip));
      forall i | 0 <= i < |pfs|
        ensures ForwardOutsideLans(ip) in ForwardReachFn(nets)(pfs[i])
                <==> pfs[i].internalIp == ip && ParseAddress(ip).Some? && !InSomeNetwork(ParseAddress(ip).value, nets)
      {
        ForwardReachMember(nets, pfs[i], ip);
      }
      if ParseAddress(ip).Some? {
        InSomeNetworkIff(ParseAddress(ip).value, p.lans);
      }
    }
  }

  /** The outside-the-LANs finding is never an error. */
  lemma ForwardOutsideNotError(p: Policy, ip: string)
    ensures ForwardOutsideLans(ip) !in NatErrors(p)
  {
    if ForwardsChecked(p) {
      FlatMapMember(p.natConfig.value.portForwards, ForwardIpIssue, ForwardOutsideLans(ip));
    }
  }

  // ---------------------------------------------------------------- validate

  /** `validate` raises exactly when some check found an error. */
  lemma OutcomeFailsIffErrors(p: Policy)
    ensures Outcome(p).Err? <==> AllErrors(p) != []
  {
  }

  lemma BulletsContain(issues: seq<Issue>, k: nat)
    requires k < |issues|
    ensures Contains(Join(Bullets(issues), "\n"), issues[k].Text())
  {
    JoinContains(Bullets(issues), "\n", k);
    ContainsPart("  - ", issues[k].Text(), "");
    assert "  - " + issues[k].Text() + "" == Bullets(issues)[k];
    ContainsTransitive(Join(Bullets(issues), "\n"), Bullets(issues)[k], issues[k].Text());
  }

  /** The failure message lists the text of every error and of every warning. */
  lemma MessageListsEverything(p: Policy)
    requires Outcome(p).Err?
    ensures forall k :: 0 <= k < |AllErrors(p)| ==> Contains(Outcome(p).error, AllErrors(p)[k].Text())
    ensures forall k :: 0 <= k < |AllWarnings(p)| ==> Contains(Outcome(p).error, AllWarnings(p)[k].Text())
  {
    var errs, warns := AllErrors(p), AllWarnings(p);
    var head := "Policy validation failed:\n";
    var body := Join(Bullets(errs), "\n");
    var tail := if warns != [] then "\n\nWarnings:\n" + Join(Bullets(warns), "\n") else "";
    assert Outcome(p).error == head + body + tail;
    forall k | 0 <= k < |errs|
      ensures Contains(Outcome(p).error, errs[k].Text())
    {
      BulletsContain(errs, k);
      ContainsWithin(head, body, tail, errs[k].Text());
    }
    forall k | 0 <= k < |warns|
      ensures Contains(Outcome(p).error, warns[k].Text())
    {
      BulletsContain(warns, k);
      ContainsWithin("\n\nWarnings:\n", Join(Bullets(warns), "\n"), [], warns[k].Text());
      assert tail == "\n\nWarnings:\n" + Join(Bullets(warns), "\n") + [];
      ContainsWithin(head + body, tail, [], warns[k].Text());
      assert head + body + tail + [] == Outcome(p).error;
    }
  }
}
