/**
 * The emission rules of the RouterOS generator, stated about the line
 * sequences module `RouterOS` specifies its `Generate*` methods by: which
 * line appears, where, under what condition and with what default.
 */
module RouterOSProperties {
  import opened Wrappers
  import opened Strings
  import opened IPv4
  import opened Model
  import opened Seqs
  import opened RouterOS

  // ---------------------------------------------------------------- the whole script

  /** `generate` clears the buffer first, so two calls return the same text. */
  method GenerateTwice(b: RouterOSBackend) returns (first: string, second: string)
    requires b.version == Version(b.policy)
    modifies b
    ensures first == second == Join(ScriptLines(b.policy), "\n")
  {
    first := b.Generate();
    second := b.Generate();
  }

  /** The header names the policy and the target version, `v7` unless the policy gives one. */
  lemma HeaderNamesPolicy(p: Policy)
    ensures |HeaderLines(p)| == 9
    ensures HeaderLines(p)[1] == Comment(TitleText + p.meta.name)
    ensures HeaderLines(p)[3] == Comment(TargetText + OrElse(p.meta.target.version, "v7"))
  {
  }

  /** The script opens with the header and closes with the footer. */
  lemma ScriptFrame(p: Policy)
    ensures ScriptLines(p)[..9] == HeaderLines(p)
    ensures ScriptLines(p)[|ScriptLines(p)| - 4..] == FooterLines()
  {
    var rest := WanLines(p) + LanLines(p) + NatLines(p) + FirewallLines(p);
    Appended5(HeaderLines(p), WanLines(p), LanLines(p), NatLines(p), FirewallLines(p));
    assert BeforeWifi(p) == HeaderLines(p) + rest;
    var tail := rest + WifiLines(p, |BeforeWifi(p)|) + VpnLines(p) + FooterLines();
    Appended4(HeaderLines(p), rest, WifiLines(p, |BeforeWifi(p)|), VpnLines(p));
    AppendAssoc(HeaderLines(p), rest + WifiLines(p, |BeforeWifi(p)|) + VpnLines(p), FooterLines());
    assert ScriptLines(p) == HeaderLines(p) + tail;
  }

  // ---------------------------------------------------------------- WAN

  /** A pppoe WAN adds the client line, then the mtu line exactly when mtu is set
      and non-zero; a missing password becomes the placeholder. */
  lemma PppoeSection(p: Policy)
    requires p.wan.kind == "pppoe"
    ensures |WanLines(p)| == if IsSetInt(p.wan.mtu) then 4 else 3
    ensures WanLines(p)[1] == PppoeClientLine(p.wan)
    ensures IsSetInt(p.wan.mtu) ==> WanLines(p)[2] == MtuLine(p.wan.mtu.value)
    ensures !IsSet(p.wan.passwordRef) ==> Contains(PppoeClientLine(p.wan), PasswordText + PasswordPlaceholder + PppoeTailText)
  {
    var w := p.wan;
    var head := PppoeAddText + w.interface + UserText + Show(w.username);
    if !IsSet(w.passwordRef) {
      assert PppoeClientLine(w) == head + (PasswordText + PasswordPlaceholder + PppoeTailText) + [];
      ContainsPart(head, PasswordText + PasswordPlaceholder + PppoeTailText, []);
    }
  }

  /** Which WAN lines are `/ip dns set` lines. */
  predicate IsDnsLine(line: string)
  {
    StartsWith(line, DnsText)
  }

  /** A line that differs from the DNS command inside its length is no DNS line. */
  lemma NotDnsAt(line: string, k: nat)
    requires k < |line| && k < |DnsText| && line[k] != DnsText[k]
    ensures !IsDnsLine(line)
  {
  }

  /** A static WAN has a DNS line exactly when it names DNS servers; there is never more
      than one, and it lists all servers joined by commas. */
  lemma {:induction false} StaticDns(p: Policy)
    requires p.wan.kind == "static"
    ensures forall i, j :: 0 <= i < j < |WanLines(p)| ==> !(IsDnsLine(WanLines(p)[i]) && IsDnsLine(WanLines(p)[j]))
    ensures (exists i :: 0 <= i < |WanLines(p)| && IsDnsLine(WanLines(p)[i])) <==> p.wan.dns != []
    ensures p.wan.dns != [] ==> DnsLine(p.wan.dns) in WanLines(p)
  {
    var w := p.wan;
    var lines := WanLines(p);
    var r := |RouteLines(w)|;
    assert lines == [WanHeading(w.kind)] + [StaticAddressLine(w)] + RouteLines(w) + DnsLines(w) + [""];
    forall i | 0 <= i < |lines| && i != 2 + r && i != |lines| - 1
      ensures !IsDnsLine(lines[i])
    {
      NotDnsAt(lines[i], if i == 0 then 0 else 4);
    }
    if w.dns != [] {
      assert lines[2 + r] == DnsLine(w.dns);
      assert IsDnsLine(lines[2 + r]);
    }
  }

  // ---------------------------------------------------------------- LAN

  /** No line of a LAN's DHCP server is the bridge line. */
  lemma DhcpHasNoBridge(l: LANConfig)
    ensures BridgeLine !in DhcpServerLines(l)
  {
    if ServesDhcp(l) {
      PoolIsNotBridge(PoolName(l), OrElse(l.dhcp.value.range, DefaultRange));
      ServerIsNotBridge(l.name, LanInterface(l), PoolName(l), l.dhcp.value.leaseTime);
      match ParseNetwork(l.subnet)
      case Some(n) =>
        NetworkIsNotBridge(n, l.gateway, LanDns(l));
      case None =>
    }
  }

  /** No line a LAN entry appends is the bridge line. */
  lemma EntryHasNoBridge(l: LANConfig)
    ensures BridgeLine !in LanEntry(l)
  {
    CommentIsNotCommand(LanText + l.name, BridgeLine);
    if IsSetInt(l.vlanId) {
      VlanIsNotBridge(l.name, l.vlanId.value);
    }
    AddressIsNotBridge(l.gateway + "/" + PrefixText(l), LanInterface(l));
    DhcpHasNoBridge(l);
  }

  lemma EntriesHaveNoBridge(lans: seq<LANConfig>)
    ensures BridgeLine !in FlatMap(lans, LanEntry)
  {
    forall i | 0 <= i < |lans|
      ensures BridgeLine !in LanEntry(lans[i])
    {
      EntryHasNoBridge(lans[i]);
    }
    FlatMapMember(lans, LanEntry, BridgeLine);
  }

  /** With no LANs the section is empty; otherwise it adds the bridge exactly once. */
  lemma BridgeOnce(p: Policy)
    ensures p.lans == [] ==> LanLines(p) == []
    ensures p.lans != [] ==> multiset(LanLines(p))[BridgeLine] == 1
  {
    if p.lans != [] {
      EntriesHaveNoBridge(p.lans);
      CommentIsNotCommand(LanHeadingText, BridgeLine);
    }
  }

  /** The prefix length written after the gateway reads back as the subnet's, or 24
      when the subnet does not parse. */
  lemma AddressPrefix(l: LANConfig)
    ensures ParsePrefix(PrefixText(l)) == Some(match ParseNetwork(l.subnet) case Some(n) => n.prefix case None => 24)
  {
    match ParseNetwork(l.subnet)
    case Some(n) =>
      ParsePrefixOfNatToString(n.prefix);
    case None =>
      assert FallbackPrefix == NatToString(24);
      ParsePrefixOfNatToString(24);
  }

  /** One LAN's lines: its comment, the VLAN line when `vlan_id` is set, the address on
      the VLAN or the bridge, then the DHCP server lines. */
  lemma LanEntryOrder(l: LANConfig)
    ensures var v := |VlanLines(l)|; var d := DhcpServerLines(l);
      && v == (if IsSetInt(l.vlanId) then 1 else 0)
      && |LanEntry(l)| == 3 + v + |d|
      && (IsSetInt(l.vlanId) ==> LanEntry(l)[1] == VlanLine(l.name, l.vlanId.value))
      && LanEntry(l)[1 + v] == AddressLine(l.gateway + "/" + PrefixText(l),
                                           if IsSetInt(l.vlanId) then VlanPrefix + l.name else Bridge)
      && forall k :: 0 <= k < |d| ==> LanEntry(l)[2 + v + k] == d[k]
  {
    assert LanEntry(l) == [Comment(LanText + l.name)] + VlanLines(l) + [LanAddressLine(l)] + DhcpServerLines(l) + [""];
  }

  /** A LAN with DHCP enabled gets a pool (over the default range when none is given),
      a server, and, when the subnet parses, a network whose DNS servers default to the
      gateway, in that order; any other LAN gets none of them. */
  lemma DhcpOrder(l: LANConfig)
    ensures !ServesDhcp(l) ==> DhcpServerLines(l) == []
    ensures ServesDhcp(l) ==>
      && |DhcpServerLines(l)| == (if ParseNetwork(l.subnet).Some? then 3 else 2)
      && DhcpServerLines(l)[0] == PoolLine(PoolName(l), OrElse(l.dhcp.value.range, DefaultRange))
      && DhcpServerLines(l)[1] == ServerLine(l.name, LanInterface(l), PoolName(l), l.dhcp.value.leaseTime)
      && (ParseNetwork(l.subnet).Some? ==>
            DhcpServerLines(l)[2] == NetworkLine(ParseNetwork(l.subnet).value, l.gateway,
              if l.dhcp.value.dnsServers != [] then Join(l.dhcp.value.dnsServers, ",") else l.gateway))
  {
  }

  // ---------------------------------------------------------------- NAT

  /** The NAT section: heading, masquerade exactly when nat is absent or masquerades,
      one dst-nat line per port forward in order, a blank line. */
  lemma NatShape(p: Policy)
    ensures var m := |MasqueradeLines(p)|;
      && m == (if Masquerades(p) then 1 else 0)
      && |NatLines(p)| == 2 + m + |Forwards(p)|
      && (Masquerades(p) ==> NatLines(p)[1] == MasqueradeLine(Egress(p)))
      && forall k :: 0 <= k < |Forwards(p)| ==> NatLines(p)[1 + m + k] == ForwardLine(Egress(p), Forwards(p)[k])
  {
    FlatMapOnes(Forwards(p), ForwardFn(Egress(p)));
    Framed(Comment(NatHeadingText), MasqueradeLines(p), FlatMap(Forwards(p), ForwardFn(Egress(p))), "");
    forall k | 0 <= k < |Forwards(p)|
      ensures NatLines(p)[1 + |MasqueradeLines(p)| + k] == ForwardLine(Egress(p), Forwards(p)[k])
    {
      NatForwardAt(p, k);
    }
  }

  lemma NatForwardAt(p: Policy, k: nat)
    requires k < |Forwards(p)|
    ensures 1 + |MasqueradeLines(p)| + k < |NatLines(p)|
    ensures NatLines(p)[1 + |MasqueradeLines(p)| + k] == ForwardLine(Egress(p), Forwards(p)[k])
  {
    FramedOnes(Comment(NatHeadingText), MasqueradeLines(p), Forwards(p), ForwardFn(Egress(p)), "", k);
  }

  /** Masquerade is emitted exactly when nat is absent or asks for it. */
  lemma MasqueradeIff(p: Policy)
    ensures MasqueradeLine(Egress(p)) in NatLines(p) <==> Masquerades(p)
  {
    if Masquerades(p) {
      NatShape(p);
    } else {
      forall i | 0 <= i < |NatLines(p)|
        ensures NatLines(p)[i] != MasqueradeLine(Egress(p))
      {
        NotMasqueradeAt(p, i);
      }
    }
  }

  /** Without masquerade, no line of the NAT section is the masquerade line. */
  lemma NotMasqueradeAt(p: Policy, i: nat)
    requires !Masquerades(p) && i < |NatLines(p)|
    ensures NatLines(p)[i] != MasqueradeLine(Egress(p))
  {
    var e := Egress(p);
    var line := MasqueradeLine(e);
    var lines := NatLines(p);
    FlatMapOnes(Forwards(p), ForwardFn(e));
    Framed(Comment(NatHeadingText), MasqueradeLines(p), FlatMap(Forwards(p), ForwardFn(e)), "");
    assert |lines| == 2 + |Forwards(p)|;
    if i == 0 {
      CommentIsNotCommand(NatHeadingText, line);
    } else if i < |lines| - 1 {
      NatForwardAt(p, i - 1);
      ForwardIsNotMasquerade(e, Forwards(p)[i - 1], e);
    } else {
      assert lines[i] == "" && |line| >= |IpMenu| > 0;
    }
  }

  /** The dst-nat line of a port forward names the egress interface as its in-interface. */
  lemma ForwardInInterface(egress: string, pf: PortForward)
    ensures Contains(ForwardLine(egress, pf), InInterfaceText + egress)
  {
    var head := DstNatText + ForwardProtocol(pf.protocol) + DstPortText + IntToString(pf.externalPort);
    var tail := ToAddressesText + pf.internalIp + ToPortsText + IntToString(pf.internalPort) + ForwardComment(pf);
    assert ForwardLine(egress, pf) == head + (InInterfaceText + egress) + tail;
    ContainsPart(head, InInterfaceText + egress, tail);
  }

  // ---------------------------------------------------------------- firewall

  /** The firewall section: heading, the six baseline rules, one line per custom rule in
      order, the default drop exactly when the firewall is absent or drops by default. */
  lemma FirewallShape(p: Policy)
    ensures var rs := Rules(p);
      && |FirewallLines(p)| == (if DropsByDefault(p) then 9 else 8) + |rs|
      && FirewallLines(p)[1..7] == BaselineLines
      && (forall k :: 0 <= k < |rs| ==> FirewallLines(p)[7 + k] == RuleLine(Egress(p), rs[k]))
      && (FirewallLines(p)[7 + |rs|] == DefaultDropLine <==> DropsByDefault(p))
  {
    var rs := Rules(p);
    var e := Egress(p);
    FlatMapOnes(rs, RuleFn(e));
    var body := FlatMap(rs, RuleFn(e));
    var lines := FirewallLines(p);
    assert lines == [Comment(FirewallHeadingText)] + BaselineLines + body + DefaultDropLines(p) + [""];
    assert |BaselineLines| == 6;
    forall k | 1 <= k < 7
      ensures lines[k] == BaselineLines[k - 1]
    {
    }
    forall k | 0 <= k < |rs|
      ensures lines[7 + k] == RuleLine(e, rs[k])
    {
      assert lines[7 + k] == body[k];
    }
    if !DropsByDefault(p) {
      assert lines[7 + |rs|] == "";
    }
  }

  /** A custom rule's parts: only the first zone of each side becomes an interface (the
      `wan` zone being the egress), the action, and the comment falling back to the name. */
  lemma RuleShape(egress: string, r: FirewallRule)
    ensures var parts := RuleParts(egress, r);
      && |parts| == 4 + (if r.fromZones != [] then 1 else 0) + (if r.toZones != [] then 1 else 0)
                      + (if IsSet(r.protocol) then 1 else 0) + (if IsSet(r.port) then 1 else 0)
      && parts[0] == FilterAdd && parts[1] == ForwardChain
      && (r.fromZones != [] ==> parts[2] == InPart + ZoneInterface(egress, r.fromZones[0]))
      && (r.fromZones != [] && r.fromZones[0] == "wan" ==> parts[2] == InPart + egress)
      && (r.toZones != [] ==>
            parts[if r.fromZones != [] then 3 else 2] == OutPart + ZoneInterface(egress, r.toZones[0]))
      && parts[|parts| - 2] == ActionPart + r.action
      && parts[|parts| - 1] == Quoted(CommentPart, if IsSet(r.comment) then r.comment.value else r.name)
  {
  }

  // ---------------------------------------------------------------- WiFi

  /** The wireless line of an entry names the interface after its own position in the
      buffer; a profile line precedes it exactly for wpa2-psk. */
  lemma WirelessLinePosition(w: WiFiConfig, at: nat)
    ensures var e := WifiEntry(w, at);
      && |e| == (if CreatesProfile(w) then 2 else 1)
      && e[|e| - 1] == Join(WirelessParts(w, WlanName(at + |e| - 1)), " ")
  {
  }

  /** The `/interface wireless set` command that configures a WiFi interface. */
  predicate IsWirelessLine(line: string)
  {
    StartsWith(line, WirelessSetText)
  }

  lemma ProfileIsNotWireless(profile: string, password: string)
    ensures !IsWirelessLine(ProfileLine(profile, password))
  {
    DifferAt(ProfileLine(profile, password), WirelessSetText, |WirelessMenu| + 2);
  }

  /** `sep.join(parts)` starts with the first part and the separator. */
  lemma JoinStart(parts: seq<string>, sep: string)
    requires |parts| >= 2
    ensures StartsWith(Join(parts, sep), parts[0] + sep)
  {
    assert Join(parts, sep) == parts[0] + sep + Join(parts[1..], sep);
  }

  /** In one entry only the last line is a wireless command, and it names the interface
      after its own position. */
  lemma EntryWirelessLine(w: WiFiConfig, at: nat, j: nat)
    requires j < |WifiEntry(w, at)| && IsWirelessLine(WifiEntry(w, at)[j])
    ensures j == |WifiEntry(w, at)| - 1
    ensures StartsWith(WifiEntry(w, at)[j], WirelessSetText + WlanName(at + j) + " ")
  {
    WirelessLinePosition(w, at);
    if CreatesProfile(w) {
      ProfileIsNotWireless(ProfilePrefix + w.name, OrElse(w.security.value.passwordRef, PasswordPlaceholder));
    }
    JoinStart(WirelessParts(w, WlanName(at + |WifiEntry(w, at)| - 1)), " ");
  }

  /** Every wireless command of the WiFi section names its interface `wlan<N>` where N
      is the command's own position in the buffer. */
  lemma {:induction false} WirelessNamesArePositions(ws: seq<WiFiConfig>, at: nat, j: nat)
    requires j < |WifiEntries(ws, at)| && IsWirelessLine(WifiEntries(ws, at)[j])
    ensures StartsWith(WifiEntries(ws, at)[j], WirelessSetText + WlanName(at + j) + " ")
    decreases ws
  {
    var e := WifiEntry(ws[0], at);
    var rest := WifiEntries(ws[1..], at + |e|);
    assert WifiEntries(ws, at) == e + rest;
    if j < |e| {
      assert WifiEntries(ws, at)[j] == e[j];
      EntryWirelessLine(ws[0], at, j);
    } else {
      assert WifiEntries(ws, at)[j] == rest[j - |e|];
      WirelessNamesArePositions(ws[1..], at + |e|, j - |e|);
    }
  }

  /** The `security-profile=` part appears whenever security is present, whatever the
      encryption, even though only wpa2-psk creates the profile. */
  lemma SecurityProfilePart(w: WiFiConfig, interface: string)
    ensures ProfilePart + w.name in WirelessParts(w, interface) <==> w.security.Some?
  {
    var parts := WirelessParts(w, interface);
    var part := ProfilePart + w.name;
    if w.security.None? {
      forall i | 0 <= i < |parts|
        ensures parts[i] != part
      {
        DifferAt(parts[i], part, if i == 3 then 1 else 0);
      }
    }
  }

  // ---------------------------------------------------------------- VPN

  /** Only a WireGuard VPN adds lines. */
  lemma VpnEntryIff(v: VPNConfig)
    ensures VpnEntry(v) != [] <==> v.kind == "wireguard"
  {
  }

  /** `listen-port=` is a part of the interface command exactly for a server with a port. */
  lemma ListenPortIff(v: VPNConfig)
    ensures (exists i :: 0 <= i < |WgParts(v)| && StartsWith(WgParts(v)[i], ListenPortPart)) <==> Listens(v)
  {
    var parts := WgParts(v);
    if Listens(v) {
      assert StartsWith(parts[3], ListenPortPart);
    }
    forall i | 0 <= i < 3
      ensures !StartsWith(parts[i], ListenPortPart)
    {
      assert parts[i][0] != ListenPortPart[0];
    }
  }

  /** A WireGuard section: heading, the interface, its address when given, one line per
      peer in order; missing keys become placeholders and a peer without allowed
      addresses allows everything. */
  lemma WireguardShape(v: VPNConfig)
    ensures var a := |VpnAddressLines(v)|;
      && a == (if v.allowedIps != [] then 1 else 0)
      && |WireguardLines(v)| == 3 + a + |v.peers|
      && WireguardLines(v)[1] == Join(WgParts(v), " ")
      && WgParts(v)[2] == Quoted(PrivateKeyPart, if IsSet(v.privateKeyRef) then v.privateKeyRef.value else PrivateKeyPlaceholder)
      && forall k :: 0 <= k < |v.peers| ==>
           WireguardLines(v)[2 + a + k] ==
             PeerLine(WgName(v),
                      if IsSet(v.peers[k].publicKeyRef) then v.peers[k].publicKeyRef.value else PublicKeyPlaceholder,
                      if v.peers[k].allowedIps != [] then Join(v.peers[k].allowedIps, ",") else AnyAddress,
                      v.peers[k].name)
  {
    var f := PeerFn(WgName(v));
    FlatMapOnes(v.peers, f);
    var a := VpnAddressLines(v);
    var body := FlatMap(v.peers, f);
    assert WireguardLines(v) == [WireguardHeading(v.role)] + [Join(WgParts(v), " ")] + a + body + [""];
    forall k | 0 <= k < |v.peers|
      ensures WireguardLines(v)[2 + |a| + k] == f(v.peers[k])[0]
    {
      assert WireguardLines(v)[2 + |a| + k] == body[k];
    }
  }

  // ---------------------------------------------------------------- telling lines apart

  /** Two strings differ where their characters differ. */
  lemma DifferAt(a: string, b: string, i: nat)
    requires i < |a| && i < |b| && a[i] != b[i]
    ensures a != b
  {
  }

  /** A comment line is never a command line. */
  lemma CommentIsNotCommand(text: string, command: string)
    requires command != [] && command[0] == '/'
    ensures Comment(text) != command
  {
    DifferAt(Comment(text), command, 0);
  }

  /** An `/ip ...` command is never the `/interface bridge` command. */
  lemma IpIsNotBridge(line: string)
    requires |line| > 2 && line[2] == IpMenu[2]
    ensures line != BridgeLine
  {
    DifferAt(line, BridgeLine, 2);
  }

  lemma VlanIsNotBridge(name: string, vlanId: int)
    ensures VlanLine(name, vlanId) != BridgeLine
  {
    DifferAt(VlanLine(name, vlanId), BridgeLine, 11);
  }

  lemma AddressIsNotBridge(address: string, interface: string)
    ensures AddressLine(address, interface) != BridgeLine
  {
    IpIsNotBridge(AddressLine(address, interface));
  }

  lemma PoolIsNotBridge(pool: string, range: string)
    ensures PoolLine(pool, range) != BridgeLine
  {
    IpIsNotBridge(PoolLine(pool, range));
  }

  lemma ServerIsNotBridge(name: string, interface: string, pool: string, leaseTime: string)
    ensures ServerLine(name, interface, pool, leaseTime) != BridgeLine
  {
    IpIsNotBridge(ServerLine(name, interface, pool, leaseTime));
  }

  lemma NetworkIsNotBridge(n: Network, gateway: string, dns: string)
    ensures NetworkLine(n, gateway, dns) != BridgeLine
  {
    IpIsNotBridge(NetworkLine(n, gateway, dns));
  }

  /** A dst-nat line is never a masquerade line: the chains differ. */
  lemma ForwardIsNotMasquerade(egress: string, pf: PortForward, other: string)
    ensures ForwardLine(egress, pf) != MasqueradeLine(other)
  {
    DifferAt(ForwardLine(egress, pf), MasqueradeLine(other), |NatAdd|);
  }
}
