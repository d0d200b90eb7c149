/**
 * The RouterOS backend (backends/routeros_backend.py): a policy is lowered
 * into an ordered list of RouterOS script lines, appended one at a time to
 * the backend's `commands` buffer, and the script is those lines joined by
 * newlines.
 *
 * Each section has a specification function giving the lines it appends
 * (`WanLines`, `LanLines`, ...); each `Generate*` method of the class is
 * proved to append exactly those lines, and the properties of the lines are
 * lemmas in module RouterOSProperties.
 */
module RouterOS {
  import opened Wrappers
  import opened Strings
  import opened IPv4
  import opened Model
  import opened Seqs

  // ---------------------------------------------------------------- fixed text
  // The literal text of the script is kept in named constants, so that the
  // proofs about line order need not look inside it.

  /** The two command menus every command line starts from. */
  const InterfaceMenu: string := "/interface "
  const IpMenu: string := "/ip "

  const RuleText: string := Repeat('=', 60)
  const TitleText: string := "RouterOS Configuration for: "
  const GeneratedText: string := "Generated by router-policy-to-config"
  const TargetText: string := "Target: RouterOS "
  const ReviewText: string := "WARNING: Review this configuration before applying!"
  const BackupText: string := "Make sure to back up your current configuration first."
  const CompleteText: string := "Configuration complete"
  const ApplyText: string := "Apply with: /import file=thisfile.rsc"
  const DefaultVersion: string := "v7"

  const WanHeadingText: string := "WAN Configuration ("
  const PppoeAddText: string := InterfaceMenu + "pppoe-client add name=pppoe-out1 interface="
  const UserText: string := " user=\""
  const PasswordText: string := "\" password=\""
  const PppoeTailText: string := "\" add-default-route=yes use-peer-dns=yes disabled=no"
  const MtuText: string := InterfaceMenu + "pppoe-client set pppoe-out1 mtu="
  const DhcpClientText: string := IpMenu + "dhcp-client add interface="
  const ClientTailText: string := " add-default-route=yes use-peer-dns=yes disabled=no"
  const AddressText: string := IpMenu + "address add address="
  const InterfaceText: string := " interface="
  const RouteText: string := IpMenu + "route add dst-address=0.0.0.0/0 gateway="
  const DnsText: string := IpMenu + "dns set servers="
  const PppoeInterface: string := "pppoe-out1"

  const LanHeadingText: string := "LAN Configuration"
  const LanText: string := "LAN: "
  const Bridge: string := "bridge-lan"
  const BridgeLine: string := InterfaceMenu + "bridge add name=" + Bridge + " protocol-mode=rstp"
  const VlanPrefix: string := "vlan-"
  const VlanAddText: string := InterfaceMenu + "vlan add name=vlan-"
  const VlanIdText: string := " vlan-id="
  const VlanTailText: string := " interface=bridge-lan"
  const FallbackPrefix: string := "24"
  const PoolPrefix: string := "dhcp-pool-"
  const PoolAddText: string := IpMenu + "pool add name="
  const RangesText: string := " ranges="
  const DefaultRange: string := "192.168.1.100-192.168.1.200"
  const ServerAddText: string := IpMenu + "dhcp-server add name=dhcp-"
  const AddressPoolText: string := " address-pool="
  const LeaseText: string := " lease-time="
  const DisabledNoText: string := " disabled=no"
  const NetworkAddText: string := IpMenu + "dhcp-server network add address="
  const GatewayText: string := " gateway="
  const DnsServerText: string := " dns-server="

  const NatHeadingText: string := "NAT Configuration"
  const NatAdd: string := IpMenu + "firewall nat add chain="
  const MasqueradeText: string := NatAdd + "srcnat out-interface="
  const MasqueradeTailText: string := " action=masquerade comment=\"NAT for internet access\""
  const DstNatText: string := NatAdd + "dstnat protocol="
  const DstPortText: string := " dst-port="
  const InInterfaceText: string := " in-interface="
  const ToAddressesText: string := " action=dst-nat to-addresses="
  const ToPortsText: string := " to-ports="
  const CommentText: string := " comment=\""
  const BothProtocols: string := "tcp,udp"

  const FirewallHeadingText: string := "Firewall Configuration"
  const FilterAdd: string := IpMenu + "firewall filter add"
  const ForwardChain: string := "chain=forward"
  const InPart: string := "in-interface="
  const OutPart: string := "out-interface="
  const ProtocolPart: string := "protocol="
  const PortPart: string := "dst-port="
  const ActionPart: string := "action="
  const CommentPart: string := "comment=\""
  const WireguardDefault: string := "wireguard1"
  const DefaultDropLine: string := FilterAdd + " chain=forward action=drop comment=\"Default drop\""

  /** The six protective filter rules every script carries. */
  const BaselineLines: seq<string> := [
    FilterAdd + " chain=input connection-state=established,related action=accept comment=\"Accept established/related\"",
    FilterAdd + " chain=input connection-state=invalid action=drop comment=\"Drop invalid\"",
    FilterAdd + " chain=input in-interface=bridge-lan action=accept comment=\"Allow LAN to router\"",
    FilterAdd + " chain=input action=drop comment=\"Drop all other input\"",
    FilterAdd + " chain=forward connection-state=established,related action=accept comment=\"Accept established/related\"",
    FilterAdd + " chain=forward connection-state=invalid action=drop comment=\"Drop invalid\""
  ]

  const WifiHeadingText: string := "WiFi Configuration"
  const WirelessMenu: string := InterfaceMenu + "wireless "
  const ProfileAddText: string := WirelessMenu + "security-profiles" + " add name="
  const ProfileModeText: string := " mode=dynamic-keys authentication-types=wpa2-psk unicast-ciphers=aes-ccm group-ciphers=aes-ccm"
  const PreSharedKeyText: string := " wpa2-pre-shared-key=\""
  const ProfilePrefix: string := "sec-"
  const WirelessSetText: string := WirelessMenu + "set "
  const DisabledPart: string := "disabled=no"
  const ModePart: string := "mode=ap-bridge"
  const FrequencyPart: string := "frequency=auto"
  const SsidPart: string := "ssid=\""
  const BandPart: string := "band="
  const Band24: string := "2ghz-b/g/n"
  const Band5: string := "5ghz-a/n/ac"
  const ChannelPart: string := "channel-width=20/40mhz-XX"
  const ProfilePart: string := "security-profile=sec-"
  const HiddenPart: string := "hide-ssid=yes"
  const WlanPrefix: string := "wlan"

  const WireguardHeadingText: string := "WireGuard VPN ("
  const WireguardAdd: string := InterfaceMenu + "wireguard add"
  const NamePart: string := "name="
  const PrivateKeyPart: string := "private-key=\""
  const ListenPortPart: string := "listen-port="
  const PeerAddText: string := InterfaceMenu + "wireguard peers add interface="
  const PublicKeyText: string := " public-key=\""
  const AllowedAddressText: string := "\" allowed-address="

  const PasswordPlaceholder: string := "<PASSWORD_NOT_SET>"
  const PrivateKeyPlaceholder: string := "<PRIVATE_KEY_NOT_SET>"
  const PublicKeyPlaceholder: string := "<PUBLIC_KEY_NOT_SET>"
  const AnyAddress: string := "0.0.0.0/0"

  /** A comment line, as `_add_comment` writes it. */
  function Comment(text: string): string
  {
    "# " + text
  }

  /** The RouterOS version the script targets. */
  function Version(p: Policy): string
  {
    OrElse(p.meta.target.version, DefaultVersion)
  }

  /** The interface internet traffic leaves by. */
  function Egress(p: Policy): string
  {
    if p.wan.kind == "pppoe" then PppoeInterface else p.wan.interface
  }

  /** `/ip address add` of an address on an interface. */
  function AddressLine(address: string, interface: string): string
  {
    AddressText + address + InterfaceText + interface
  }

  /** A `key="value"` part. */
  function Quoted(key: string, value: string): string
  {
    key + value + "\""
  }

  // ---------------------------------------------------------------- header and footer

  function HeaderLines(p: Policy): seq<string>
  {
    [ Comment(RuleText), Comment(TitleText + p.meta.name), Comment(GeneratedText),
      Comment(TargetText + Version(p)), Comment(RuleText), "",
      Comment(ReviewText), Comment(BackupText), "" ]
  }

  function FooterLines(): seq<string>
  {
    [Comment(RuleText), Comment(CompleteText), Comment(ApplyText), Comment(RuleText)]
  }

  // ---------------------------------------------------------------- WAN

  function WanHeading(kind: string): string
  {
    Comment(WanHeadingText + kind + ")")
  }

  function PppoeClientLine(w: WANConfig): string
  {
    PppoeAddText + w.interface + UserText + Show(w.username) + PasswordText
      + OrElse(w.passwordRef, PasswordPlaceholder) + PppoeTailText
  }

  function MtuLine(mtu: int): string
  {
    MtuText + IntToString(mtu)
  }

  function DhcpClientLine(w: WANConfig): string
  {
    DhcpClientText + w.interface + ClientTailText
  }

  function StaticAddressLine(w: WANConfig): string
  {
    AddressLine(Show(w.ip) + "/" + Show(w.netmask), w.interface)
  }

  function RouteLine(gateway: string): string
  {
    RouteText + gateway
  }

  function DnsLine(servers: seq<string>): string
  {
    DnsText + Join(servers, ",")
  }

  function MtuLines(w: WANConfig): seq<string>
  {
    if IsSetInt(w.mtu) then [MtuLine(w.mtu.value)] else []
  }

  function PppoeLines(w: WANConfig): seq<string>
  {
    [PppoeClientLine(w)] + MtuLines(w)
  }

  function RouteLines(w: WANConfig): seq<string>
  {
    if IsSet(w.gateway) then [RouteLine(w.gateway.value)] else []
  }

  /** At most one DNS line, naming every server. */
  function DnsLines(w: WANConfig): seq<string>
  {
    if w.dns != [] then [DnsLine(w.dns)] else []
  }

  function StaticLines(w: WANConfig): seq<string>
  {
    [StaticAddressLine(w)] + RouteLines(w) + DnsLines(w)
  }

  /** The type-specific lines of the WAN section. */
  function WanBody(w: WANConfig): seq<string>
  {
    if w.kind == "pppoe" then PppoeLines(w)
    else if w.kind == "dhcp" then [DhcpClientLine(w)]
    else if w.kind == "static" then StaticLines(w)
    else []
  }

  function WanLines(p: Policy): seq<string>
  {
    [WanHeading(p.wan.kind)] + WanBody(p.wan) + [""]
  }

  // ---------------------------------------------------------------- LAN

  /** The interface a LAN's address and DHCP server go on. */
  function LanInterface(l: LANConfig): string
  {
    if IsSetInt(l.vlanId) then VlanPrefix + l.name else Bridge
  }

  function VlanLine(name: string, vlanId: int): string
  {
    VlanAddText + name + VlanIdText + IntToString(vlanId) + VlanTailText
  }

  function VlanLines(l: LANConfig): seq<string>
  {
    if IsSetInt(l.vlanId) then [VlanLine(l.name, l.vlanId.value)] else []
  }

  /** The prefix length written after the gateway: the subnet's, or 24 when it does not parse. */
  function PrefixText(l: LANConfig): string
  {
    match ParseNetwork(l.subnet)
    case Some(n) => NatToString(n.prefix)
    case None => FallbackPrefix
  }

  function LanAddressLine(l: LANConfig): string
  {
    AddressLine(l.gateway + "/" + PrefixText(l), LanInterface(l))
  }

  predicate ServesDhcp(l: LANConfig)
  {
    l.dhcp.Some? && l.dhcp.value.enabled
  }

  function PoolName(l: LANConfig): string
  {
    PoolPrefix + l.name
  }

  function PoolLine(pool: string, range: string): string
  {
    PoolAddText + pool + RangesText + range
  }

  function ServerLine(name: string, interface: string, pool: string, leaseTime: string): string
  {
    ServerAddText + name + InterfaceText + interface + AddressPoolText + pool + LeaseText + leaseTime + DisabledNoText
  }

  function NetworkLine(n: Network, gateway: string, dns: string): string
  {
    NetworkAddText + FormatNetwork(n) + GatewayText + gateway + DnsServerText + dns
  }

  /** The DNS servers a DHCP network hands out: the configured ones, or the gateway. */
  function LanDns(l: LANConfig): string
    requires l.dhcp.Some?
  {
    if l.dhcp.value.dnsServers != [] then Join(l.dhcp.value.dnsServers, ",") else l.gateway
  }

  function NetworkLines(l: LANConfig): seq<string>
    requires l.dhcp.Some?
  {
    match ParseNetwork(l.subnet)
    case Some(n) => [NetworkLine(n, l.gateway, LanDns(l))]
    case None => []
  }

  /** Pool, server and (when the subnet parses) network, in that order. */
  function DhcpLines(l: LANConfig): seq<string>
    requires l.dhcp.Some?
  {
    [PoolLine(PoolName(l), OrElse(l.dhcp.value.range, DefaultRange))]
    + [ServerLine(l.name, LanInterface(l), PoolName(l), l.dhcp.value.leaseTime)]
    + NetworkLines(l)
  }

  function DhcpServerLines(l: LANConfig): seq<string>
  {
    if ServesDhcp(l) then DhcpLines(l) else []
  }

  /** The lines one LAN appends. */
  function LanEntry(l: LANConfig): seq<string>
  {
    [Comment(LanText + l.name)] + VlanLines(l) + [LanAddressLine(l)] + DhcpServerLines(l) + [""]
  }

  function LanLines(p: Policy): seq<string>
  {
    if p.lans == [] then [] else [Comment(LanHeadingText)] + [BridgeLine] + [""] + FlatMap(p.lans, LanEntry)
  }

  // ---------------------------------------------------------------- NAT

  predicate Masquerades(p: Policy)
  {
    p.natConfig.None? || p.natConfig.value.masquerade
  }

  function MasqueradeLine(egress: string): string
  {
    MasqueradeText + egress + MasqueradeTailText
  }

  function ForwardProtocol(protocol: string): string
  {
    if protocol == "both" then BothProtocols else protocol
  }

  function ForwardComment(pf: PortForward): string
  {
    if IsSet(pf.name) then Quoted(CommentText, pf.name.value) else ""
  }

  function DstNatLine(protocol: string, pf: PortForward, egress: string, comment: string): string
  {
    DstNatText + protocol + DstPortText + IntToString(pf.externalPort) + InInterfaceText + egress
      + ToAddressesText + pf.internalIp + ToPortsText + IntToString(pf.internalPort) + comment
  }

  function ForwardLine(egress: string, pf: PortForward): string
  {
    DstNatLine(ForwardProtocol(pf.protocol), pf, egress, ForwardComment(pf))
  }

  function ForwardFn(egress: string): PortForward -> seq<string>
  {
    (pf: PortForward) => [ForwardLine(egress, pf)]
  }

  function Forwards(p: Policy): seq<PortForward>
  {
    if p.natConfig.Some? then p.natConfig.value.portForwards else []
  }

  function MasqueradeLines(p: Policy): seq<string>
  {
    if Masquerades(p) then [MasqueradeLine(Egress(p))] else []
  }

  function NatLines(p: Policy): seq<string>
  {
    [Comment(NatHeadingText)] + MasqueradeLines(p) + FlatMap(Forwards(p), ForwardFn(Egress(p))) + [""]
  }

  // ---------------------------------------------------------------- firewall

  /** The interface a firewall zone stands for. */
  function ZoneInterface(egress: string, zone: string): string
  {
    if zone == "wan" then egress else if zone == "vpn" then WireguardDefault else Bridge
  }

  function ZoneInterfaces(egress: string, zones: seq<string>): seq<string>
  {
    seq(|zones|, k requires 0 <= k < |zones| => ZoneInterface(egress, zones[k]))
  }

  function RuleParts(egress: string, r: FirewallRule): seq<string>
  {
    var from := ZoneInterfaces(egress, r.fromZones);
    var to := ZoneInterfaces(egress, r.toZones);
    [FilterAdd, ForwardChain]
    + (if from != [] then [InPart + from[0]] else [])
    + (if to != [] then [OutPart + to[0]] else [])
    + (if IsSet(r.protocol) then [ProtocolPart + r.protocol.value] else [])
    + (if IsSet(r.port) then [PortPart + r.port.value] else [])
    + [ActionPart + r.action]
    + [Quoted(CommentPart, OrElse(r.comment, r.name))]
  }

  function RuleLine(egress: string, r: FirewallRule): string
  {
    Join(RuleParts(egress, r), " ")
  }

  function RuleFn(egress: string): FirewallRule -> seq<string>
  {
    (r: FirewallRule) => [RuleLine(egress, r)]
  }

  function Rules(p: Policy): seq<FirewallRule>
  {
    if p.firewall.Some? then p.firewall.value.rules else []
  }

  predicate DropsByDefault(p: Policy)
  {
    p.firewall.None? || p.firewall.value.defaultPolicy == "drop"
  }

  function DefaultDropLines(p: Policy): seq<string>
  {
    if DropsByDefault(p) then [DefaultDropLine] else []
  }

  function FirewallLines(p: Policy): seq<string>
  {
    [Comment(FirewallHeadingText)] + BaselineLines + FlatMap(Rules(p), RuleFn(Egress(p))) + DefaultDropLines(p) + [""]
  }

  // ---------------------------------------------------------------- WiFi

  /** A security profile is only created for wpa2-psk. */
  predicate CreatesProfile(w: WiFiConfig)
  {
    w.security.Some? && w.security.value.encryption == "wpa2-psk"
  }

  function ProfileLine(profile: string, password: string): string
  {
    ProfileAddText + profile + ProfileModeText + Quoted(PreSharedKeyText, password)
  }

  function ProfileLines(w: WiFiConfig): seq<string>
  {
    if CreatesProfile(w) then
      [ProfileLine(ProfilePrefix + w.name, OrElse(w.security.value.passwordRef, PasswordPlaceholder))]
    else
      []
  }

  function Band(w: WiFiConfig): string
  {
    if w.band == Some("2.4ghz") then Band24 else Band5
  }

  function WirelessParts(w: WiFiConfig, interface: string): seq<string>
  {
    [WirelessSetText + interface, DisabledPart, ModePart, Quoted(SsidPart, w.ssid), FrequencyPart, BandPart + Band(w)]
    + (if IsSetInt(w.channel) then [ChannelPart] else [])
    + (if w.security.Some? then [ProfilePart + w.name] else [])
    + (if w.hidden then [HiddenPart] else [])
  }

  /** The wireless interface named after the number of lines already in the buffer. */
  function WlanName(count: nat): string
  {
    WlanPrefix + NatToString(count)
  }

  /** The lines one WiFi entry appends when `at` lines precede it. */
  function WifiEntry(w: WiFiConfig, at: nat): seq<string>
  {
    ProfileLines(w) + [Join(WirelessParts(w, WlanName(at + |ProfileLines(w)|)), " ")]
  }

  /** The entries of all WiFi networks, in order, when `at` lines precede them. */
  function WifiEntries(ws: seq<WiFiConfig>, at: nat): seq<string>
  {
    FlatMapAt(ws, at, WifiEntry)
  }

  /** The WiFi section when `at` lines precede it. */
  function WifiLines(p: Policy, at: nat): seq<string>
  {
    if p.wifi == [] then [] else [Comment(WifiHeadingText)] + WifiEntries(p.wifi, at + 1) + [""]
  }

  // ---------------------------------------------------------------- VPN

  function WgName(v: VPNConfig): string
  {
    OrElse(v.interface, WireguardDefault)
  }

  predicate Listens(v: VPNConfig)
  {
    v.role == "server" && IsSetInt(v.listenPort)
  }

  function WgParts(v: VPNConfig): seq<string>
  {
    [WireguardAdd, NamePart + WgName(v), Quoted(PrivateKeyPart, OrElse(v.privateKeyRef, PrivateKeyPlaceholder))]
    + (if Listens(v) then [ListenPortPart + IntToString(v.listenPort.value)] else [])
  }

  function PeerAllowed(peer: VPNPeer): string
  {
    if peer.allowedIps != [] then Join(peer.allowedIps, ",") else AnyAddress
  }

  function PeerLine(interface: string, publicKey: string, allowed: string, name: string): string
  {
    PeerAddText + interface + PublicKeyText + publicKey + AllowedAddressText + allowed + Quoted(CommentText, name)
  }

  function PeerFn(interface: string): VPNPeer -> seq<string>
  {
    (peer: VPNPeer) => [PeerLine(interface, OrElse(peer.publicKeyRef, PublicKeyPlaceholder), PeerAllowed(peer), peer.name)]
  }

  function VpnAddressLines(v: VPNConfig): seq<string>
  {
    if v.allowedIps != [] then [AddressLine(v.allowedIps[0], WgName(v))] else []
  }

  function WireguardHeading(role: string): string
  {
    Comment(WireguardHeadingText + role + ")")
  }

  function WireguardLines(v: VPNConfig): seq<string>
  {
    [WireguardHeading(v.role)] + [Join(WgParts(v), " ")] + VpnAddressLines(v) + FlatMap(v.peers, PeerFn(WgName(v))) + [""]
  }

  /** The lines one VPN appends: nothing unless it is WireGuard. */
  function VpnEntry(v: VPNConfig): seq<string>
  {
    if v.kind == "wireguard" then WireguardLines(v) else []
  }

  function VpnLines(p: Policy): seq<string>
  {
    FlatMap(p.vpn, VpnEntry)
  }

  // ---------------------------------------------------------------- the script

  function BeforeWifi(p: Policy): seq<string>
  {
    HeaderLines(p) + WanLines(p) + LanLines(p) + NatLines(p) + FirewallLines(p)
  }

  /** Every line of the script, section by section. */
  function ScriptLines(p: Policy): seq<string>
  {
    BeforeWifi(p) + WifiLines(p, |BeforeWifi(p)|) + VpnLines(p) + FooterLines()
  }

  // ---------------------------------------------------------------- the generator

  /** Lists the interfaces the zones map to, one per zone, in order. */
  method MapZones(egress: string, zones: seq<string>) returns (interfaces: seq<string>)
    ensures interfaces == ZoneInterfaces(egress, zones)
  {
    interfaces := [];
    for k := 0 to |zones|
      invariant interfaces == ZoneInterfaces(egress, zones[..k])
    {
      var zone := zones[k];
      if zone == "wan" {
        interfaces := interfaces + [egress];
      } else if zone == "vpn" {
        interfaces := interfaces + [WireguardDefault];
      } else {
        interfaces := interfaces + [Bridge];
      }
    }
    assert zones[..|zones|] == zones;
  }

  class RouterOSBackend {
    const policy: Policy
    const version: string
    var commands: seq<string>

    constructor(policy: Policy)
      ensures this.policy == policy && version == Version(policy) && commands == []
    {
      this.policy := policy;
      version := OrElse(policy.meta.target.version, DefaultVersion);
      commands := [];
    }

    method AddComment(text: string)
      modifies this
      ensures commands == old(commands) + [Comment(text)]
    {
      commands := commands + ["# " + text];
    }

    method AddCommand(command: string)
      modifies this
      ensures commands == old(commands) + [command]
    {
      commands := commands + [command];
    }

    method AddBlank()
      modifies this
      ensures commands == old(commands) + [""]
    {
      commands := commands + [""];
    }

    method GenerateMtu(wan: WANConfig)
      modifies this
      ensures commands == old(commands) + MtuLines(wan)
    {
      if IsSetInt(wan.mtu) {
        AddCommand(MtuLine(wan.mtu.value));
      }
    }

    method GenerateRoute(wan: WANConfig)
      modifies this
      ensures commands == old(commands) + RouteLines(wan)
    {
      if IsSet(wan.gateway) {
        AddCommand(RouteLine(wan.gateway.value));
      }
    }

    method GenerateDns(wan: WANConfig)
      modifies this
      ensures commands == old(commands) + DnsLines(wan)
    {
      // the source's loop over the servers stops after writing them all on one line
      if wan.dns != [] {
        AddCommand(DnsLine(wan.dns));
      }
    }

    method GenerateWanBody(wan: WANConfig)
      modifies this
      ensures commands == old(commands) + WanBody(wan)
    {
      if wan.kind == "pppoe" {
        AddCommand(PppoeClientLine(wan));
        GenerateMtu(wan);
        AppendAssoc(old(commands), [PppoeClientLine(wan)], MtuLines(wan));
      } else if wan.kind == "dhcp" {
        AddCommand(DhcpClientLine(wan));
      } else if wan.kind == "static" {
        AddCommand(StaticAddressLine(wan));
        GenerateRoute(wan);
        GenerateDns(wan);
        Appended4(old(commands), [StaticAddressLine(wan)], RouteLines(wan), DnsLines(wan));
      }
    }

    method GenerateWan()
      modifies this
      ensures commands == old(commands) + WanLines(policy)
    {
      AddComment(WanHeadingText + policy.wan.kind + ")");
      GenerateWanBody(policy.wan);
      AddBlank();
      Appended4(old(commands), [WanHeading(policy.wan.kind)], WanBody(policy.wan), [""]);
    }

    /** The VLAN line when there is a VLAN, and the interface the LAN then lives on. */
    method GenerateVlan(lan: LANConfig) returns (interface: string)
      modifies this
      ensures commands == old(commands) + VlanLines(lan)
      ensures interface == LanInterface(lan)
    {
      if IsSetInt(lan.vlanId) {
        AddCommand(VlanLine(lan.name, lan.vlanId.value));
        interface := VlanPrefix + lan.name;
      } else {
        interface := Bridge;
      }
    }

    method GenerateLanAddress(lan: LANConfig, interface: string) returns (parsed: Option<Network>)
      requires interface == LanInterface(lan)
      modifies this
      ensures commands == old(commands) + [LanAddressLine(lan)]
      ensures parsed == ParseNetwork(lan.subnet)
    {
      parsed := ParseNetwork(lan.subnet);
      if parsed.Some? {
        AddCommand(AddressLine(lan.gateway + "/" + NatToString(parsed.value.prefix), interface));
      } else {
        AddCommand(AddressLine(lan.gateway + "/" + FallbackPrefix, interface));
      }
    }

    method GenerateDhcpNetwork(lan: LANConfig, parsed: Option<Network>)
      requires lan.dhcp.Some? && parsed == ParseNetwork(lan.subnet)
      modifies this
      ensures commands == old(commands) + NetworkLines(lan)
    {
      if parsed.Some? {
        var dns := if lan.dhcp.value.dnsServers != [] then Join(lan.dhcp.value.dnsServers, ",") else lan.gateway;
        AddCommand(NetworkLine(parsed.value, lan.gateway, dns));
      }
    }

    method GenerateLanDhcp(lan: LANConfig, interface: string, parsed: Option<Network>)
      requires interface == LanInterface(lan) && parsed == ParseNetwork(lan.subnet)
      modifies this
      ensures commands == old(commands) + DhcpServerLines(lan)
    {
      if lan.dhcp.Some? && lan.dhcp.value.enabled {
        var poolName := PoolPrefix + lan.name;
        var range := OrElse(lan.dhcp.value.range, DefaultRange);
        AddCommand(PoolLine(poolName, range));
        AddCommand(ServerLine(lan.name, interface, poolName, lan.dhcp.value.leaseTime));
        GenerateDhcpNetwork(lan, parsed);
        Appended4(old(commands), [PoolLine(poolName, range)],
          [ServerLine(lan.name, interface, poolName, lan.dhcp.value.leaseTime)], NetworkLines(lan));
      }
    }

    method GenerateLan(lan: LANConfig)
      modifies this
      ensures commands == old(commands) + LanEntry(lan)
    {
      AddComment(LanText + lan.name);
      var interface := GenerateVlan(lan);
      var parsed := GenerateLanAddress(lan, interface);
      GenerateLanDhcp(lan, interface, parsed);
      AddBlank();
      Appended6(old(commands), [Comment(LanText + lan.name)], VlanLines(lan), [LanAddressLine(lan)], DhcpServerLines(lan), [""]);
    }

    method GenerateLans()
      modifies this
      ensures commands == old(commands) + LanLines(policy)
    {
      if policy.lans == [] {
        return;
      }
      AddComment(LanHeadingText);
      AddCommand(BridgeLine);
      AddBlank();
      GenerateLanEntries(policy.lans);
      Appended5(old(commands), [Comment(LanHeadingText)], [BridgeLine], [""], FlatMap(policy.lans, LanEntry));
    }

    method GenerateLanEntries(lans: seq<LANConfig>)
      modifies this
      ensures commands == old(commands) + FlatMap(lans, LanEntry)
    {
      for i := 0 to |lans|
        invariant commands == old(commands) + FlatMap(lans[..i], LanEntry)
      {
        FlatMapPrefix(lans, i, LanEntry);
        AppendAssoc(old(commands), FlatMap(lans[..i], LanEntry), LanEntry(lans[i]));
        GenerateLan(lans[i]);
      }
      assert lans[..|lans|] == lans;
    }

    method GenerateMasquerade(wanInterface: string)
      requires wanInterface == Egress(policy)
      modifies this
      ensures commands == old(commands) + MasqueradeLines(policy)
    {
      if policy.natConfig.None? || policy.natConfig.value.masquerade {
        AddCommand(MasqueradeLine(wanInterface));
      }
    }

    method GenerateForwards(wanInterface: string, forwards: seq<PortForward>)
      modifies this
      ensures commands == old(commands) + FlatMap(forwards, ForwardFn(wanInterface))
    {
      for i := 0 to |forwards|
        invariant commands == old(commands) + FlatMap(forwards[..i], ForwardFn(wanInterface))
      {
        FlatMapPrefix(forwards, i, ForwardFn(wanInterface));
        AppendAssoc(old(commands), FlatMap(forwards[..i], ForwardFn(wanInterface)), [ForwardLine(wanInterface, forwards[i])]);
        var pf := forwards[i];
        var protocol := if pf.protocol == "both" then BothProtocols else pf.protocol;
        var comment := if IsSet(pf.name) then Quoted(CommentText, pf.name.value) else "";
        AddCommand(DstNatLine(protocol, pf, wanInterface, comment));
      }
      assert forwards[..|forwards|] == forwards;
    }

    method GeneratePortForwards(wanInterface: string)
      modifies this
      ensures commands == old(commands) + FlatMap(Forwards(policy), ForwardFn(wanInterface))
    {
      if policy.natConfig.Some? && policy.natConfig.value.portForwards != [] {
        GenerateForwards(wanInterface, policy.natConfig.value.portForwards);
      }
    }

    method GenerateNat()
      modifies this
      ensures commands == old(commands) + NatLines(policy)
    {
      AddComment(NatHeadingText);
      var wanInterface := if policy.wan.kind == "pppoe" then PppoeInterface else policy.wan.interface;
      GenerateMasquerade(wanInterface);
      GeneratePortForwards(wanInterface);
      AddBlank();
      Appended5(old(commands), [Comment(NatHeadingText)], MasqueradeLines(policy),
        FlatMap(Forwards(policy), ForwardFn(Egress(policy))), [""]);
    }

    /** The zone, protocol and port parts of a rule, in the source's order. */
    method MatchParts(wanInterface: string, rule: FirewallRule) returns (parts: seq<string>)
      ensures [FilterAdd, ForwardChain] + parts + [ActionPart + rule.action]
              + [Quoted(CommentPart, OrElse(rule.comment, rule.name))] == RuleParts(wanInterface, rule)
    {
      var fromIntf := MapZones(wanInterface, rule.fromZones);
      var toIntf := MapZones(wanInterface, rule.toZones);
      var zoneParts := [];
      if fromIntf != [] {
        zoneParts := zoneParts + [InPart + fromIntf[0]];
      }
      if toIntf != [] {
        zoneParts := zoneParts + [OutPart + toIntf[0]];
      }
      var filterParts := [];
      if IsSet(rule.protocol) {
        filterParts := filterParts + [ProtocolPart + rule.protocol.value];
      }
      if IsSet(rule.port) {
        filterParts := filterParts + [PortPart + rule.port.value];
      }
      parts := zoneParts + filterParts;
      ghost var z1 := if fromIntf != [] then [InPart + fromIntf[0]] else [];
      ghost var z2 := if toIntf != [] then [OutPart + toIntf[0]] else [];
      ghost var f1 := if IsSet(rule.protocol) then [ProtocolPart + rule.protocol.value] else [];
      ghost var f2 := if IsSet(rule.port) then [PortPart + rule.port.value] else [];
      assert zoneParts == z1 + z2 && filterParts == f1 + f2;
      AppendAssoc(z1 + z2, f1, f2);
      Appended5([FilterAdd, ForwardChain], z1, z2, f1, f2);
    }

    method GenerateRule(wanInterface: string, rule: FirewallRule)
      modifies this
      ensures commands == old(commands) + [RuleLine(wanInterface, rule)]
    {
      var parts := [FilterAdd, ForwardChain];
      var matching := MatchParts(wanInterface, rule);
      parts := parts + matching + [ActionPart + rule.action];
      if IsSet(rule.comment) {
        parts := parts + [Quoted(CommentPart, rule.comment.value)];
      } else {
        parts := parts + [Quoted(CommentPart, rule.name)];
      }
      AddCommand(Join(parts, " "));
    }

    method GenerateRules(wanInterface: string, rules: seq<FirewallRule>)
      modifies this
      ensures commands == old(commands) + FlatMap(rules, RuleFn(wanInterface))
    {
      for i := 0 to |rules|
        invariant commands == old(commands) + FlatMap(rules[..i], RuleFn(wanInterface))
      {
        FlatMapPrefix(rules, i, RuleFn(wanInterface));
        AppendAssoc(old(commands), FlatMap(rules[..i], RuleFn(wanInterface)), [RuleLine(wanInterface, rules[i])]);
        GenerateRule(wanInterface, rules[i]);
      }
      assert rules[..|rules|] == rules;
    }

    method GenerateCustomRules(wanInterface: string)
      modifies this
      ensures commands == old(commands) + FlatMap(Rules(policy), RuleFn(wanInterface))
    {
      if policy.firewall.Some? {
        GenerateRules(wanInterface, policy.firewall.value.rules);
      }
    }

    method GenerateDefaultDrop()
      modifies this
      ensures commands == old(commands) + DefaultDropLines(policy)
    {
      if policy.firewall.None? || policy.firewall.value.defaultPolicy == "drop" {
        AddCommand(DefaultDropLine);
      }
    }

    method GenerateBaseline()
      modifies this
      ensures commands == old(commands) + BaselineLines
    {
      AddCommand(BaselineLines[0]);
      AddCommand(BaselineLines[1]);
      AddCommand(BaselineLines[2]);
      AddCommand(BaselineLines[3]);
      AddCommand(BaselineLines[4]);
      AddCommand(BaselineLines[5]);
    }

    method GenerateFirewall()
      modifies this
      ensures commands == old(commands) + FirewallLines(policy)
    {
      AddComment(FirewallHeadingText);
      var wanInterface := if policy.wan.kind == "pppoe" then PppoeInterface else policy.wan.interface;
      GenerateBaseline();
      GenerateCustomRules(wanInterface);
      GenerateDefaultDrop();
      AddBlank();
      Appended6(old(commands), [Comment(FirewallHeadingText)], BaselineLines,
        FlatMap(Rules(policy), RuleFn(Egress(policy))), DefaultDropLines(policy), [""]);
    }

    method GenerateProfile(wifi: WiFiConfig)
      modifies this
      ensures commands == old(commands) + ProfileLines(wifi)
    {
      if wifi.security.Some? {
        var profileName := ProfilePrefix + wifi.name;
        var password := OrElse(wifi.security.value.passwordRef, PasswordPlaceholder);
        if wifi.security.value.encryption == "wpa2-psk" {
          AddCommand(ProfileLine(profileName, password));
        }
      }
    }

    /** The words of the `/interface wireless set` command for one network. */
    static method WirelessCommand(wifi: WiFiConfig, interface: string) returns (parts: seq<string>)
      ensures parts == WirelessParts(wifi, interface)
    {
      var bandFreq := if wifi.band == Some("2.4ghz") then Band24 else Band5;
      parts := [WirelessSetText + interface, DisabledPart, ModePart, Quoted(SsidPart, wifi.ssid), FrequencyPart, BandPart + bandFreq];
      if IsSetInt(wifi.channel) {
        parts := parts + [ChannelPart];
      }
      if wifi.security.Some? {
        parts := parts + [ProfilePart + wifi.name];
      }
      if wifi.hidden {
        parts := parts + [HiddenPart];
      }
    }

    method GenerateWifiEntry(wifi: WiFiConfig)
      modifies this
      ensures commands == old(commands) + WifiEntry(wifi, |old(commands)|)
    {
      GenerateProfile(wifi);
      var interface := WlanPrefix + NatToString(|commands|);
      var parts := WirelessCommand(wifi, interface);
      AddCommand(Join(parts, " "));
      AppendAssoc(old(commands), ProfileLines(wifi), [Join(parts, " ")]);
    }

    method GenerateWifiEntries(wifis: seq<WiFiConfig>)
      modifies this
      ensures commands == old(commands) + WifiEntries(wifis, |old(commands)|)
    {
      ghost var target := commands + WifiEntries(wifis, |commands|);
      for i := 0 to |wifis|
        invariant commands + WifiEntries(wifis[i..], |commands|) == target
      {
        ghost var before := commands;
        GenerateWifiEntry(wifis[i]);
        FlatMapAtStep(target, wifis, i, WifiEntry, before, commands);
      }
    }

    method GenerateWifi()
      modifies this
      ensures commands == old(commands) + WifiLines(policy, |old(commands)|)
    {
      if policy.wifi == [] {
        return;
      }
      AddComment(WifiHeadingText);
      GenerateWifiEntries(policy.wifi);
      AddBlank();
      Appended4(old(commands), [Comment(WifiHeadingText)], WifiEntries(policy.wifi, |old(commands)| + 1), [""]);
    }

    method GeneratePeers(interfaceName: string, peers: seq<VPNPeer>)
      modifies this
      ensures commands == old(commands) + FlatMap(peers, PeerFn(interfaceName))
    {
      for i := 0 to |peers|
        invariant commands == old(commands) + FlatMap(peers[..i], PeerFn(interfaceName))
      {
        FlatMapPrefix(peers, i, PeerFn(interfaceName));
        AppendAssoc(old(commands), FlatMap(peers[..i], PeerFn(interfaceName)), PeerFn(interfaceName)(peers[i]));
        var peer := peers[i];
        var publicKey := OrElse(peer.publicKeyRef, PublicKeyPlaceholder);
        var allowedIps := if peer.allowedIps != [] then Join(peer.allowedIps, ",") else AnyAddress;
        AddCommand(PeerLine(interfaceName, publicKey, allowedIps, peer.name));
      }
      assert peers[..|peers|] == peers;
    }

    method GenerateVpnAddress(vpn: VPNConfig, interfaceName: string)
      requires interfaceName == WgName(vpn)
      modifies this
      ensures commands == old(commands) + VpnAddressLines(vpn)
    {
      if vpn.allowedIps != [] {
        AddCommand(AddressLine(vpn.allowedIps[0], interfaceName));
      }
    }

    /** The words of the `/interface wireguard add` command. */
    static method InterfaceCommand(vpn: VPNConfig) returns (parts: seq<string>)
      ensures parts == WgParts(vpn)
    {
      var interfaceName := OrElse(vpn.interface, WireguardDefault);
      var privateKey := OrElse(vpn.privateKeyRef, PrivateKeyPlaceholder);
      parts := [WireguardAdd, NamePart + interfaceName, Quoted(PrivateKeyPart, privateKey)];
      if vpn.role == "server" && IsSetInt(vpn.listenPort) {
        parts := parts + [ListenPortPart + IntToString(vpn.listenPort.value)];
      }
    }

    method GenerateWireguard(vpn: VPNConfig)
      modifies this
      ensures commands == old(commands) + WireguardLines(vpn)
    {
      AddComment(WireguardHeadingText + vpn.role + ")");
      var interfaceName := OrElse(vpn.interface, WireguardDefault);
      var parts := InterfaceCommand(vpn);
      AddCommand(Join(parts, " "));
      GenerateVpnAddress(vpn, interfaceName);
      GeneratePeers(interfaceName, vpn.peers);
      AddBlank();
      Appended6(old(commands), [WireguardHeading(vpn.role)], [Join(parts, " ")], VpnAddressLines(vpn),
        FlatMap(vpn.peers, PeerFn(WgName(vpn))), [""]);
    }

    method GenerateVpnEntry(vpn: VPNConfig)
      modifies this
      ensures commands == old(commands) + VpnEntry(vpn)
    {
      if vpn.kind == "wireguard" {
        GenerateWireguard(vpn);
      }
    }

    method GenerateVpn()
      modifies this
      ensures commands == old(commands) + VpnLines(policy)
    {
      if policy.vpn == [] {
        return;
      }
      ghost var base := commands;
      var vpns := policy.vpn;
      for i := 0 to |vpns|
        invariant commands == base + FlatMap(vpns[..i], VpnEntry)
      {
        FlatMapPrefix(vpns, i, VpnEntry);
        AppendAssoc(base, FlatMap(vpns[..i], VpnEntry), VpnEntry(vpns[i]));
        GenerateVpnEntry(vpns[i]);
      }
      assert vpns[..|vpns|] == vpns;
    }

    method GenerateHeader()
      requires version == Version(policy)
      modifies this
      ensures commands == old(commands) + HeaderLines(policy)
    {
      AddComment(RuleText);
      AddComment(TitleText + policy.meta.name);
      AddComment(GeneratedText);
      AddComment(TargetText + version);
      AddComment(RuleText);
      AddBlank();
      AddComment(ReviewText);
      AddComment(BackupText);
      AddBlank();
    }

    method GenerateFooter()
      modifies this
      ensures commands == old(commands) + FooterLines()
    {
      AddComment(RuleText);
      AddComment(CompleteText);
      AddComment(ApplyText);
      AddComment(RuleText);
    }

    /** Clears the buffer, writes every section in order and joins the lines. */
    method Generate() returns (script: string)
      requires version == Version(policy)
      modifies this
      ensures commands == ScriptLines(policy)
      ensures script == Join(ScriptLines(policy), "\n")
    {
      commands := [];
      GenerateHeader();
      assert commands == HeaderLines(policy);
      GenerateWan();
      GenerateLans();
      GenerateNat();
      GenerateFirewall();
      assert commands == BeforeWifi(policy);
      GenerateWifi();
      GenerateVpn();
      GenerateFooter();
      script := Join(commands, "\n");
    }
  }
}
