/**
 * The policy model: immutable value objects with the dataclass defaults of
 * router_policy_to_config/model.py. Python's `Optional[...]` is `Option`,
 * `List[...]` is `seq`; field names are the source's in camelCase
 * (`type` becomes `kind` and `nat` becomes `natConfig`: both are Dafny keywords).
 */
module Model {
  import opened Wrappers

  datatype Target = Target(vendor: string, version: Option<string> := None)

  datatype Meta = Meta(
    name: string,
    description: Option<string> := None,
    target: Target := Target("routeros"))

  datatype WANConfig = WANConfig(
    kind: string,
    interface: string,
    username: Option<string> := None,
    passwordRef: Option<string> := None,
    ip: Option<string> := None,
    netmask: Option<string> := None,
    gateway: Option<string> := None,
    dns: seq<string> := [],
    mtu: Option<int> := None)

  datatype DHCPConfig = DHCPConfig(
    enabled: bool := false,
    range: Option<string> := None,
    leaseTime: string := "24h",
    dnsServers: seq<string> := [])

  datatype LANConfig = LANConfig(
    name: string,
    subnet: string,
    gateway: string,
    vlanId: Option<int> := None,
    interface: Option<string> := None,
    dhcp: Option<DHCPConfig> := None,
    isolatedFrom: seq<string> := [])

  datatype SecurityConfig = SecurityConfig(
    encryption: string,
    passwordRef: Option<string> := None,
    radiusServer: Option<string> := None,
    radiusSecretRef: Option<string> := None)

  datatype WiFiConfig = WiFiConfig(
    name: string,
    lan: string,
    ssid: string,
    mode: string,
    channel: Option<int> := None,
    band: Option<string> := None,
    hidden: bool := false,
    guest: bool := false,
    security: Option<SecurityConfig> := None)

  datatype VPNPeer = VPNPeer(
    name: string,
    publicKeyRef: Option<string> := None,
    allowedIps: seq<string> := [])

  datatype VPNConfig = VPNConfig(
    kind: string,
    role: string,
    listenPort: Option<int> := None,
    interface: Option<string> := None,
    allowedIps: seq<string> := [],
    endpoint: Option<string> := None,
    publicKeyRef: Option<string> := None,
    privateKeyRef: Option<string> := None,
    peers: seq<VPNPeer> := [])

  datatype FirewallRule = FirewallRule(
    name: string,
    action: string,
    fromZones: seq<string> := [],
    toZones: seq<string> := [],
    protocol: Option<string> := None,
    port: Option<string> := None,
    state: seq<string> := [],
    log: bool := false,
    comment: Option<string> := None)

  datatype Firewall = Firewall(
    defaultPolicy: string := "drop",
    rules: seq<FirewallRule> := [])

  datatype DNSConfig = DNSConfig(
    servers: seq<string> := [],
    domain: Option<string> := None,
    forwarders: seq<string> := [])

  datatype PortForward = PortForward(
    name: Option<string> := None,
    protocol: string := "tcp",
    externalPort: int := 0,
    internalIp: string := "",
    internalPort: int := 0)

  datatype NATConfig = NATConfig(
    masquerade: bool := true,
    portForwards: seq<PortForward> := [])

  datatype Policy = Policy(
    meta: Meta,
    wan: WANConfig,
    lans: seq<LANConfig> := [],
    wifi: seq<WiFiConfig> := [],
    vpn: seq<VPNConfig> := [],
    firewall: Option<Firewall> := None,
    dns: Option<DNSConfig> := None,
    natConfig: Option<NATConfig> := None)

  // ---------------------------------------------------------------- Python truthiness and str()

  /** An optional string is truthy when present and non-empty. */
  predicate IsSet(s: Option<string>)
  {
    s.Some? && s.value != ""
  }

  /** An optional int is truthy when present and non-zero. */
  predicate IsSetInt(i: Option<int>)
  {
    i.Some? && i.value != 0
  }

  /** `value or fallback` for an optional string. */
  function OrElse(s: Option<string>, fallback: string): (r: string)
    ensures IsSet(s) ==> r == s.value
    ensures !IsSet(s) ==> r == fallback
  {
    if IsSet(s) then s.value else fallback
  }

  /** `f"{s}"` for an optional string: Python writes `None` for an absent value. */
  function Show(s: Option<string>): string
  {
    if s.Some? then s.value else "None"
  }

  /** A field's names, as the validator and backends collect them. */
  function LanNames(lans: seq<LANConfig>): (names: set<string>)
    ensures forall l :: l in lans ==> l.name in names
    ensures forall n :: n in names ==> exists l :: l in lans && l.name == n
  {
    set l | l in lans :: l.name
  }

  // ---------------------------------------------------------------- defaults

  /** A DHCPConfig built with no arguments is disabled, leases for 24h and
      names no range and no DNS servers. */
  lemma DHCPDefaults()
    ensures DHCPConfig() == DHCPConfig(false, None, "24h", [])
    ensures !DHCPConfig().enabled && DHCPConfig().leaseTime == "24h" && DHCPConfig().dnsServers == []
  {
  }

  /** A Firewall built with no arguments drops by default and has no rules. */
  lemma FirewallDefaults()
    ensures Firewall().defaultPolicy == "drop" && Firewall().rules == []
  {
  }

  /** NAT masquerades by default with no forwards; a port forward is tcp by default. */
  lemma NATDefaults()
    ensures NATConfig().masquerade && NATConfig().portForwards == []
    ensures PortForward().protocol == "tcp" && PortForward().name == None
  {
  }

  /** Meta targets RouterOS with no version unless told otherwise. */
  lemma MetaDefaults(name: string)
    ensures Meta(name).target == Target("routeros", None)
    ensures Meta(name).description == None
  {
  }

  /** A Policy has one meta and one WAN; every other section defaults to empty or absent. */
  lemma PolicyDefaults(meta: Meta, wan: WANConfig)
    ensures var p := Policy(meta, wan);
      p.meta == meta && p.wan == wan && p.lans == [] && p.wifi == [] && p.vpn == []
      && p.firewall == None && p.dns == None && p.natConfig == None
  {
  }

  /** A WAN names no DNS servers by default, and each type-specific field is optional. */
  lemma WANDefaults(kind: string, interface: string)
    ensures var w := WANConfig(kind, interface);
      w.dns == [] && w.username == None && w.passwordRef == None && w.ip == None
      && w.netmask == None && w.gateway == None && w.mtu == None
  {
  }
}
