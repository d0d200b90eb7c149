/**
 * The semantic validator of policy_validator.py. A `PolicyValidator` holds
 * the policy and two growing lists, `errors` and `warnings`; each of the nine
 * checks appends to them in a loop, and `Validate` resets both, runs every
 * check and fails exactly when an error was found.
 *
 * Each check is proved against a function of the policy (`SubnetErrors`,
 * `GatewayErrors`, ...) that states what it appends; the lemmas at the end
 * say what those functions mean.
 */
module PolicyValidation {
  import opened Wrappers
  import opened Strings
  import opened IPv4
  import opened Model
  import opened Seqs

  /** One message of the validator. `Text` renders the message the source builds. */
  datatype Issue =
    | InvalidSubnet(lan: string)
    | SubnetsOverlap(name1: string, net1: Network, name2: string, net2: Network)
    | GatewayNotInSubnet(gateway: string, subnet: string, lan: string)
    | InvalidIp(lan: string)
    | DhcpStartOutside(startIp: nat, subnet: string, lan: string)
    | DhcpEndOutside(endIp: nat, subnet: string, lan: string)
    | DhcpStartNotBeforeEnd(lan: string)
    | InvalidDhcpRange(lan: string)
    | PppoeNeedsUsername
    | PppoeShouldHavePassword
    | StaticNeedsIp
    | StaticNeedsNetmask
    | StaticNeedsGateway
    | WifiUnknownLan(wifi: string, lan: string)
    | WifiShouldHavePassword(wifi: string)
    | IsolationUnknownLan(lan: string, other: string)
    | UnknownZone(rule: string, zone: string, side: string)
    | DuplicateListenPort(port: int)
    | PrivilegedListenPort(port: int)
    | ForwardOutsideLans(ip: string)
    | InvalidForwardIp(ip: string)
  {
    function Text(): string
    {
      match this
      case InvalidSubnet(lan) => "Invalid subnet for LAN '" + lan + "'"
      case SubnetsOverlap(name1, net1, name2, net2) =>
        "Subnets overlap: '" + name1 + "' (" + FormatNetwork(net1) + ") and '"
          + name2 + "' (" + FormatNetwork(net2) + ")"
      case GatewayNotInSubnet(gateway, subnet, lan) =>
        "Gateway " + gateway + " is not in subnet " + subnet + " for LAN '" + lan + "'"
      case InvalidIp(lan) => "Invalid IP for LAN '" + lan + "'"
      case DhcpStartOutside(a, subnet, lan) =>
        "DHCP range start " + FormatAddress(a) + " is not in subnet " + subnet + " for LAN '" + lan + "'"
      case DhcpEndOutside(a, subnet, lan) =>
        "DHCP range end " + FormatAddress(a) + " is not in subnet " + subnet + " for LAN '" + lan + "'"
      case DhcpStartNotBeforeEnd(lan) => "Invalid DHCP range for LAN '" + lan + "': start >= end"
      case InvalidDhcpRange(lan) => "Invalid DHCP range for LAN '" + lan + "'"
      case PppoeNeedsUsername => "PPPoE WAN requires username"
      case PppoeShouldHavePassword => "PPPoE WAN should have password_ref for security"
      case StaticNeedsIp => "Static WAN requires ip address"
      case StaticNeedsNetmask => "Static WAN requires netmask"
      case StaticNeedsGateway => "Static WAN requires gateway"
      case WifiUnknownLan(wifi, lan) => "WiFi '" + wifi + "' references non-existent LAN '" + lan + "'"
      case WifiShouldHavePassword(wifi) => "WiFi '" + wifi + "' should have password_ref for security"
      case IsolationUnknownLan(lan, other) =>
        "LAN '" + lan + "' isolation references non-existent LAN '" + other + "'"
      case UnknownZone(rule, zone, side) =>
        "Firewall rule '" + rule + "' references unknown zone '" + zone + "' in '" + side + "'"
      case DuplicateListenPort(port) => "Duplicate VPN listen port: " + IntToString(port)
      case PrivilegedListenPort(port) =>
        "VPN listen port " + IntToString(port) + " is privileged (<1024), may require root"
      case ForwardOutsideLans(ip) => "Port forward to " + ip + " is not in any defined LAN subnet"
      case InvalidForwardIp(ip) => "Invalid internal IP in port forward: " + ip
    }
  }

  // ================================================================ what each check appends

  // ---------------------------------------------------------------- subnet overlaps

  /** The error for a LAN whose subnet does not parse. */
  function SubnetIssue(l: LANConfig): seq<Issue>
  {
    if ParseNetwork(l.subnet).None? then [InvalidSubnet(l.name)] else []
  }

  /** The (name, network) entry a LAN contributes to the list of parsed subnets. */
  function ParsedLan(l: LANConfig): seq<(string, Net)>
  {
    match ParseNetwork(l.subnet)
    case Some(n) => [(l.name, n)]
    case None => []
  }

  /** The LANs whose subnet parses, with their networks, in order. */
  function Networks(lans: seq<LANConfig>): seq<(string, Net)>
  {
    FlatMap(lans, ParsedLan)
  }

  /** The overlap error for the pair (`a`, `b`), if they overlap. */
  function PairIssue(a: (string, Net), b: (string, Net)): seq<Issue>
  {
    if Overlaps(a.1, b.1) then [SubnetsOverlap(a.0, a.1, b.0, b.1)] else []
  }

  function PairFn(a: (string, Net)): ((string, Net)) -> seq<Issue>
  {
    b => PairIssue(a, b)
  }

  /** Overlap errors for every pair `i < j` of `nets`, ordered by `i` then `j`. */
  function OverlapIssues(nets: seq<(string, Net)>): seq<Issue>
  {
    if nets == [] then [] else FlatMap(nets[1..], PairFn(nets[0])) + OverlapIssues(nets[1..])
  }

  function SubnetErrors(p: Policy): seq<Issue>
  {
    FlatMap(p.lans, SubnetIssue) + OverlapIssues(Networks(p.lans))
  }

  // ---------------------------------------------------------------- gateways

  function GatewayIssue(l: LANConfig): seq<Issue>
  {
    match (ParseNetwork(l.subnet), ParseAddress(l.gateway))
    case (Some(n), Some(g)) =>
      if InNetwork(g, n) then [] else [GatewayNotInSubnet(l.gateway, l.subnet, l.name)]
    case _ => [InvalidIp(l.name)]
  }

  function GatewayErrors(p: Policy): seq<Issue>
  {
    FlatMap(p.lans, GatewayIssue)
  }

  // ---------------------------------------------------------------- DHCP ranges

  /** The DHCP range of a LAN, when DHCP is present, enabled and the range non-empty. */
  predicate DhcpChecked(l: LANConfig)
  {
    l.dhcp.Some? && l.dhcp.value.enabled && IsSet(l.dhcp.value.range)
  }

  /** The errors for the range `range` of LAN `l`: any parse failure (the
      subnet, the split into exactly two pieces, either address) is one error;
      otherwise start outside, end outside and start >= end each add their own. */
  function RangeIssues(l: LANConfig, range: string): seq<Issue>
  {
    var pieces := Split(range, '-');
    if |pieces| != 2 then [InvalidDhcpRange(l.name)]
    else
      match (ParseNetwork(l.subnet), ParseAddress(Strip(pieces[0])), ParseAddress(Strip(pieces[1])))
      case (Some(n), Some(s), Some(e)) => BoundsIssues(l, n, s, e)
      case _ => [InvalidDhcpRange(l.name)]
  }

  /** The errors for a range that parsed into addresses `s`..`e` of LAN `l`'s network `n`. */
  function BoundsIssues(l: LANConfig, n: Net, s: nat, e: nat): seq<Issue>
  {
    (if InNetwork(s, n) then [] else [DhcpStartOutside(s, l.subnet, l.name)])
      + (if InNetwork(e, n) then [] else [DhcpEndOutside(e, l.subnet, l.name)])
      + (if s >= e then [DhcpStartNotBeforeEnd(l.name)] else [])
  }

  function DhcpIssue(l: LANConfig): seq<Issue>
  {
    if DhcpChecked(l) then RangeIssues(l, l.dhcp.value.range.value) else []
  }

  function DhcpErrors(p: Policy): seq<Issue>
  {
    FlatMap(p.lans, DhcpIssue)
  }

  // ---------------------------------------------------------------- WAN fields

  function WanErrors(w: WANConfig): seq<Issue>
  {
    if w.kind == "pppoe" then
      if IsSet(w.username) then [] else [PppoeNeedsUsername]
    else if w.kind == "static" then
      (if IsSet(w.ip) then [] else [StaticNeedsIp])
        + (if IsSet(w.netmask) then [] else [StaticNeedsNetmask])
        + (if IsSet(w.gateway) then [] else [StaticNeedsGateway])
    else []
  }

  function WanWarnings(w: WANConfig): seq<Issue>
  {
    if w.kind == "pppoe" && !IsSet(w.passwordRef) then [PppoeShouldHavePassword] else []
  }

  // ---------------------------------------------------------------- WiFi references

  function WifiLanIssue(names: set<string>, w: WiFiConfig): seq<Issue>
  {
    if w.lan in names then [] else [WifiUnknownLan(w.name, w.lan)]
  }

  function WifiLanFn(names: set<string>): WiFiConfig -> seq<Issue>
  {
    w => WifiLanIssue(names, w)
  }

  /** The encryptions that need a pre-shared key. */
  predicate IsPsk(encryption: string)
  {
    encryption in ["wpa-psk", "wpa2-psk", "wpa3-psk"]
  }

  function WifiSecurityIssue(w: WiFiConfig): seq<Issue>
  {
    if w.security.Some? && IsPsk(w.security.value.encryption) && !IsSet(w.security.value.passwordRef)
    then [WifiShouldHavePassword(w.name)]
    else []
  }

  function WifiErrors(p: Policy): seq<Issue>
  {
    FlatMap(p.wifi, WifiLanFn(LanNames(p.lans)))
  }

  function WifiWarnings(p: Policy): seq<Issue>
  {
    FlatMap(p.wifi, WifiSecurityIssue)
  }

  // ---------------------------------------------------------------- isolation references

  function IsolationIssue(names: set<string>, lan: string, other: string): seq<Issue>
  {
    if other in names then [] else [IsolationUnknownLan(lan, other)]
  }

  function IsolationFn(names: set<string>, lan: string): string -> seq<Issue>
  {
    other => IsolationIssue(names, lan, other)
  }

  function LanIsolationIssues(names: set<string>, l: LANConfig): seq<Issue>
  {
    FlatMap(l.isolatedFrom, IsolationFn(names, l.name))
  }

  function LanIsolationFn(names: set<string>): LANConfig -> seq<Issue>
  {
    l => LanIsolationIssues(names, l)
  }

  function IsolationErrors(p: Policy): seq<Issue>
  {
    FlatMap(p.lans, LanIsolationFn(LanNames(p.lans)))
  }

  // ---------------------------------------------------------------- firewall zones

  /** The zones a firewall rule may name: "wan", every LAN name, and "vpn" when a VPN is declared. */
  function ValidZones(p: Policy): set<string>
  {
    {"wan"} + LanNames(p.lans) + (if p.vpn != [] then {"vpn"} else {})
  }

  function ZoneIssue(zones: set<string>, rule: string, side: string, zone: string): seq<Issue>
  {
    if zone in zones then [] else [UnknownZone(rule, zone, side)]
  }

  function ZoneFn(zones: set<string>, rule: string, side: string): string -> seq<Issue>
  {
    z => ZoneIssue(zones, rule, side, z)
  }

  function RuleIssues(zones: set<string>, r: FirewallRule): seq<Issue>
  {
    FlatMap(r.fromZones, ZoneFn(zones, r.name, "from")) + FlatMap(r.toZones, ZoneFn(zones, r.name, "to"))
  }

  function RuleFn(zones: set<string>): FirewallRule -> seq<Issue>
  {
    r => RuleIssues(zones, r)
  }

  function FirewallErrors(p: Policy): seq<Issue>
  {
    match p.firewall
    case None => []
    case Some(fw) => FlatMap(fw.rules, RuleFn(ValidZones(p)))
  }

  // ---------------------------------------------------------------- VPN listen ports

  /** A server VPN with a truthy listen port. */
  predicate IsServerWithPort(v: VPNConfig)
  {
    v.role == "server" && IsSetInt(v.listenPort)
  }

  /** The duplicate-port errors of `vpns` when the ports in `seen` were recorded before them. */
  function VpnErrorsAfter(vpns: seq<VPNConfig>, seen: seq<int>): seq<Issue>
  {
    if vpns == [] then []
    else if IsServerWithPort(vpns[0]) then
      var port := vpns[0].listenPort.value;
      (if port in seen then [DuplicateListenPort(port)] else []) + VpnErrorsAfter(vpns[1..], seen + [port])
    else VpnErrorsAfter(vpns[1..], seen)
  }

  function VpnErrors(p: Policy): seq<Issue>
  {
    VpnErrorsAfter(p.vpn, [])
  }

  function ServerPort(v: VPNConfig): seq<int>
  {
    if IsServerWithPort(v) then [v.listenPort.value] else []
  }

  /** The listen ports of the server VPNs, in order. */
  function ServerPorts(vpns: seq<VPNConfig>): seq<int>
  {
    FlatMap(vpns, ServerPort)
  }

  function VpnWarning(v: VPNConfig): seq<Issue>
  {
    if IsServerWithPort(v) && v.listenPort.value < 1024 then [PrivilegedListenPort(v.listenPort.value)] else []
  }

  function VpnWarnings(p: Policy): seq<Issue>
  {
    FlatMap(p.vpn, VpnWarning)
  }

  // ---------------------------------------------------------------- port forwards

  /** Port forwards are checked only with a NAT section that has some. */
  predicate ForwardsChecked(p: Policy)
  {
    p.natConfig.Some? && p.natConfig.value.portForwards != []
  }

  /** Some network of `nets` contains `a`. */
  predicate InSomeNetwork(a: nat, nets: seq<(string, Net)>)
  {
    exists k :: 0 <= k < |nets| && InNetwork(a, nets[k].1)
  }

  function ForwardIpIssue(pf: PortForward): seq<Issue>
  {
    if ParseAddress(pf.internalIp).None? then [InvalidForwardIp(pf.internalIp)] else []
  }

  function ForwardReachIssue(nets: seq<(string, Net)>, pf: PortForward): seq<Issue>
  {
    match ParseAddress(pf.internalIp)
    case Some(a) => if InSomeNetwork(a, nets) then [] else [ForwardOutsideLans(pf.internalIp)]
    case None => []
  }

  function ForwardReachFn(nets: seq<(string, Net)>): PortForward -> seq<Issue>
  {
    pf => ForwardReachIssue(nets, pf)
  }

  function NatErrors(p: Policy): seq<Issue>
  {
    if ForwardsChecked(p) then FlatMap(p.natConfig.value.portForwards, ForwardIpIssue) else []
  }

  function NatWarnings(p: Policy): seq<Issue>
  {
    if ForwardsChecked(p) then FlatMap(p.natConfig.value.portForwards, ForwardReachFn(Networks(p.lans))) else []
  }

  // ---------------------------------------------------------------- all checks

  /** The errors of all nine checks, in the order `validate` runs them. */
  function AllErrors(p: Policy): seq<Issue>
  {
    SubnetErrors(p) + GatewayErrors(p) + DhcpErrors(p) + WanErrors(p.wan) + WifiErrors(p)
      + IsolationErrors(p) + FirewallErrors(p) + VpnErrors(p) + NatErrors(p)
  }

  function AllWarnings(p: Policy): seq<Issue>
  {
    WanWarnings(p.wan) + WifiWarnings(p) + VpnWarnings(p) + NatWarnings(p)
  }

  /** The list lines of a message, one `  - <text>` per issue. */
  function Bullets(issues: seq<Issue>): (lines: seq<string>)
    ensures |lines| == |issues|
    ensures forall k :: 0 <= k < |issues| ==> lines[k] == "  - " + issues[k].Text()
  {
    seq(|issues|, k requires 0 <= k < |issues| => "  - " + issues[k].Text())
  }

  /** The `ValidationError` message: every error, then every warning if there are any. */
  function FailureMessage(errors: seq<Issue>, warnings: seq<Issue>): string
  {
    "Policy validation failed:\n" + Join(Bullets(errors), "\n")
      + (if warnings != [] then "\n\nWarnings:\n" + Join(Bullets(warnings), "\n") else "")
  }

  /** The outcome of `validate`: success, or the `ValidationError` with its message. */
  function Outcome(p: Policy): Result<(), string>
  {
    if AllErrors(p) == [] then Ok(()) else Err(FailureMessage(AllErrors(p), AllWarnings(p)))
  }

  // ================================================================ the validator

  class PolicyValidator {
    const policy: Policy
    var errors: seq<Issue>
    var warnings: seq<Issue>

    constructor (policy: Policy)
      ensures this.policy == policy && errors == [] && warnings == []
    {
      this.policy := policy;
      errors := [];
      warnings := [];
    }

    /** The first loop's body: report a LAN whose subnet does not parse, and
        return its entry for the list of parsed networks. */
    method CheckLanSubnet(lan: LANConfig) returns (entry: seq<(string, Net)>)
      modifies this
      ensures entry == ParsedLan(lan)
      ensures errors == old(errors) + SubnetIssue(lan)
      ensures warnings == old(warnings)
    {
      match ParseNetwork(lan.subnet) {
        case Some(n) =>
          entry := [(lan.name, n)];
        case None =>
          entry := [];
          errors := errors + [InvalidSubnet(lan.name)];
      }
    }

    /** The inner overlap loop: compare `a` with every later network. */
    method CheckOverlapsWith(a: (string, Net), rest: seq<(string, Net)>)
      modifies this
      ensures errors == old(errors) + FlatMap(rest, PairFn(a))
      ensures warnings == old(warnings)
    {
      var j := 0;
      while j < |rest|
        invariant 0 <= j <= |rest|
        invariant errors == old(errors) + FlatMap(rest[..j], PairFn(a))
        invariant warnings == old(warnings)
      {
        FlatMapPrefix(rest, j, PairFn(a));
        if Overlaps(a.1, rest[j].1) {
          errors := errors + [SubnetsOverlap(a.0, a.1, rest[j].0, rest[j].1)];
        }
        j := j + 1;
      }
      assert rest[..j] == rest;
    }

    method CheckSubnetOverlaps()
      modifies this
      ensures errors == old(errors) + SubnetErrors(policy)
      ensures warnings == old(warnings)
    {
      var lans := policy.lans;
      var networks: seq<(string, Net)> := [];
      var i := 0;
      while i < |lans|
        invariant 0 <= i <= |lans|
        invariant networks == Networks(lans[..i])
        invariant errors == old(errors) + FlatMap(lans[..i], SubnetIssue)
        invariant warnings == old(warnings)
      {
        FlatMapPrefix(lans, i, SubnetIssue);
        FlatMapPrefix(lans, i, ParsedLan);
        var entry := CheckLanSubnet(lans[i]);
        networks := networks + entry;
        i := i + 1;
      }
      assert lans[..i] == lans;
      var base := errors;
      i := 0;
      while i < |networks|
        invariant 0 <= i <= |networks|
        invariant errors + OverlapIssues(networks[i..]) == base + OverlapIssues(networks)
        invariant warnings == old(warnings)
      {
        var before := errors;
        CheckOverlapsWith(networks[i], networks[i + 1..]);
        assert networks[i..][1..] == networks[i + 1..];
        AppendAssoc(before, FlatMap(networks[i + 1..], PairFn(networks[i])), OverlapIssues(networks[i + 1..]));
        i := i + 1;
      }
      assert networks[i..] == [];
      AppendAssoc(old(errors), FlatMap(lans, SubnetIssue), OverlapIssues(networks));
    }

    method CheckGatewayInSubnet()
      modifies this
      ensures errors == old(errors) + GatewayErrors(policy)
      ensures warnings == old(warnings)
    {
      var lans := policy.lans;
      var i := 0;
      while i < |lans|
        invariant 0 <= i <= |lans|
        invariant errors == old(errors) + FlatMap(lans[..i], GatewayIssue)
        invariant warnings == old(warnings)
      {
        FlatMapPrefix(lans, i, GatewayIssue);
        var lan := lans[i];
        ghost var before := errors;
        match (ParseNetwork(lan.subnet), ParseAddress(lan.gateway)) {
          case (Some(n), Some(g)) =>
            if !InNetwork(g, n) {
              errors := errors + [GatewayNotInSubnet(lan.gateway, lan.subnet, lan.name)];
            }
          case _ =>
            errors := errors + [InvalidIp(lan.name)];
        }
        assert errors == before + GatewayIssue(lan);
        AppendAssoc(old(errors), FlatMap(lans[..i], GatewayIssue), GatewayIssue(lan));
        i := i + 1;
      }
      assert lans[..i] == lans;
    }

    /** The loop body of the DHCP check, for one LAN. */
    method CheckLanDhcp(lan: LANConfig)
      modifies this
      ensures errors == old(errors) + DhcpIssue(lan)
      ensures warnings == old(warnings)
    {
      if !DhcpChecked(lan) {
        return;
      }
      var pieces := Split(lan.dhcp.value.range.value, '-');
      var network := ParseNetwork(lan.subnet);
      if network.None? || |pieces| != 2 {
        errors := errors + [InvalidDhcpRange(lan.name)];
        return;
      }
      var startIp := ParseAddress(Strip(pieces[0]));
      var endIp := ParseAddress(Strip(pieces[1]));
      if startIp.None? || endIp.None? {
        errors := errors + [InvalidDhcpRange(lan.name)];
        return;
      }
      CheckRangeBounds(lan, network.value, startIp.value, endIp.value);
    }

    /** The three checks on a range that parsed: start inside, end inside, start before end. */
    method CheckRangeBounds(lan: LANConfig, n: Net, s: nat, e: nat)
      modifies this
      ensures errors == old(errors) + BoundsIssues(lan, n, s, e)
      ensures warnings == old(warnings)
    {
      if !InNetwork(s, n) {
        errors := errors + [DhcpStartOutside(s, lan.subnet, lan.name)];
      }
      if !InNetwork(e, n) {
        errors := errors + [DhcpEndOutside(e, lan.subnet, lan.name)];
      }
      if s >= e {
        errors := errors + [DhcpStartNotBeforeEnd(lan.name)];
      }
    }

    method CheckDhcpRanges()
      modifies this
      ensures errors == old(errors) + DhcpErrors(policy)
      ensures warnings == old(warnings)
    {
      var lans := policy.lans;
      var i := 0;
      while i < |lans|
        invariant 0 <= i <= |lans|
        invariant errors == old(errors) + FlatMap(lans[..i], DhcpIssue)
        invariant warnings == old(warnings)
      {
        FlatMapPrefix(lans, i, DhcpIssue);
        CheckLanDhcp(lans[i]);
        AppendAssoc(old(errors), FlatMap(lans[..i], DhcpIssue), DhcpIssue(lans[i]));
        i := i + 1;
      }
      assert lans[..i] == lans;
    }

    method CheckWanRequiredFields()
      modifies this
      ensures errors == old(errors) + WanErrors(policy.wan)
      ensures warnings == old(warnings) + WanWarnings(policy.wan)
    {
      var wan := policy.wan;
      if wan.kind == "pppoe" {
        if !IsSet(wan.username) {
          errors := errors + [PppoeNeedsUsername];
        }
        if !IsSet(wan.passwordRef) {
          warnings := warnings + [PppoeShouldHavePassword];
        }
      } else if wan.kind == "static" {
        if !IsSet(wan.ip) {
          errors := errors + [StaticNeedsIp];
        }
        if !IsSet(wan.netmask) {
          errors := errors + [StaticNeedsNetmask];
        }
        if !IsSet(wan.gateway) {
          errors := errors + [StaticNeedsGateway];
        }
      }
    }

    method CheckWifiLanReferences()
      modifies this
      ensures errors == old(errors) + WifiErrors(policy)
      ensures warnings == old(warnings) + WifiWarnings(policy)
    {
      var names := LanNames(policy.lans);
      var wifi := policy.wifi;
      var i := 0;
      while i < |wifi|
        invariant 0 <= i <= |wifi|
        invariant errors == old(errors) + FlatMap(wifi[..i], WifiLanFn(names))
        invariant warnings == old(warnings) + FlatMap(wifi[..i], WifiSecurityIssue)
      {
        FlatMapPrefix(wifi, i, WifiLanFn(names));
        FlatMapPrefix(wifi, i, WifiSecurityIssue);
        var w := wifi[i];
        if w.lan !in names {
          errors := errors + [WifiUnknownLan(w.name, w.lan)];
        }
        if w.security.Some? && IsPsk(w.security.value.encryption) && !IsSet(w.security.value.passwordRef) {
          warnings := warnings + [WifiShouldHavePassword(w.name)];
        }
        i := i + 1;
      }
      assert wifi[..i] == wifi;
    }

    method CheckIsolationReferences()
      modifies this
      ensures errors == old(errors) + IsolationErrors(policy)
      ensures warnings == old(warnings)
    {
      var names := LanNames(policy.lans);
      var lans := policy.lans;
      var i := 0;
      while i < |lans|
        invariant 0 <= i <= |lans|
        invariant errors == old(errors) + FlatMap(lans[..i], LanIsolationFn(names))
        invariant warnings == old(warnings)
      {
        FlatMapPrefix(lans, i, LanIsolationFn(names));
        CheckLanIsolation(names, lans[i]);
        AppendAssoc(old(errors), FlatMap(lans[..i], LanIsolationFn(names)), LanIsolationIssues(names, lans[i]));
        i := i + 1;
      }
      assert lans[..i] == lans;
    }

    /** Appends an error for each LAN that `lan` is isolated from but that does not exist. */
    method CheckLanIsolation(names: set<string>, lan: LANConfig)
      modifies this
      ensures errors == old(errors) + LanIsolationIssues(names, lan)
      ensures warnings == old(warnings)
    {
      var others := lan.isolatedFrom;
      var j := 0;
      while j < |others|
        invariant 0 <= j <= |others|
        invariant errors == old(errors) + FlatMap(others[..j], IsolationFn(names, lan.name))
        invariant warnings == old(warnings)
      {
        FlatMapPrefix(others, j, IsolationFn(names, lan.name));
        if others[j] !in names {
          errors := errors + [IsolationUnknownLan(lan.name, others[j])];
        }
        j := j + 1;
      }
      assert others[..j] == others;
    }

    /** Appends an error for each zone of `zones` outside `valid`. */
    method CheckZones(valid: set<string>, rule: string, side: string, zones: seq<string>)
      modifies this
      ensures errors == old(errors) + FlatMap(zones, ZoneFn(valid, rule, side))
      ensures warnings == old(warnings)
    {
      var j := 0;
      while j < |zones|
        invariant 0 <= j <= |zones|
        invariant errors == old(errors) + FlatMap(zones[..j], ZoneFn(valid, rule, side))
        invariant warnings == old(warnings)
      {
        FlatMapPrefix(zones, j, ZoneFn(valid, rule, side));
        if zones[j] !in valid {
          errors := errors + [UnknownZone(rule, zones[j], side)];
        }
        j := j + 1;
      }
      assert zones[..j] == zones;
    }

    /** The errors of one rule: its `from` zones, then its `to` zones. */
    method CheckRule(valid: set<string>, rule: FirewallRule)
      modifies this
      ensures errors == old(errors) + RuleIssues(valid, rule)
      ensures warnings == old(warnings)
    {
      CheckZones(valid, rule.name, "from", rule.fromZones);
      CheckZones(valid, rule.name, "to", rule.toZones);
      AppendAssoc(old(errors), FlatMap(rule.fromZones, ZoneFn(valid, rule.name, "from")),
                  FlatMap(rule.toZones, ZoneFn(valid, rule.name, "to")));
    }

    method CheckFirewallZoneReferences()
      modifies this
      ensures errors == old(errors) + FirewallErrors(policy)
      ensures warnings == old(warnings)
    {
      if policy.firewall.None? {
        return;
      }
      var valid := {"wan"} + LanNames(policy.lans);
      if policy.vpn != [] {
        valid := valid + {"vpn"};
      }
      assert valid == ValidZones(policy);
      var rules := policy.firewall.value.rules;
      var i := 0;
      while i < |rules|
        invariant 0 <= i <= |rules|
        invariant errors == old(errors) + FlatMap(rules[..i], RuleFn(valid))
        invariant warnings == old(warnings)
      {
        FlatMapPrefix(rules, i, RuleFn(valid));
        CheckRule(valid, rules[i]);
        AppendAssoc(old(errors), FlatMap(rules[..i], RuleFn(valid)), RuleIssues(valid, rules[i]));
        i := i + 1;
      }
      assert rules[..i] == rules;
    }

    method CheckVpnConflicts()
      modifies this
      ensures errors == old(errors) + VpnErrors(policy)
      ensures warnings == old(warnings) + VpnWarnings(policy)
    {
      var vpns := policy.vpn;
      var listenPorts: seq<int> := [];
      var i := 0;
      while i < |vpns|
        invariant 0 <= i <= |vpns|
        invariant errors + VpnErrorsAfter(vpns[i..], listenPorts) == old(errors) + VpnErrorsAfter(vpns, [])
        invariant warnings == old(warnings) + FlatMap(vpns[..i], VpnWarning)
      {
        FlatMapPrefix(vpns, i, VpnWarning);
        assert vpns[i..][0] == vpns[i] && vpns[i..][1..] == vpns[i + 1..];
        var vpn := vpns[i];
        if vpn.role == "server" && IsSetInt(vpn.listenPort) {
          var port := vpn.listenPort.value;
          if port in listenPorts {
            errors := errors + [DuplicateListenPort(port)];
          }
          listenPorts := listenPorts + [port];
          if port < 1024 {
            warnings := warnings + [PrivilegedListenPort(port)];
          }
        }
        i := i + 1;
      }
      assert vpns[..i] == vpns;
      assert vpns[i..] == [];
    }

    /** The forward check's body, for one port forward. */
    method CheckForward(networks: seq<(string, Net)>, pf: PortForward)
      modifies this
      ensures errors == old(errors) + ForwardIpIssue(pf)
      ensures warnings == old(warnings) + ForwardReachIssue(networks, pf)
    {
      match ParseAddress(pf.internalIp) {
        case Some(a) =>
          var found := FindNetwork(a, networks);
          if !found {
            warnings := warnings + [ForwardOutsideLans(pf.internalIp)];
          }
        case None =>
          errors := errors + [InvalidForwardIp(pf.internalIp)];
      }
    }

    method CheckNatPortForwards()
      modifies this
      ensures errors == old(errors) + NatErrors(policy)
      ensures warnings == old(warnings) + NatWarnings(policy)
    {
      if !ForwardsChecked(policy) {
        return;
      }
      var networks := LanNetworks(policy.lans);
      var forwards := policy.natConfig.value.portForwards;
      var i := 0;
      while i < |forwards|
        invariant 0 <= i <= |forwards|
        invariant errors == old(errors) + FlatMap(forwards[..i], ForwardIpIssue)
        invariant warnings == old(warnings) + FlatMap(forwards[..i], ForwardReachFn(networks))
      {
        FlatMapPrefix(forwards, i, ForwardIpIssue);
        FlatMapPrefix(forwards, i, ForwardReachFn(networks));
        CheckForward(networks, forwards[i]);
        AppendAssoc(old(errors), FlatMap(forwards[..i], ForwardIpIssue), ForwardIpIssue(forwards[i]));
        AppendAssoc(old(warnings), FlatMap(forwards[..i], ForwardReachFn(networks)), ForwardReachIssue(networks, forwards[i]));
        i := i + 1;
      }
      assert forwards[..i] == forwards;
    }

    method Validate() returns (outcome: Result<(), string>)
      modifies this
      ensures errors == AllErrors(policy)
      ensures warnings == AllWarnings(policy)
      ensures outcome == Outcome(policy)
    {
      errors := [];
      warnings := [];
      CheckSubnetOverlaps();
      assert errors == SubnetErrors(policy);
      CheckGatewayInSubnet();
      assert errors == SubnetErrors(policy) + GatewayErrors(policy);
      CheckDhcpRanges();
      CheckWanRequiredFields();
      assert warnings == WanWarnings(policy.wan);
      CheckWifiLanReferences();
      assert warnings == WanWarnings(policy.wan) + WifiWarnings(policy);
      CheckIsolationReferences();
      CheckFirewallZoneReferences();
      CheckVpnConflicts();
      assert warnings == WanWarnings(policy.wan) + WifiWarnings(policy) + VpnWarnings(policy);
      CheckNatPortForwards();
      assert warnings == AllWarnings(policy);
      assert errors == AllErrors(policy);
      if errors != [] {
        var message := "Policy validation failed:\n" + Join(Bullets(errors), "\n");
        if warnings != [] {
          message := message + ("\n\nWarnings:\n" + Join(Bullets(warnings), "\n"));
        } else {
          assert message == message + "";
        }
        return Err(message);
      }
      return Ok(());
    }

    method GetWarnings() returns (w: seq<Issue>)
      ensures w == warnings
    {
      w := warnings;
    }
  }

  /** The port-forward check's list of parsed LAN networks; LANs whose subnet
      does not parse are skipped (the subnet check reports them). */
  method LanNetworks(lans: seq<LANConfig>) returns (networks: seq<(string, Net)>)
    ensures networks == Networks(lans)
  {
    networks := [];
    var i := 0;
    while i < |lans|
      invariant 0 <= i <= |lans|
      invariant networks == Networks(lans[..i])
    {
      FlatMapPrefix(lans, i, ParsedLan);
      match ParseNetwork(lans[i].subnet) {
        case Some(n) =>
          networks := networks + [(lans[i].name, n)];
        case None =>
      }
      i := i + 1;
    }
    assert lans[..i] == lans;
  }

  /** The search loop with `break`: does some network of `networks` contain `a`? */
  method FindNetwork(a: nat, networks: seq<(string, Net)>) returns (found: bool)
    ensures found <==> InSomeNetwork(a, networks)
  {
    found := false;
    var k := 0;
    while k < |networks|
      invariant 0 <= k <= |networks|
      invariant !found
      invariant forall m :: 0 <= m < k ==> !InNetwork(a, networks[m].1)
    {
      if InNetwork(a, networks[k].1) {
        found := true;
        break;
      }
      k := k + 1;
    }
  }

  /** `validate_policy`: a fresh validator's `validate`. */
  method ValidatePolicy(policy: Policy) returns (outcome: Result<(), string>)
    ensures outcome == Outcome(policy)
    ensures outcome.Err? <==> AllErrors(policy) != []
  {
    var validator := new PolicyValidator(policy);
    outcome := validator.Validate();
  }
}
