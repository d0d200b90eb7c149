/**
 * The deterministic part of the test-case generator: the basic test cases
 * derived from a policy, the text summary handed to the AI provider, and the
 * order in which the provider's cases and the basic ones are returned.
 */
module TestCases {
  import opened Wrappers
  import opened Strings
  import opened Seqs
  import opened Model

  /** One generated test case: the dict with keys name, description, type, steps and expected. */
  datatype TestCase = TestCase(name: string, description: string, kind: string, steps: seq<string>, expected: string)

  /** `f"{x}"` for an optional integer. */
  function ShowInt(x: Option<int>): string
  {
    if x.Some? then IntToString(x.value) else "None"
  }

  // ---------------------------------------------------------------- basic cases

  function ConnectivityCase(lan: LANConfig): TestCase
  {
    TestCase(
      "test_" + lan.name + "_internet_connectivity",
      "Verify " + lan.name + " LAN can reach internet",
      "connectivity",
      ["ping -c 4 8.8.8.8 from " + lan.name, "curl -I http://example.com from " + lan.name],
      "successful connection")
  }

  function IsolationCase(lan: LANConfig, other: string): TestCase
  {
    TestCase(
      "test_" + lan.name + "_isolated_from_" + other,
      "Verify " + lan.name + " cannot reach " + other,
      "firewall",
      ["ping gateway of " + other + " from " + lan.name, "attempt connection to " + other + " subnet"],
      "connection blocked")
  }

  function WifiCase(wifi: WiFiConfig): TestCase
  {
    TestCase(
      "test_wifi_" + wifi.name + "_connectivity",
      "Verify WiFi " + wifi.ssid + " connects to " + wifi.lan,
      "connectivity",
      ["connect to SSID '" + wifi.ssid + "'", "verify IP in " + wifi.lan + " subnet", "test internet access"],
      "successful connection and internet access")
  }

  function VpnCase(vpn: VPNConfig): TestCase
  {
    TestCase(
      "test_vpn_" + vpn.kind + "_server",
      "Verify " + vpn.kind + " VPN server is accessible",
      "connectivity",
      ["connect to VPN on port " + ShowInt(vpn.listenPort), "verify tunnel establishment", "test routing through VPN"],
      "successful VPN connection")
  }

  /** What one pass of each loop appends for one entry. */
  function LanCases(lan: LANConfig): seq<TestCase> { [ConnectivityCase(lan)] }

  function IsolationCases(lan: LANConfig): seq<TestCase>
  {
    seq(|lan.isolatedFrom|, k requires 0 <= k < |lan.isolatedFrom| => IsolationCase(lan, lan.isolatedFrom[k]))
  }

  function WifiCases(wifi: WiFiConfig): seq<TestCase> { [WifiCase(wifi)] }

  function VpnCases(vpn: VPNConfig): seq<TestCase>
  {
    if vpn.role == "server" then [VpnCase(vpn)] else []
  }

  /** `_generate_basic_test_cases`: the four loops, one after the other. */
  function BasicCases(p: Policy): seq<TestCase>
  {
    FlatMap(p.lans, LanCases) + FlatMap(p.lans, IsolationCases) + FlatMap(p.wifi, WifiCases) + FlatMap(p.vpn, VpnCases)
  }

  /** Σ |isolated_from| over the LANs. */
  function IsolationPairs(lans: seq<LANConfig>): nat
  {
    if lans == [] then 0 else |lans[0].isolatedFrom| + IsolationPairs(lans[1..])
  }

  /** The number of server VPNs. */
  function ServerCount(vpns: seq<VPNConfig>): nat
  {
    if vpns == [] then 0 else (if vpns[0].role == "server" then 1 else 0) + ServerCount(vpns[1..])
  }

  lemma {:induction false} IsolationLength(lans: seq<LANConfig>)
    ensures |FlatMap(lans, IsolationCases)| == IsolationPairs(lans)
  {
    if lans != [] {
      IsolationLength(lans[1..]);
    }
  }

  lemma {:induction false} ServerLength(vpns: seq<VPNConfig>)
    ensures |FlatMap(vpns, VpnCases)| == ServerCount(vpns)
  {
    if vpns != [] {
      ServerLength(vpns[1..]);
    }
  }

  /** One case per LAN, one per isolation pair, one per WiFi and one per server VPN. */
  lemma BasicCaseCount(p: Policy)
    ensures |BasicCases(p)| == |p.lans| + IsolationPairs(p.lans) + |p.wifi| + ServerCount(p.vpn)
  {
    FlatMapOnes(p.lans, LanCases);
    IsolationLength(p.lans);
    FlatMapOnes(p.wifi, WifiCases);
    ServerLength(p.vpn);
  }

  /** When every case an entry yields is of one type, so is every case of the group. */
  lemma {:induction false} GroupKind<T>(s: seq<T>, f: T -> seq<TestCase>, kind: string)
    requires forall i, k :: 0 <= i < |s| && 0 <= k < |f(s[i])| ==> f(s[i])[k].kind == kind
    ensures forall k :: 0 <= k < |FlatMap(s, f)| ==> FlatMap(s, f)[k].kind == kind
  {
    if s != [] {
      GroupKind(s[1..], f, kind);
      assert FlatMap(s, f) == f(s[0]) + FlatMap(s[1..], f);
      assert forall i :: 0 <= i < |s[1..]| ==> s[1..][i] == s[i + 1];
    }
  }

  /** The four groups, in order, and where each starts. */
  lemma BasicCaseLayout(p: Policy)
    ensures |FlatMap(p.lans, LanCases)| == |p.lans|
    ensures |FlatMap(p.lans, IsolationCases)| == IsolationPairs(p.lans)
    ensures |FlatMap(p.wifi, WifiCases)| == |p.wifi|
    ensures BasicCases(p) == FlatMap(p.lans, LanCases) + FlatMap(p.lans, IsolationCases) + FlatMap(p.wifi, WifiCases) + FlatMap(p.vpn, VpnCases)
  {
    FlatMapOnes(p.lans, LanCases);
    IsolationLength(p.lans);
    FlatMapOnes(p.wifi, WifiCases);
  }

  /** The cases open with each LAN's connectivity case, in LAN order. */
  lemma ConnectivityGroup(p: Policy)
    ensures |BasicCases(p)| >= |p.lans|
    ensures forall i :: 0 <= i < |p.lans| ==> BasicCases(p)[i] == ConnectivityCase(p.lans[i])
  {
    var l, iso, w, v := FlatMap(p.lans, LanCases), FlatMap(p.lans, IsolationCases), FlatMap(p.wifi, WifiCases), FlatMap(p.vpn, VpnCases);
    BasicCaseLayout(p);
    FlatMapOnes(p.lans, LanCases);
    ConcatAt(l, iso, w, v);
  }

  /** The isolation cases come next; all of them are firewall tests. */
  lemma IsolationGroupKind(p: Policy)
    ensures |BasicCases(p)| >= |p.lans| + IsolationPairs(p.lans)
    ensures forall k :: |p.lans| <= k < |p.lans| + IsolationPairs(p.lans) ==> BasicCases(p)[k].kind == "firewall"
  {
    var l, iso, w, v := FlatMap(p.lans, LanCases), FlatMap(p.lans, IsolationCases), FlatMap(p.wifi, WifiCases), FlatMap(p.vpn, VpnCases);
    BasicCaseLayout(p);
    GroupKind(p.lans, IsolationCases, "firewall");
    ConcatAt(l, iso, w, v);
  }

  /** Then each WiFi's case, in order. */
  lemma WifiGroup(p: Policy)
    ensures |BasicCases(p)| >= |p.lans| + IsolationPairs(p.lans) + |p.wifi|
    ensures forall i :: 0 <= i < |p.wifi| ==> BasicCases(p)[|p.lans| + IsolationPairs(p.lans) + i] == WifiCase(p.wifi[i])
  {
    var l, iso, v := FlatMap(p.lans, LanCases), FlatMap(p.lans, IsolationCases), FlatMap(p.vpn, VpnCases);
    BasicCaseLayout(p);
    WifiAt(l + iso, p.wifi, v);
  }

  lemma WifiAt(before: seq<TestCase>, wifi: seq<WiFiConfig>, after: seq<TestCase>)
    ensures |before + FlatMap(wifi, WifiCases) + after| == |before| + |wifi| + |after|
    ensures forall i :: 0 <= i < |wifi| ==> (before + FlatMap(wifi, WifiCases) + after)[|before| + i] == WifiCase(wifi[i])
  {
    FlatMapOnes(wifi, WifiCases);
  }

  /** The cases after the WiFi ones are the server VPNs' connectivity tests. */
  lemma VpnGroupKind(p: Policy)
    ensures forall k :: |p.lans| + IsolationPairs(p.lans) + |p.wifi| <= k < |BasicCases(p)| ==> BasicCases(p)[k].kind == "connectivity"
  {
    var l, iso, w, v := FlatMap(p.lans, LanCases), FlatMap(p.lans, IsolationCases), FlatMap(p.wifi, WifiCases), FlatMap(p.vpn, VpnCases);
    BasicCaseLayout(p);
    ServerLength(p.vpn);
    GroupKind(p.vpn, VpnCases, "connectivity");
    ConcatAt(l, iso, w, v);
  }

  /** Where each piece of `a + b + c + d` sits. */
  lemma ConcatAt<T>(a: seq<T>, b: seq<T>, c: seq<T>, d: seq<T>)
    ensures |a + b + c + d| == |a| + |b| + |c| + |d|
    ensures forall k :: 0 <= k < |a| ==> (a + b + c + d)[k] == a[k]
    ensures forall k :: |a| <= k < |a| + |b| ==> (a + b + c + d)[k] == b[k - |a|]
    ensures forall k :: 0 <= k < |c| ==> (a + b + c + d)[|a| + |b| + k] == c[k]
    ensures forall k :: |a| + |b| + |c| <= k < |a| + |b| + |c| + |d| ==> (a + b + c + d)[k] == d[k - |a| - |b| - |c|]
  {
  }

  /** A connectivity case per LAN, named after it. */
  lemma ConnectivityCaseSpec(lan: LANConfig)
    ensures ConnectivityCase(lan).name == "test_" + lan.name + "_internet_connectivity"
    ensures ConnectivityCase(lan).kind == "connectivity"
  {
  }

  /** The isolation group holds exactly one case per (LAN, isolated LAN) pair. */
  lemma IsolationGroup(p: Policy, t: TestCase)
    ensures t in FlatMap(p.lans, IsolationCases) <==>
              exists i, k :: 0 <= i < |p.lans| && 0 <= k < |p.lans[i].isolatedFrom| && t == IsolationCase(p.lans[i], p.lans[i].isolatedFrom[k])
  {
    FlatMapMember(p.lans, IsolationCases, t);
    if t in FlatMap(p.lans, IsolationCases) {
      var i :| 0 <= i < |p.lans| && t in IsolationCases(p.lans[i]);
      var k :| 0 <= k < |IsolationCases(p.lans[i])| && IsolationCases(p.lans[i])[k] == t;
      assert t == IsolationCase(p.lans[i], p.lans[i].isolatedFrom[k]);
    }
    if exists i, k :: 0 <= i < |p.lans| && 0 <= k < |p.lans[i].isolatedFrom| && t == IsolationCase(p.lans[i], p.lans[i].isolatedFrom[k]) {
      var i, k :| 0 <= i < |p.lans| && 0 <= k < |p.lans[i].isolatedFrom| && t == IsolationCase(p.lans[i], p.lans[i].isolatedFrom[k]);
      assert IsolationCases(p.lans[i])[k] == t;
    }
  }

  /** Only server VPNs get a case. */
  lemma ServerCases(p: Policy, t: TestCase)
    ensures t in FlatMap(p.vpn, VpnCases) <==> exists v :: v in p.vpn && v.role == "server" && t == VpnCase(v)
  {
    FlatMapWhenMember(p.vpn, VpnCases, (v: VPNConfig) => v.role == "server", VpnCase, t);
  }

  // ---------------------------------------------------------------- summary

  function HeaderLines(p: Policy): seq<string>
  {
    [ "Router: " + p.meta.name,
      "Target: " + p.meta.target.vendor + " " + OrElse(p.meta.target.version, ""),
      "WAN: " + p.wan.kind + " on " + p.wan.interface ]
  }

  /** ` (isolated from: a, b)`, only when the LAN is isolated from some. */
  function IsolationNote(lan: LANConfig): string
  {
    if lan.isolatedFrom != [] then " (isolated from: " + Join(lan.isolatedFrom, ", ") + ")" else ""
  }

  function LanLine(lan: LANConfig): string
  {
    "  - " + lan.name + ": " + lan.subnet + IsolationNote(lan)
  }

  /** ` (guest)`, only for a guest network. */
  function GuestNote(wifi: WiFiConfig): string
  {
    if wifi.guest then " (guest)" else ""
  }

  function WifiLine(wifi: WiFiConfig): string
  {
    "  - " + wifi.ssid + GuestNote(wifi)
  }

  /** One line per entry, in order. */
  function LanLines(lans: seq<LANConfig>): seq<string>
  {
    Mapped(lans, LanLine)
  }

  function WifiLines(wifi: seq<WiFiConfig>): seq<string>
  {
    Mapped(wifi, WifiLine)
  }

  function LanBlock(p: Policy): seq<string>
  {
    if p.lans == [] then [] else ["LANs: " + NatToString(|p.lans|)] + LanLines(p.lans)
  }

  function WifiBlock(p: Policy): seq<string>
  {
    if p.wifi == [] then [] else ["WiFi: " + NatToString(|p.wifi|) + " network(s)"] + WifiLines(p.wifi)
  }

  function VpnBlock(p: Policy): seq<string>
  {
    if p.vpn == [] then [] else ["VPN: " + NatToString(|p.vpn|) + " configuration(s)"]
  }

  /** A dataclass instance is always truthy, so only the rule list decides. */
  function FirewallBlock(p: Policy): seq<string>
  {
    if p.firewall.Some? && p.firewall.value.rules != [] then
      ["Firewall: " + NatToString(|p.firewall.value.rules|) + " custom rule(s)"]
    else []
  }

  function SummaryLines(p: Policy): seq<string>
  {
    HeaderLines(p) + LanBlock(p) + WifiBlock(p) + VpnBlock(p) + FirewallBlock(p)
  }

  /** `_policy_to_summary`. */
  function Summary(p: Policy): string
  {
    Join(SummaryLines(p), "\n")
  }

  /** Where the middle piece of `a + b + c` sits. */
  lemma MiddleAt<T>(a: seq<T>, b: seq<T>, c: seq<T>)
    ensures (a + b + c)[..|a|] == a
    ensures forall k :: 0 <= k < |b| ==> (a + b + c)[|a| + k] == b[k]
  {
  }

  /** A block: its count line, then one line per entry in order. */
  lemma BlockShape<T>(head: string, xs: seq<T>, line: T -> string, block: seq<string>)
    requires block == [head] + Mapped(xs, line)
    ensures block[0] == head
    ensures forall i :: 0 <= i < |xs| ==> block[1 + i] == line(xs[i])
  {
    forall i | 0 <= i < |xs|
      ensures block[1 + i] == line(xs[i])
    {
      assert block[1 + i] == Mapped(xs, line)[i];
    }
  }

  /** The summary opens with the Router, Target and WAN lines; when there are
      LANs, their count line follows, then one line per LAN in order. */
  lemma SummaryShape(p: Policy)
    ensures |SummaryLines(p)| >= 3 && SummaryLines(p)[..3] == HeaderLines(p)
    ensures p.lans != [] ==> SummaryLines(p)[3] == "LANs: " + NatToString(|p.lans|)
    ensures p.lans != [] ==> forall i :: 0 <= i < |p.lans| ==> SummaryLines(p)[4 + i] == LanLine(p.lans[i])
  {
    var h, lb, rest := HeaderLines(p), LanBlock(p), WifiBlock(p) + VpnBlock(p) + FirewallBlock(p);
    AppendAssoc(h + lb, WifiBlock(p) + VpnBlock(p), FirewallBlock(p));
    AppendAssoc(h + lb, WifiBlock(p), VpnBlock(p));
    assert SummaryLines(p) == h + lb + rest;
    MiddleAt(h, lb, rest);
    if p.lans != [] {
      BlockShape("LANs: " + NatToString(|p.lans|), p.lans, LanLine, lb);
    }
  }

  /** The isolation note is there exactly for an isolated LAN, and it names every LAN it is isolated from. */
  lemma IsolationNoteSpec(lan: LANConfig)
    ensures IsolationNote(lan) == "" <==> lan.isolatedFrom == []
    ensures forall k :: 0 <= k < |lan.isolatedFrom| ==> Contains(IsolationNote(lan), lan.isolatedFrom[k])
  {
    forall k | 0 <= k < |lan.isolatedFrom| ensures Contains(IsolationNote(lan), lan.isolatedFrom[k]) {
      JoinContains(lan.isolatedFrom, ", ", k);
      var j := Join(lan.isolatedFrom, ", ");
      ContainsWithin(" (isolated from: ", j, ")", lan.isolatedFrom[k]);
    }
  }

  /** A WiFi line is marked as guest exactly for a guest network. */
  lemma GuestNoteSpec(wifi: WiFiConfig)
    ensures GuestNote(wifi) != "" <==> wifi.guest
    ensures |WifiLine(wifi)| == 4 + |wifi.ssid| + (if wifi.guest then 8 else 0)
  {
  }

  /** A line built from a tag starts with it. */
  lemma TagFirst(tag: string, rest: string)
    ensures StartsWith(tag + rest, tag)
  {
    assert (tag + rest)[..|tag|] == tag;
  }

  /** Every line of the LAN block is its count line or an entry line. */
  lemma LanBlockLines(p: Policy)
    ensures forall l :: l in LanBlock(p) ==> StartsWith(l, "LANs: ") || StartsWith(l, "  - ")
  {
    if p.lans != [] {
      TagFirst("LANs: ", NatToString(|p.lans|));
      forall i | 0 <= i < |p.lans| ensures StartsWith(LanLine(p.lans[i]), "  - ") {
        var lan := p.lans[i];
        assert LanLine(lan) == "  - " + (lan.name + ": " + lan.subnet + IsolationNote(lan));
        TagFirst("  - ", lan.name + ": " + lan.subnet + IsolationNote(lan));
      }
    }
  }

  /** Every line of the WiFi block is its count line or an entry line. */
  lemma WifiBlockLines(p: Policy)
    ensures forall l :: l in WifiBlock(p) ==> StartsWith(l, "WiFi: ") || StartsWith(l, "  - ")
  {
    if p.wifi != [] {
      assert "WiFi: " + NatToString(|p.wifi|) + " network(s)" == "WiFi: " + (NatToString(|p.wifi|) + " network(s)");
      TagFirst("WiFi: ", NatToString(|p.wifi|) + " network(s)");
      forall i | 0 <= i < |p.wifi| ensures StartsWith(WifiLine(p.wifi[i]), "  - ") {
        TagFirst("  - ", p.wifi[i].ssid + GuestNote(p.wifi[i]));
      }
    }
  }

  /** Two tags that differ in their first two characters never start the same line. */
  lemma TagsExclusive(l: string, a: string, b: string)
    requires |a| >= 2 && |b| >= 2 && (a[0] != b[0] || a[1] != b[1])
    ensures !(StartsWith(l, a) && StartsWith(l, b))
  {
    if StartsWith(l, a) {
      assert l[0] == a[0] && l[1] == a[1];
    }
  }

  /** No line carries two of the summary's tags. */
  lemma TagsDiffer(l: string)
    ensures StartsWith(l, "LANs: ") ==> !StartsWith(l, "  - ") && !StartsWith(l, "WiFi: ") && !StartsWith(l, "VPN: ") && !StartsWith(l, "Firewall: ")
    ensures StartsWith(l, "WiFi: ") ==> !StartsWith(l, "  - ") && !StartsWith(l, "VPN: ") && !StartsWith(l, "Firewall: ")
    ensures StartsWith(l, "VPN: ") ==> !StartsWith(l, "  - ") && !StartsWith(l, "Firewall: ")
    ensures StartsWith(l, "Firewall: ") ==> !StartsWith(l, "  - ")
    ensures StartsWith(l, "Router: ") || StartsWith(l, "Target: ") || StartsWith(l, "WAN: ") ==>
              !StartsWith(l, "LANs: ") && !StartsWith(l, "WiFi: ") && !StartsWith(l, "VPN: ") && !StartsWith(l, "Firewall: ")
  {
    TagsExclusive(l, "LANs: ", "WiFi: ");
    TagsExclusive(l, "LANs: ", "VPN: ");
    TagsExclusive(l, "LANs: ", "Firewall: ");
    TagsExclusive(l, "LANs: ", "  - ");
    TagsExclusive(l, "LANs: ", "Router: ");
    TagsExclusive(l, "LANs: ", "Target: ");
    TagsExclusive(l, "LANs: ", "WAN: ");
    TagsExclusive(l, "WiFi: ", "VPN: ");
    TagsExclusive(l, "WiFi: ", "Firewall: ");
    TagsExclusive(l, "WiFi: ", "  - ");
    TagsExclusive(l, "WiFi: ", "Router: ");
    TagsExclusive(l, "WiFi: ", "Target: ");
    TagsExclusive(l, "WiFi: ", "WAN: ");
    TagsExclusive(l, "VPN: ", "Firewall: ");
    TagsExclusive(l, "VPN: ", "  - ");
    TagsExclusive(l, "VPN: ", "Router: ");
    TagsExclusive(l, "VPN: ", "Target: ");
    TagsExclusive(l, "VPN: ", "WAN: ");
    TagsExclusive(l, "Firewall: ", "  - ");
    TagsExclusive(l, "Firewall: ", "Router: ");
    TagsExclusive(l, "Firewall: ", "Target: ");
    TagsExclusive(l, "Firewall: ", "WAN: ");
  }

  /** A summary line with a block's tag belongs to that block. */
  lemma TaggedLineBlock(p: Policy, l: string)
    requires l in SummaryLines(p)
    ensures StartsWith(l, "LANs: ") ==> l in LanBlock(p)
    ensures StartsWith(l, "WiFi: ") ==> l in WifiBlock(p)
    ensures StartsWith(l, "VPN: ") ==> l in VpnBlock(p)
    ensures StartsWith(l, "Firewall: ") ==> l in FirewallBlock(p)
  {
    assert SummaryLines(p) == HeaderLines(p) + LanBlock(p) + WifiBlock(p) + VpnBlock(p) + FirewallBlock(p);
    LanBlockLines(p);
    WifiBlockLines(p);
    TagsDiffer(l);
  }

  /** Each count line is present exactly when its list is non-empty (the firewall
      line when there is a firewall with rules). */
  lemma SummaryCountLines(p: Policy)
    ensures (exists l :: l in SummaryLines(p) && StartsWith(l, "LANs: ")) <==> p.lans != []
    ensures (exists l :: l in SummaryLines(p) && StartsWith(l, "WiFi: ")) <==> p.wifi != []
    ensures (exists l :: l in SummaryLines(p) && StartsWith(l, "VPN: ")) <==> p.vpn != []
    ensures (exists l :: l in SummaryLines(p) && StartsWith(l, "Firewall: ")) <==> p.firewall.Some? && p.firewall.value.rules != []
  {
    var h, lb, wb, vb, fb := HeaderLines(p), LanBlock(p), WifiBlock(p), VpnBlock(p), FirewallBlock(p);
    assert SummaryLines(p) == h + lb + wb + vb + fb;
    forall l | l in SummaryLines(p)
      ensures StartsWith(l, "LANs: ") ==> l in lb
      ensures StartsWith(l, "WiFi: ") ==> l in wb
      ensures StartsWith(l, "VPN: ") ==> l in vb
      ensures StartsWith(l, "Firewall: ") ==> l in fb
    {
      TaggedLineBlock(p, l);
    }
    if p.lans != [] {
      assert lb[0] in SummaryLines(p) && StartsWith(lb[0], "LANs: ");
    }
    if p.wifi != [] {
      assert wb[0] in SummaryLines(p) && StartsWith(wb[0], "WiFi: ");
    }
    if p.vpn != [] {
      assert vb[0] in SummaryLines(p) && StartsWith(vb[0], "VPN: ");
    }
    if p.firewall.Some? && p.firewall.value.rules != [] {
      assert fb[0] in SummaryLines(p) && StartsWith(fb[0], "Firewall: ");
    }
  }

  // ---------------------------------------------------------------- the generator

  /** The loop that appends one line per entry, in order. */
  method AppendLines<T>(parts: seq<string>, xs: seq<T>, line: T -> string) returns (out: seq<string>)
    ensures out == parts + Mapped(xs, line)
  {
    out := parts;
    for i := 0 to |xs|
      invariant out == parts + Mapped(xs[..i], line)
    {
      MappedPrefix(xs, i, line);
      out := out + [line(xs[i])];
    }
    assert xs[..|xs|] == xs;
  }

  /** The generator, with the AI provider's availability and its answer taken as given. */
  class TestCaseGenerator {
    /** `ai_provider.is_available()`. */
    const available: bool
    /** `ai_provider.generate_test_cases(summary, vendor)`. */
    const provider: (string, string) -> seq<TestCase>

    constructor(available: bool, provider: (string, string) -> seq<TestCase>)
      ensures this.available == available && this.provider == provider
    {
      this.available := available;
      this.provider := provider;
    }

    /** `_policy_to_summary`, appending to `summary_parts`. */
    method PolicyToSummary(p: Policy) returns (s: string)
      ensures s == Summary(p)
    {
      var lans, wifi := p.lans, p.wifi;
      var parts := HeaderLines(p);
      if lans != [] {
        parts := AppendLines(parts + ["LANs: " + NatToString(|lans|)], lans, LanLine);
        AppendAssoc(HeaderLines(p), ["LANs: " + NatToString(|lans|)], Mapped(lans, LanLine));
      }
      assert parts == HeaderLines(p) + LanBlock(p);
      if wifi != [] {
        ghost var before := parts;
        parts := AppendLines(parts + ["WiFi: " + NatToString(|wifi|) + " network(s)"], wifi, WifiLine);
        AppendAssoc(before, ["WiFi: " + NatToString(|wifi|) + " network(s)"], Mapped(wifi, WifiLine));
      }
      assert parts == HeaderLines(p) + LanBlock(p) + WifiBlock(p);
      if p.vpn != [] {
        parts := parts + ["VPN: " + NatToString(|p.vpn|) + " configuration(s)"];
      }
      if p.firewall.Some? && p.firewall.value.rules != [] {
        parts := parts + ["Firewall: " + NatToString(|p.firewall.value.rules|) + " custom rule(s)"];
      }
      assert parts == SummaryLines(p);
      s := Join(parts, "\n");
    }

    /** `_generate_basic_test_cases`: its four loops append to one list in turn. */
    method GenerateBasicTestCases(p: Policy) returns (cases: seq<TestCase>)
      ensures cases == BasicCases(p)
    {
      cases := AddConnectivityTests([], p.lans);
      cases := AddIsolationTests(cases, p.lans);
      cases := AddWifiTests(cases, p.wifi);
      cases := AddVpnTests(cases, p.vpn);
    }

    /** Internet connectivity tests for each LAN. */
    method AddConnectivityTests(init: seq<TestCase>, lans: seq<LANConfig>) returns (cases: seq<TestCase>)
      ensures cases == init + FlatMap(lans, LanCases)
    {
      cases := init;
      for i := 0 to |lans|
        invariant cases == init + FlatMap(lans[..i], LanCases)
      {
        ghost var before := cases;
        cases := cases + [ConnectivityCase(lans[i])];
        FlatMapStep(init, lans, i, LanCases, before, cases);
      }
      assert lans[..|lans|] == lans;
    }

    /** Isolation tests: each LAN against each LAN it is isolated from. */
    method AddIsolationTests(init: seq<TestCase>, lans: seq<LANConfig>) returns (cases: seq<TestCase>)
      ensures cases == init + FlatMap(lans, IsolationCases)
    {
      cases := init;
      for i := 0 to |lans|
        invariant cases == init + FlatMap(lans[..i], IsolationCases)
      {
        var lan := lans[i];
        var others := lan.isolatedFrom;
        ghost var before := cases;
        for j := 0 to |others|
          invariant cases == before + IsolationCases(lan)[..j]
        {
          assert IsolationCases(lan)[..j + 1] == IsolationCases(lan)[..j] + [IsolationCase(lan, others[j])];
          cases := cases + [IsolationCase(lan, others[j])];
        }
        assert IsolationCases(lan)[..|others|] == IsolationCases(lan);
        FlatMapStep(init, lans, i, IsolationCases, before, cases);
      }
      assert lans[..|lans|] == lans;
    }

    /** WiFi connectivity tests. */
    method AddWifiTests(init: seq<TestCase>, wifi: seq<WiFiConfig>) returns (cases: seq<TestCase>)
      ensures cases == init + FlatMap(wifi, WifiCases)
    {
      cases := init;
      for i := 0 to |wifi|
        invariant cases == init + FlatMap(wifi[..i], WifiCases)
      {
        ghost var before := cases;
        cases := cases + [WifiCase(wifi[i])];
        FlatMapStep(init, wifi, i, WifiCases, before, cases);
      }
      assert wifi[..|wifi|] == wifi;
    }

    /** VPN tests, for servers only. */
    method AddVpnTests(init: seq<TestCase>, vpn: seq<VPNConfig>) returns (cases: seq<TestCase>)
      ensures cases == init + FlatMap(vpn, VpnCases)
    {
      cases := init;
      for i := 0 to |vpn|
        invariant cases == init + FlatMap(vpn[..i], VpnCases)
      {
        ghost var before := cases;
        if vpn[i].role == "server" {
          cases := cases + [VpnCase(vpn[i])];
        }
        FlatMapStep(init, vpn, i, VpnCases, before, cases);
      }
      assert vpn[..|vpn|] == vpn;
    }

    /** `generate_test_cases`: the basic cases alone when the provider is
        unavailable, otherwise the provider's cases with the basic ones after them. */
    method GenerateTestCases(p: Policy) returns (cases: seq<TestCase>)
      ensures !available ==> cases == BasicCases(p)
      ensures available ==> cases == provider(Summary(p), p.meta.target.vendor) + BasicCases(p)
      ensures |cases| >= |BasicCases(p)| && cases[|cases| - |BasicCases(p)|..] == BasicCases(p)
    {
      if !available {
        cases := GenerateBasicTestCases(p);
        return;
      }
      var summary := PolicyToSummary(p);
      cases := provider(summary, p.meta.target.vendor);
      var basic := GenerateBasicTestCases(p);
      cases := cases + basic;
    }
  }
}
