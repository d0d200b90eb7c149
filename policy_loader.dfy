/**
 * The policy loader's core: resolving `secret:` references against the
 * environment, and turning the parsed (schema-checked) YAML value into a
 * `Policy`, with the dataclass defaults filled in.
 *
 * Python raises on a missing key or on `.get` of a value that is not a dict;
 * here such a call returns `Err`. The same `Err` stands for a value of the
 * wrong type, which Python would store as it is.
 */
module PolicyLoader {
  import opened Wrappers
  import opened Strings
  import opened Model
  import opened JsonData

  // ---------------------------------------------------------------- secret references

  const SecretPrefix := "secret:"

  /** The environment variable a reference names: `SECRET_` followed by the
      reference, upper-cased, with every `secret:` removed. */
  function EnvKey(reference: string): string
  {
    "SECRET_" + Upper(RemoveAll(reference, SecretPrefix))
  }

  /** A string as `resolve_value` returns it. */
  function ResolveString(env: map<string, string>, s: string): string
  {
    if StartsWith(s, SecretPrefix) then
      var key := EnvKey(s);
      if key in env then env[key] else "<" + key + "_NOT_SET>"
    else s
  }

  /** `resolve_value`: every string in the tree is resolved; dicts and lists are rebuilt around the results. */
  function ResolveValue(env: map<string, string>, v: Json): Json
  {
    match v
    case JStr(s) => JStr(ResolveString(env, s))
    case JObj(m) => JObj(map k | k in m :: ResolveValue(env, m[k]))
    case JList(xs) => JList(seq(|xs|, i requires 0 <= i < |xs| => ResolveValue(env, xs[i])))
    case _ => v
  }

  /** `b` has the shape of `a`: the same dict keys, the same list lengths and
      order, the same non-secret strings and the same non-string scalars. */
  predicate SameShape(a: Json, b: Json)
  {
    match a
    case JStr(s) => b.JStr? && (!StartsWith(s, SecretPrefix) ==> b.text == s)
    case JObj(m) => b.JObj? && m.Keys == b.fields.Keys && forall k :: k in m ==> SameShape(m[k], b.fields[k])
    case JList(xs) => b.JList? && |xs| == |b.items| && forall i :: 0 <= i < |xs| ==> SameShape(xs[i], b.items[i])
    case _ => b == a
  }

  /** Resolution keeps the structure of the data. */
  lemma {:induction false} ResolveKeepsShape(env: map<string, string>, v: Json)
    ensures SameShape(v, ResolveValue(env, v))
  {
    match v
    case JObj(m) =>
      forall k | k in m ensures SameShape(m[k], ResolveValue(env, v).fields[k]) {
        ResolveKeepsShape(env, m[k]);
      }
    case JList(xs) =>
      forall i | 0 <= i < |xs| ensures SameShape(xs[i], ResolveValue(env, v).items[i]) {
        ResolveKeepsShape(env, xs[i]);
      }
    case _ =>
  }

  /** A dict's entries are resolved one by one. */
  lemma ResolveField(env: map<string, string>, v: Json, k: string)
    requires v.JObj? && k in v.fields
    ensures ResolveValue(env, v).JObj? && k in ResolveValue(env, v).fields
    ensures ResolveValue(env, v).fields[k] == ResolveValue(env, v.fields[k])
  {
  }

  /** No string anywhere in the tree is a secret reference. */
  predicate NoSecretRefs(v: Json)
  {
    match v
    case JStr(s) => !StartsWith(s, SecretPrefix)
    case JObj(m) => forall k :: k in m ==> NoSecretRefs(m[k])
    case JList(xs) => forall i :: 0 <= i < |xs| ==> NoSecretRefs(xs[i])
    case _ => true
  }

  /** No environment value is itself a secret reference. */
  predicate PlainEnv(env: map<string, string>)
  {
    forall k :: k in env ==> !StartsWith(env[k], SecretPrefix)
  }

  /** A resolved string is no reference: the placeholder starts with `<`. */
  lemma ResolvedStringPlain(env: map<string, string>, s: string)
    requires PlainEnv(env)
    ensures !StartsWith(ResolveString(env, s), SecretPrefix)
  {
    if StartsWith(s, SecretPrefix) && EnvKey(s) !in env {
      assert ResolveString(env, s)[0] == '<';
    }
  }

  /** After resolution no secret reference remains. */
  lemma {:induction false} ResolvedHasNoRefs(env: map<string, string>, v: Json)
    requires PlainEnv(env)
    ensures NoSecretRefs(ResolveValue(env, v))
  {
    match v
    case JStr(s) => ResolvedStringPlain(env, s);
    case JObj(m) =>
      forall k | k in m ensures NoSecretRefs(ResolveValue(env, v).fields[k]) {
        ResolvedHasNoRefs(env, m[k]);
      }
    case JList(xs) =>
      forall i | 0 <= i < |xs| ensures NoSecretRefs(ResolveValue(env, v).items[i]) {
        ResolvedHasNoRefs(env, xs[i]);
      }
    case _ =>
  }

  /** Data without references is left exactly as it is. */
  lemma {:induction false} PlainUnchanged(env: map<string, string>, v: Json)
    requires NoSecretRefs(v)
    ensures ResolveValue(env, v) == v
  {
    match v
    case JStr(s) =>
    case JObj(m) =>
      forall k | k in m ensures ResolveValue(env, m[k]) == m[k] {
        PlainUnchanged(env, m[k]);
      }
      assert ResolveValue(env, v).fields == m;
    case JList(xs) =>
      forall i | 0 <= i < |xs| ensures ResolveValue(env, xs[i]) == xs[i] {
        PlainUnchanged(env, xs[i]);
      }
      assert ResolveValue(env, v).items == xs;
    case _ =>
  }

  /** Resolving twice is resolving once, when the environment holds no references. */
  lemma ResolveIdempotent(env: map<string, string>, v: Json)
    requires PlainEnv(env)
    ensures ResolveValue(env, ResolveValue(env, v)) == ResolveValue(env, v)
  {
    ResolvedHasNoRefs(env, v);
    PlainUnchanged(env, ResolveValue(env, v));
  }

  /** A reference `secret:<name>` (with no further `:`) picks up `SECRET_<NAME>`
      from the environment, or the placeholder naming it when that is unset. */
  lemma ResolveReference(env: map<string, string>, name: string)
    requires ':' !in name
    ensures var key := "SECRET_" + Upper(name);
      ResolveString(env, SecretPrefix + name) == if key in env then env[key] else "<" + key + "_NOT_SET>"
  {
    assert StartsWith(SecretPrefix + name, SecretPrefix);
    RemoveLeading(name, SecretPrefix);
    assert ':' in SecretPrefix;
    RemoveAbsent(name, SecretPrefix, ':');
  }

  /** A pattern at the front is dropped. */
  lemma RemoveLeading(t: string, pat: string)
    requires pat != []
    ensures RemoveAll(pat + t, pat) == RemoveAll(t, pat)
  {
    assert pat <= pat + t;
    assert (pat + t)[|pat|..] == t;
  }

  /** A string that lacks one of the pattern's characters is left as it is. */
  lemma {:induction false} RemoveAbsent(s: string, pat: string, c: char)
    requires pat != [] && c in pat && c !in s
    ensures RemoveAll(s, pat) == s
  {
    if s != [] {
      RemoveAbsent(s[1..], pat, c);
      assert s == [s[0]] + s[1..];
    }
  }

  // ---------------------------------------------------------------- reading fields

  /** Why `to_model` gave up: an access on a non-dict, a missing key, or a value of the wrong type. */
  datatype LoadError = NotAMapping | MissingKey(key: string) | WrongType(key: string)

  type Load<T> = Result<T, LoadError>

  function Fields(v: Json): Load<map<string, Json>>
  {
    if v.JObj? then Ok(v.fields) else Err(NotAMapping)
  }

  /** `d[key]`. */
  function Required(m: map<string, Json>, key: string): Load<Json>
  {
    if key in m then Ok(m[key]) else Err(MissingKey(key))
  }

  /** `d[key]` for a string field. */
  function Str(m: map<string, Json>, key: string): Load<string>
  {
    var v :- Required(m, key);
    if v.JStr? then Ok(v.text) else Err(WrongType(key))
  }

  /** `d[key]` for an integer field. */
  function Int(m: map<string, Json>, key: string): Load<int>
  {
    var v :- Required(m, key);
    if v.JNum? then Ok(v.num) else Err(WrongType(key))
  }

  /** `d.get(key)` for an optional string field. */
  function OptStr(m: map<string, Json>, key: string): Load<Option<string>>
  {
    match Lookup(m, key)
    case JNull => Ok(None)
    case JStr(s) => Ok(Some(s))
    case _ => Err(WrongType(key))
  }

  /** `d.get(key)` for an optional integer field. */
  function OptInt(m: map<string, Json>, key: string): Load<Option<int>>
  {
    match Lookup(m, key)
    case JNull => Ok(None)
    case JNum(n) => Ok(Some(n))
    case _ => Err(WrongType(key))
  }

  /** `d.get(key)` for the firewall `port`, which may be written as a number.
      Its only use (routeros_backend.py:285-286) tests it for truthiness and then
      renders it as text, so a number is kept as its decimal text and `0`, which
      Python finds falsy, as absent. */
  function OptText(m: map<string, Json>, key: string): Load<Option<string>>
  {
    match Lookup(m, key)
    case JNull => Ok(None)
    case JStr(s) => Ok(Some(s))
    case JNum(n) => if n == 0 then Ok(None) else Ok(Some(IntToString(n)))
    case _ => Err(WrongType(key))
  }

  /** A loaded port is set exactly when the value Python stores is truthy, and
      then it is the text an f-string renders of that value. */
  lemma PortAsStored(m: map<string, Json>, key: string)
    requires OptText(m, key).Ok?
    ensures IsSet(OptText(m, key).value) <==> Truthy(Lookup(m, key))
    ensures IsSet(OptText(m, key).value) ==> OptText(m, key).value.value == JsonData.Show(Lookup(m, key))
  {
    match Lookup(m, key)
    case JNum(n) =>
      if n != 0 {
        assert |IntToString(n)| >= 1;
      }
    case _ =>
  }

  /** `d.get(key, default)` for a string field. */
  function StrOr(m: map<string, Json>, key: string, default: string): Load<string>
  {
    if key !in m then Ok(default)
    else if m[key].JStr? then Ok(m[key].text)
    else Err(WrongType(key))
  }

  /** `d.get(key, default)` for a boolean field. */
  function BoolOr(m: map<string, Json>, key: string, default: bool): Load<bool>
  {
    if key !in m then Ok(default)
    else if m[key].JBool? then Ok(m[key].truth)
    else Err(WrongType(key))
  }

  /** `d.get(key, [])` iterated as a list. */
  function ItemsOf(m: map<string, Json>, key: string): Load<seq<Json>>
  {
    if key !in m then Ok([])
    else if m[key].JList? then Ok(m[key].items)
    else Err(WrongType(key))
  }

  function StringItems(key: string, xs: seq<Json>): (r: Load<seq<string>>)
    ensures r.Ok? ==> |r.value| == |xs| && forall i :: 0 <= i < |xs| ==> xs[i] == JStr(r.value[i])
  {
    if xs == [] then Ok([])
    else if xs[0].JStr? then
      var rest :- StringItems(key, xs[1..]);
      Ok([xs[0].text] + rest)
    else Err(WrongType(key))
  }

  /** `d.get(key, [])` for a list-of-strings field. */
  function StrList(m: map<string, Json>, key: string): Load<seq<string>>
  {
    var xs :- ItemsOf(m, key);
    StringItems(key, xs)
  }

  /** `parse(d[key]) if key in d else None`. */
  function IfPresent<T>(m: map<string, Json>, key: string, parse: Json -> Load<T>): Load<Option<T>>
  {
    if key in m then
      var x :- parse(m[key]);
      Ok(Some(x))
    else Ok(None)
  }

  /** Parse every item, in order; the first failure is the result. */
  function ParseAll<T>(items: seq<Json>, parse: Json -> Load<T>): Load<seq<T>>
  {
    if items == [] then Ok([])
    else
      var init :- ParseAll(items[..|items| - 1], parse);
      var last :- parse(items[|items| - 1]);
      Ok(init + [last])
  }

  /** All items parse exactly when the list does; then the results are the
      items' results, in order, one per item. */
  lemma {:induction false} ParseAllSpec<T>(items: seq<Json>, parse: Json -> Load<T>)
    ensures ParseAll(items, parse).Ok? <==> forall i :: 0 <= i < |items| ==> parse(items[i]).Ok?
    ensures ParseAll(items, parse).Ok? ==>
              |ParseAll(items, parse).value| == |items|
              && forall i :: 0 <= i < |items| ==> Ok(ParseAll(items, parse).value[i]) == parse(items[i])
  {
    if items != [] {
      var init := items[..|items| - 1];
      ParseAllSpec(init, parse);
      assert forall i :: 0 <= i < |init| ==> init[i] == items[i];
    }
  }

  /** Once a prefix fails, the whole list fails the same way. */
  lemma {:induction false} ParseAllFailsEarly<T>(items: seq<Json>, j: nat, parse: Json -> Load<T>)
    requires j <= |items| && ParseAll(items[..j], parse).Err?
    ensures ParseAll(items, parse) == ParseAll(items[..j], parse)
    decreases |items| - j
  {
    if j < |items| {
      assert items[..j + 1][..j] == items[..j];
      ParseAllFailsEarly(items, j + 1, parse);
    } else {
      assert items[..j] == items;
    }
  }

  /** The items under `key` (`d.get(key, [])`), empty when absent. */
  function ItemsAt(m: map<string, Json>, key: string): seq<Json>
  {
    if key in m && m[key].JList? then m[key].items else []
  }

  /** The loop that parses each item of `d.get(key, [])` and appends it. */
  function ListOf<T>(m: map<string, Json>, key: string, parse: Json -> Load<T>): Load<seq<T>>
  {
    var items :- ItemsOf(m, key);
    ParseAll(items, parse)
  }

  /** A list that loads holds one parse per item, in order. */
  lemma ListOfSpec<T>(m: map<string, Json>, key: string, parse: Json -> Load<T>)
    requires ListOf(m, key, parse).Ok?
    ensures |ListOf(m, key, parse).value| == |ItemsAt(m, key)|
    ensures forall i :: 0 <= i < |ItemsAt(m, key)| ==> Ok(ListOf(m, key, parse).value[i]) == parse(ItemsAt(m, key)[i])
  {
    ParseAllSpec(ItemsAt(m, key), parse);
  }

  /** A block parsed only when its key is present is absent exactly when the key is. */
  lemma IfPresentSpec<T>(m: map<string, Json>, key: string, parse: Json -> Load<T>)
    ensures IfPresent(m, key, parse).Ok? && IfPresent(m, key, parse).value.None? <==> key !in m
    ensures key in m ==> (IfPresent(m, key, parse).Ok? <==> parse(m[key]).Ok?)
    ensures IfPresent(m, key, parse).Ok? && key in m ==> IfPresent(m, key, parse).value == Some(parse(m[key]).value)
  {
  }

  // ---------------------------------------------------------------- the model's pieces

  function ParseTarget(v: Json): Load<Target>
  {
    var m :- Fields(v);
    var vendor :- Str(m, "vendor");
    var version :- OptStr(m, "version");
    Ok(Target(vendor, version))
  }

  function ParseMeta(v: Json): Load<Meta>
  {
    var m :- Fields(v);
    var t :- Required(m, "target");
    var target :- ParseTarget(t);
    var name :- Str(m, "name");
    var description :- OptStr(m, "description");
    Ok(Meta(name, description, target))
  }

  function ParseWan(v: Json): Load<WANConfig>
  {
    var m :- Fields(v);
    var kind :- Str(m, "type");
    var interface :- Str(m, "interface");
    var username :- OptStr(m, "username");
    var passwordRef :- OptStr(m, "password_ref");
    var ip :- OptStr(m, "ip");
    var netmask :- OptStr(m, "netmask");
    var gateway :- OptStr(m, "gateway");
    var dns :- StrList(m, "dns");
    var mtu :- OptInt(m, "mtu");
    Ok(WANConfig(kind, interface, username, passwordRef, ip, netmask, gateway, dns, mtu))
  }

  /** `_parse_dhcp`. */
  function ParseDhcp(v: Json): Load<DHCPConfig>
  {
    var m :- Fields(v);
    var enabled :- BoolOr(m, "enabled", false);
    var range :- OptStr(m, "range");
    var leaseTime :- StrOr(m, "lease_time", "24h");
    var dnsServers :- StrList(m, "dns_servers");
    Ok(DHCPConfig(enabled, range, leaseTime, dnsServers))
  }

  function ParseLan(v: Json): Load<LANConfig>
  {
    var m :- Fields(v);
    var dhcp :- IfPresent(m, "dhcp", ParseDhcp);
    var name :- Str(m, "name");
    var subnet :- Str(m, "subnet");
    var gateway :- Str(m, "gateway");
    var vlanId :- OptInt(m, "vlan_id");
    var interface :- OptStr(m, "interface");
    var isolatedFrom :- StrList(m, "isolated_from");
    Ok(LANConfig(name, subnet, gateway, vlanId, interface, dhcp, isolatedFrom))
  }

  /** `_parse_security`. */
  function ParseSecurity(v: Json): Load<SecurityConfig>
  {
    var m :- Fields(v);
    var encryption :- Str(m, "encryption");
    var passwordRef :- OptStr(m, "password_ref");
    var radiusServer :- OptStr(m, "radius_server");
    var radiusSecretRef :- OptStr(m, "radius_secret_ref");
    Ok(SecurityConfig(encryption, passwordRef, radiusServer, radiusSecretRef))
  }

  function ParseWifi(v: Json): Load<WiFiConfig>
  {
    var m :- Fields(v);
    var security :- IfPresent(m, "security", ParseSecurity);
    var name :- Str(m, "name");
    var lan :- Str(m, "lan");
    var ssid :- Str(m, "ssid");
    var mode :- Str(m, "mode");
    var channel :- OptInt(m, "channel");
    var band :- OptStr(m, "band");
    var hidden :- BoolOr(m, "hidden", false);
    var guest :- BoolOr(m, "guest", false);
    Ok(WiFiConfig(name, lan, ssid, mode, channel, band, hidden, guest, security))
  }

  /** `_parse_vpn_peer`. */
  function ParseVpnPeer(v: Json): Load<VPNPeer>
  {
    var m :- Fields(v);
    var name :- Str(m, "name");
    var publicKeyRef :- OptStr(m, "public_key_ref");
    var allowedIps :- StrList(m, "allowed_ips");
    Ok(VPNPeer(name, publicKeyRef, allowedIps))
  }

  function ParseVpn(v: Json): Load<VPNConfig>
  {
    var m :- Fields(v);
    var peers :- ListOf(m, "peers", ParseVpnPeer);
    var kind :- Str(m, "type");
    var role :- Str(m, "role");
    var listenPort :- OptInt(m, "listen_port");
    var interface :- OptStr(m, "interface");
    var allowedIps :- StrList(m, "allowed_ips");
    var endpoint :- OptStr(m, "endpoint");
    var publicKeyRef :- OptStr(m, "public_key_ref");
    var privateKeyRef :- OptStr(m, "private_key_ref");
    Ok(VPNConfig(kind, role, listenPort, interface, allowedIps, endpoint, publicKeyRef, privateKeyRef, peers))
  }

  function ParseRule(v: Json): Load<FirewallRule>
  {
    var m :- Fields(v);
    var name :- Str(m, "name");
    var action :- Str(m, "action");
    var fromZones :- StrList(m, "from");
    var toZones :- StrList(m, "to");
    var protocol :- OptStr(m, "protocol");
    var port :- OptText(m, "port");
    var state :- StrList(m, "state");
    var log :- BoolOr(m, "log", false);
    var comment :- OptStr(m, "comment");
    Ok(FirewallRule(name, action, fromZones, toZones, protocol, port, state, log, comment))
  }

  /** The firewall block: its rules, then its default policy. */
  function ParseFirewall(v: Json): Load<Firewall>
  {
    var m :- Fields(v);
    var rules :- ListOf(m, "rules", ParseRule);
    var defaultPolicy :- StrOr(m, "default_policy", "drop");
    Ok(Firewall(defaultPolicy, rules))
  }

  function ParseDns(v: Json): Load<DNSConfig>
  {
    var m :- Fields(v);
    var servers :- StrList(m, "servers");
    var domain :- OptStr(m, "domain");
    var forwarders :- StrList(m, "forwarders");
    Ok(DNSConfig(servers, domain, forwarders))
  }

  function ParsePortForward(v: Json): Load<PortForward>
  {
    var m :- Fields(v);
    var name :- OptStr(m, "name");
    var protocol :- StrOr(m, "protocol", "tcp");
    var externalPort :- Int(m, "external_port");
    var internalIp :- Str(m, "internal_ip");
    var internalPort :- Int(m, "internal_port");
    Ok(PortForward(name, protocol, externalPort, internalIp, internalPort))
  }

  /** The NAT block: its port forwards, then its masquerade flag. */
  function ParseNat(v: Json): Load<NATConfig>
  {
    var m :- Fields(v);
    var portForwards :- ListOf(m, "port_forwards", ParsePortForward);
    var masquerade :- BoolOr(m, "masquerade", true);
    Ok(NATConfig(masquerade, portForwards))
  }

  /** `meta` and `wan`, the two blocks `to_model` requires, in that order. */
  function ParseHead(m: map<string, Json>): Load<(Meta, WANConfig)>
  {
    var metaData :- Required(m, "meta");
    var meta :- ParseMeta(metaData);
    var wanData :- Required(m, "wan");
    var wan :- ParseWan(wanData);
    Ok((meta, wan))
  }

  /** The LAN, WiFi and VPN lists, in that order. */
  function ParseEntries(m: map<string, Json>): Load<(seq<LANConfig>, seq<WiFiConfig>, seq<VPNConfig>)>
  {
    var lans :- ListOf(m, "lans", ParseLan);
    var wifi :- ListOf(m, "wifi", ParseWifi);
    var vpn :- ListOf(m, "vpn", ParseVpn);
    Ok((lans, wifi, vpn))
  }

  /** The optional firewall, DNS and NAT blocks, in that order. */
  function ParseBlocks(m: map<string, Json>): Load<(Option<Firewall>, Option<DNSConfig>, Option<NATConfig>)>
  {
    var firewall :- IfPresent(m, "firewall", ParseFirewall);
    var dns :- IfPresent(m, "dns", ParseDns);
    var natConfig :- IfPresent(m, "nat", ParseNat);
    Ok((firewall, dns, natConfig))
  }

  /** The policy built from already-resolved data, in `to_model`'s order of access. */
  function Build(data: Json): Load<Policy>
  {
    var m :- Fields(data);
    var head :- ParseHead(m);
    var entries :- ParseEntries(m);
    var blocks :- ParseBlocks(m);
    Ok(Policy(head.0, head.1, entries.0, entries.1, entries.2, blocks.0, blocks.1, blocks.2))
  }

  /** `to_model`: secrets are resolved first, then the policy is built. */
  function ToPolicy(env: map<string, string>, data: Json): Load<Policy>
  {
    Build(ResolveValue(env, data))
  }

  /** A built policy consists of its three stages' results. */
  lemma BuildParts(data: Json)
    requires Build(data).Ok?
    ensures data.JObj?
    ensures var p := Build(data).value;
      && ParseHead(data.fields) == Ok((p.meta, p.wan))
      && ParseEntries(data.fields) == Ok((p.lans, p.wifi, p.vpn))
      && ParseBlocks(data.fields) == Ok((p.firewall, p.dns, p.natConfig))
  {
  }

  /** The head's blocks are the parses of `meta` and `wan`. */
  lemma HeadParts(m: map<string, Json>)
    requires ParseHead(m).Ok?
    ensures "meta" in m && ParseMeta(m["meta"]) == Ok(ParseHead(m).value.0)
    ensures "wan" in m && ParseWan(m["wan"]) == Ok(ParseHead(m).value.1)
  {
  }

  /** The entries are the three lists' loads. */
  lemma EntriesParts(m: map<string, Json>)
    requires ParseEntries(m).Ok?
    ensures ListOf(m, "lans", ParseLan) == Ok(ParseEntries(m).value.0)
    ensures ListOf(m, "wifi", ParseWifi) == Ok(ParseEntries(m).value.1)
    ensures ListOf(m, "vpn", ParseVpn) == Ok(ParseEntries(m).value.2)
  {
  }

  /** The blocks are the three optional parses. */
  lemma BlocksParts(m: map<string, Json>)
    requires ParseBlocks(m).Ok?
    ensures IfPresent(m, "firewall", ParseFirewall) == Ok(ParseBlocks(m).value.0)
    ensures IfPresent(m, "dns", ParseDns) == Ok(ParseBlocks(m).value.1)
    ensures IfPresent(m, "nat", ParseNat) == Ok(ParseBlocks(m).value.2)
  {
  }

  /** Data of the same shape has the same keys and list lengths at the top. */
  lemma ShapeItems(a: Json, b: Json, key: string)
    requires a.JObj? && SameShape(a, b)
    ensures b.JObj? && (key in a.fields <==> key in b.fields)
    ensures |ItemsAt(a.fields, key)| == |ItemsAt(b.fields, key)|
  {
    if key in a.fields {
      assert SameShape(a.fields[key], b.fields[key]);
    }
  }

  // ---------------------------------------------------------------- properties

  /** Lists are read whole and in order: one LAN, WiFi and VPN entry per input
      item, each the parse of that (resolved) item, and as many as the input has. */
  lemma ListsInInputOrder(env: map<string, string>, data: Json)
    requires ToPolicy(env, data).Ok?
    ensures data.JObj?
    ensures var p, m := ToPolicy(env, data).value, ResolveValue(env, data).fields;
      && |p.lans| == |ItemsAt(m, "lans")| == |ItemsAt(data.fields, "lans")|
      && (forall i :: 0 <= i < |p.lans| ==> Ok(p.lans[i]) == ParseLan(ItemsAt(m, "lans")[i]))
      && |p.wifi| == |ItemsAt(m, "wifi")| == |ItemsAt(data.fields, "wifi")|
      && (forall i :: 0 <= i < |p.wifi| ==> Ok(p.wifi[i]) == ParseWifi(ItemsAt(m, "wifi")[i]))
      && |p.vpn| == |ItemsAt(m, "vpn")| == |ItemsAt(data.fields, "vpn")|
      && (forall i :: 0 <= i < |p.vpn| ==> Ok(p.vpn[i]) == ParseVpn(ItemsAt(m, "vpn")[i]))
  {
    var r := ResolveValue(env, data);
    ResolveKeepsShape(env, data);
    BuildParts(r);
    var m := r.fields;
    EntriesParts(m);
    ShapeItems(data, r, "lans");
    ShapeItems(data, r, "wifi");
    ShapeItems(data, r, "vpn");
    ListOfSpec(m, "lans", ParseLan);
    ListOfSpec(m, "wifi", ParseWifi);
    ListOfSpec(m, "vpn", ParseVpn);
  }

  /** The optional blocks are absent exactly when their key is absent from the input. */
  lemma AbsentIffKeyAbsent(env: map<string, string>, data: Json)
    requires ToPolicy(env, data).Ok?
    ensures data.JObj?
    ensures var p := ToPolicy(env, data).value;
      && (p.firewall.None? <==> "firewall" !in data.fields)
      && (p.dns.None? <==> "dns" !in data.fields)
      && (p.natConfig.None? <==> "nat" !in data.fields)
  {
    var r := ResolveValue(env, data);
    ResolveKeepsShape(env, data);
    BuildParts(r);
    BlocksParts(r.fields);
    ShapeItems(data, r, "firewall");
    ShapeItems(data, r, "dns");
    ShapeItems(data, r, "nat");
    IfPresentSpec(r.fields, "firewall", ParseFirewall);
    IfPresentSpec(r.fields, "dns", ParseDns);
    IfPresentSpec(r.fields, "nat", ParseNat);
  }

  /** A LAN's DHCP block is absent exactly when its key is. */
  lemma LanDhcpIffKey(v: Json)
    requires ParseLan(v).Ok?
    ensures v.JObj? && (ParseLan(v).value.dhcp.None? <==> "dhcp" !in v.fields)
  {
    IfPresentSpec(v.fields, "dhcp", ParseDhcp);
  }

  /** A DHCP block without the keys is disabled, leases for 24h and names no DNS servers. */
  lemma DhcpDefaults(v: Json)
    requires ParseDhcp(v).Ok?
    ensures v.JObj?
    ensures "enabled" !in v.fields ==> !ParseDhcp(v).value.enabled
    ensures "lease_time" !in v.fields ==> ParseDhcp(v).value.leaseTime == "24h"
    ensures "dns_servers" !in v.fields ==> ParseDhcp(v).value.dnsServers == []
  {
  }

  /** Security needs an `encryption` string; the three references are optional. */
  lemma SecurityFields(v: Json)
    requires v.JObj?
    ensures "encryption" !in v.fields ==> ParseSecurity(v) == Err(MissingKey("encryption"))
    ensures ParseSecurity(v).Ok? ==> "encryption" in v.fields && v.fields["encryption"] == JStr(ParseSecurity(v).value.encryption)
    ensures ParseSecurity(v).Ok? && "password_ref" !in v.fields ==> ParseSecurity(v).value.passwordRef == None
    ensures ParseSecurity(v).Ok? && "radius_secret_ref" !in v.fields ==> ParseSecurity(v).value.radiusSecretRef == None
  {
  }

  /** A peer needs a `name`; its key reference is optional and its allowed IPs default to none. */
  lemma PeerFields(v: Json)
    requires v.JObj?
    ensures "name" !in v.fields ==> ParseVpnPeer(v) == Err(MissingKey("name"))
    ensures ParseVpnPeer(v).Ok? ==> "name" in v.fields && v.fields["name"] == JStr(ParseVpnPeer(v).value.name)
    ensures ParseVpnPeer(v).Ok? && "public_key_ref" !in v.fields ==> ParseVpnPeer(v).value.publicKeyRef == None
    ensures ParseVpnPeer(v).Ok? && "allowed_ips" !in v.fields ==> ParseVpnPeer(v).value.allowedIps == []
  {
  }

  /** A WiFi entry is neither hidden nor a guest network unless it says so. */
  lemma WifiDefaults(v: Json)
    requires ParseWifi(v).Ok?
    ensures v.JObj?
    ensures "hidden" !in v.fields ==> !ParseWifi(v).value.hidden
    ensures "guest" !in v.fields ==> !ParseWifi(v).value.guest
  {
  }

  /** The firewall's default policy is `drop` unless given, and its rules are its
      items' parses, in order. */
  lemma FirewallDefaults(v: Json)
    requires ParseFirewall(v).Ok?
    ensures v.JObj?
    ensures "default_policy" !in v.fields ==> ParseFirewall(v).value.defaultPolicy == "drop"
    ensures |ParseFirewall(v).value.rules| == |ItemsAt(v.fields, "rules")|
    ensures forall i :: 0 <= i < |ItemsAt(v.fields, "rules")| ==>
              Ok(ParseFirewall(v).value.rules[i]) == ParseRule(ItemsAt(v.fields, "rules")[i])
  {
    ListOfSpec(v.fields, "rules", ParseRule);
  }

  /** A port forward is TCP unless given; NAT masquerades unless told otherwise. */
  lemma NatDefaults(v: Json, f: Json)
    ensures ParsePortForward(f).Ok? && "protocol" !in f.fields ==> ParsePortForward(f).value.protocol == "tcp"
    ensures ParseNat(v).Ok? && "masquerade" !in v.fields ==> ParseNat(v).value.masquerade
  {
  }

  /** A WAN block's password reference is read as an optional string. */
  lemma WanPassword(v: Json)
    requires ParseWan(v).Ok?
    ensures v.JObj? && OptStr(v.fields, "password_ref") == Ok(ParseWan(v).value.passwordRef)
  {
  }

  /** Secrets are resolved before the fields are read: a WAN password reference
      arrives in the model already resolved. */
  lemma SecretsResolvedFirst(env: map<string, string>, data: Json, s: string)
    requires data.JObj? && "wan" in data.fields && data.fields["wan"].JObj?
    requires "password_ref" in data.fields["wan"].fields && data.fields["wan"].fields["password_ref"] == JStr(s)
    requires ToPolicy(env, data).Ok?
    ensures ToPolicy(env, data).value.wan.passwordRef == Some(ResolveString(env, s))
  {
    var r := ResolveValue(env, data);
    BuildParts(r);
    HeadParts(r.fields);
    ResolveField(env, data, "wan");
    var wan := r.fields["wan"];
    ResolveField(env, data.fields["wan"], "password_ref");
    WanPassword(wan);
  }

  // ---------------------------------------------------------------- the loader

  /** The loader, with the environment it reads secrets from. */
  class Loader {
    const env: map<string, string>

    constructor(env: map<string, string>)
      ensures this.env == env
    {
      this.env := env;
    }

    /** `_resolve_secrets`. */
    function ResolveSecrets(data: Json): (r: Json)
      reads this
      ensures SameShape(data, r)
      ensures PlainEnv(env) ==> NoSecretRefs(r)
    {
      ResolveKeepsShape(env, data);
      if PlainEnv(env) then
        ResolvedHasNoRefs(env, data);
        ResolveValue(env, data)
      else ResolveValue(env, data)
    }

    /** Parse the items of one list, appending in order; stop at the first failure. */
    method ParseEach<T>(items: seq<Json>, parse: Json -> Load<T>) returns (r: Load<seq<T>>)
      ensures r == ParseAll(items, parse)
    {
      var out: seq<T> := [];
      for i := 0 to |items|
        invariant ParseAll(items[..i], parse) == Ok(out)
      {
        assert items[..i + 1][..i] == items[..i];
        var x := parse(items[i]);
        if x.Err? {
          ParseAllFailsEarly(items, i + 1, parse);
          return Err(x.error);
        }
        out := out + [x.value];
      }
      assert items[..|items|] == items;
      return Ok(out);
    }

    /** One `for item in d.get(key, [])` loop. */
    method LoadList<T>(m: map<string, Json>, key: string, parse: Json -> Load<T>) returns (r: Load<seq<T>>)
      ensures r == ListOf(m, key, parse)
    {
      var items :- ItemsOf(m, key);
      r := ParseEach(items, parse);
    }

    /** The LAN, WiFi and VPN loops. */
    method LoadEntries(m: map<string, Json>) returns (r: Load<(seq<LANConfig>, seq<WiFiConfig>, seq<VPNConfig>)>)
      ensures r == ParseEntries(m)
    {
      var lans :- LoadList(m, "lans", ParseLan);
      var wifi :- LoadList(m, "wifi", ParseWifi);
      var vpn :- LoadList(m, "vpn", ParseVpn);
      return Ok((lans, wifi, vpn));
    }

    /** The optional blocks; the firewall's rules and the NAT's forwards are loops of their own. */
    method LoadBlocks(m: map<string, Json>) returns (r: Load<(Option<Firewall>, Option<DNSConfig>, Option<NATConfig>)>)
      ensures r == ParseBlocks(m)
    {
      var firewall: Option<Firewall> := None;
      if "firewall" in m {
        var fw :- Fields(m["firewall"]);
        var rules :- LoadList(fw, "rules", ParseRule);
        var defaultPolicy :- StrOr(fw, "default_policy", "drop");
        firewall := Some(Firewall(defaultPolicy, rules));
      }
      var dns :- IfPresent(m, "dns", ParseDns);
      var natConfig: Option<NATConfig> := None;
      if "nat" in m {
        var natData :- Fields(m["nat"]);
        var portForwards :- LoadList(natData, "port_forwards", ParsePortForward);
        var masquerade :- BoolOr(natData, "masquerade", true);
        natConfig := Some(NATConfig(masquerade, portForwards));
      }
      return Ok((firewall, dns, natConfig));
    }

    /** `to_model`. */
    method ToModel(data: Json) returns (r: Load<Policy>)
      ensures r == ToPolicy(env, data)
    {
      var resolved := ResolveSecrets(data);
      var m :- Fields(resolved);
      var head :- ParseHead(m);
      var entries :- LoadEntries(m);
      var blocks :- LoadBlocks(m);
      return Ok(Policy(head.0, head.1, entries.0, entries.1, entries.2, blocks.0, blocks.1, blocks.2));
    }
  }
}
