/**
 * The part of Python's `ipaddress` module the validator and backend use:
 * IPv4 addresses as 32-bit naturals, networks as (masked network address,
 * prefix length), `ip_address`, `ip_network(..., strict=False)`, `in` and
 * `overlaps`.
 */
module IPv4 {
  import opened Wrappers
  import opened Strings

  /** 2^32: every IPv4 address is below this. */
  const AddressSpace: nat := 0x1_0000_0000

  function Pow2(n: nat): (r: nat)
    ensures r >= 1
  {
    if n == 0 then 1 else 2 * Pow2(n - 1)
  }

  lemma {:induction false} Pow2Add(a: nat, b: nat)
    ensures Pow2(a + b) == Pow2(a) * Pow2(b)
  {
    if a > 0 {
      Pow2Add(a - 1, b);
      assert Pow2(a + b) == 2 * Pow2(a - 1 + b);
    }
  }

  lemma Pow2Of32()
    ensures Pow2(32) == AddressSpace
  {
    assert Pow2(4) == 16;
    Pow2Add(4, 4);
    Pow2Add(8, 8);
    Pow2Add(16, 16);
  }

  lemma {:induction false} Pow2Bounds(n: nat)
    requires n <= 32
    ensures Pow2(n) <= AddressSpace
    ensures AddressSpace % Pow2(n) == 0
  {
    var q, size := Pow2(32 - n), Pow2(n);
    Pow2Of32();
    Pow2Add(32 - n, n);
    assert 32 - n + n == 32;
    assert AddressSpace == q * size;
    MultipleAtLeast(q, size);
    MultipleMod(q, size);
  }

  lemma MultipleAtLeast(q: nat, size: nat)
    requires q >= 1
    ensures q * size >= size
  {
    assert q * size == (q - 1) * size + size;
  }

  /** Number of addresses in a block with this prefix length. */
  function BlockSize(prefix: nat): (r: nat)
    requires prefix <= 32
    ensures 1 <= r <= AddressSpace
  {
    Pow2Bounds(32 - prefix);
    Pow2(32 - prefix)
  }

  /** An `IPv4Network`: its network address and prefix length. */
  datatype Network = Network(address: nat, prefix: nat)

  /** What `ip_network` can produce: prefix at most 32, host bits clear. */
  predicate ValidNetwork(n: Network)
  {
    && n.prefix <= 32
    && n.address < AddressSpace
    && n.address % BlockSize(n.prefix) == 0
  }

  /** A network `ip_network` can return. */
  type Net = n: Network | ValidNetwork(n) witness Network(0, 0)

  /** `a & netmask` for the netmask of this prefix length. */
  function Mask(a: nat, prefix: nat): nat
    requires prefix <= 32
  {
    var size := BlockSize(prefix);
    RemainderAtMost(a, size);
    a - a % size
  }

  lemma RemainderAtMost(a: nat, size: nat)
    requires size > 0
    ensures a % size <= a
  {
    var q := a / size;
    assert a == q * size + a % size;
    assert q >= 0;
    MultipleNonNegative(q, size);
  }

  lemma MultipleNonNegative(q: nat, size: nat)
    ensures q * size >= 0
  {
  }

  /** `network.broadcast_address`. */
  function Broadcast(n: Network): nat
    requires n.prefix <= 32
  {
    n.address + BlockSize(n.prefix) - 1
  }

  /** `address in network`: the masked address is the network address. */
  predicate InNetwork(a: nat, n: Network)
    requires n.prefix <= 32
  {
    Mask(a, n.prefix) == n.address
  }

  /** `net1.overlaps(net2)`: either network or broadcast address of one lies in the other. */
  predicate Overlaps(n1: Network, n2: Network)
    requires n1.prefix <= 32 && n2.prefix <= 32
  {
    || InNetwork(n2.address, n1)
    || InNetwork(Broadcast(n2), n1)
    || InNetwork(n1.address, n2)
    || InNetwork(Broadcast(n1), n2)
  }

  lemma ProductZero(d: int, size: int)
    requires size > 0 && -size < d * size < size
    ensures d == 0
  {
  }

  /** Euclidean division by a positive size, given the quotient's bracket. */
  lemma DivBetween(a: int, size: int, k: int)
    requires size > 0 && k * size <= a < k * size + size
    ensures a / size == k && a % size == a - k * size
  {
    var q := a / size;
    var r := a % size;
    assert a == q * size + r && 0 <= r < size;
    var d := q - k;
    assert d * size == q * size - k * size;
    ProductZero(d, size);
  }

  lemma MultipleMod(q: nat, size: nat)
    requires size > 0
    ensures (q * size) % size == 0
  {
    DivBetween(q * size, size, q);
  }

  /** Membership is exactly the address range the network spans. */
  lemma InNetworkRange(a: nat, n: Network)
    requires ValidNetwork(n)
    ensures InNetwork(a, n) <==> n.address <= a <= Broadcast(n)
  {
    var size := BlockSize(n.prefix);
    var k := n.address / size;
    assert n.address == k * size;
    if n.address <= a <= Broadcast(n) {
      DivBetween(a, size, k);
      assert a % size == a - k * size;
    }
    if InNetwork(a, n) {
      assert a == n.address + a % size;
    }
  }

  /** Some address belongs to both networks. */
  ghost predicate ShareAddress(n1: Network, n2: Network)
    requires n1.prefix <= 32 && n2.prefix <= 32
  {
    exists a: nat :: InNetwork(a, n1) && InNetwork(a, n2)
  }

  /** Two networks overlap exactly when some address belongs to both. */
  lemma OverlapsIffShared(n1: Network, n2: Network)
    requires ValidNetwork(n1) && ValidNetwork(n2)
    ensures Overlaps(n1, n2) <==> ShareAddress(n1, n2)
  {
    InNetworkRange(n2.address, n1);
    InNetworkRange(Broadcast(n2), n1);
    InNetworkRange(n1.address, n2);
    InNetworkRange(Broadcast(n1), n2);
    if exists a: nat :: InNetwork(a, n1) && InNetwork(a, n2) {
      var a: nat :| InNetwork(a, n1) && InNetwork(a, n2);
      InNetworkRange(a, n1);
      InNetworkRange(a, n2);
    }
    InNetworkRange(n1.address, n1);
    InNetworkRange(n2.address, n2);
    if Overlaps(n1, n2) {
      if InNetwork(n2.address, n1) {
        assert InNetwork(n2.address, n1) && InNetwork(n2.address, n2);
      } else {
        assert InNetwork(n1.address, n1) && InNetwork(n1.address, n2);
      }
    }
  }

  /** `overlaps` does not depend on the order of its arguments. */
  lemma OverlapsSymmetric(n1: Network, n2: Network)
    requires n1.prefix <= 32 && n2.prefix <= 32
    ensures Overlaps(n1, n2) == Overlaps(n2, n1)
  {
  }

  // ---------------------------------------------------------------- parsing

  predicate AllDigits(s: string)
  {
    forall i :: 0 <= i < |s| ==> IsDigit(s[i])
  }

  /** `_parse_octet`: one to three ASCII digits, no leading zero, at most 255. */
  function ParseOctet(s: string): (r: Option<nat>)
    ensures r.Some? ==> r.value < 256
  {
    if s == [] || |s| > 3 || !AllDigits(s) then None
    else if s != "0" && s[0] == '0' then None
    else if DigitsValue(s) > 255 then None
    else Some(DigitsValue(s))
  }

  function FromOctets(o1: nat, o2: nat, o3: nat, o4: nat): nat
  {
    o1 * 16777216 + o2 * 65536 + o3 * 256 + o4
  }

  /** `ipaddress.ip_address(s)` for an IPv4 dotted quad; `None` where it raises. */
  function ParseAddress(s: string): (r: Option<nat>)
    ensures r.Some? ==> r.value < AddressSpace
  {
    var parts := Split(s, '.');
    if |parts| != 4 then None
    else
      match (ParseOctet(parts[0]), ParseOctet(parts[1]), ParseOctet(parts[2]), ParseOctet(parts[3]))
      case (Some(o1), Some(o2), Some(o3), Some(o4)) => Some(FromOctets(o1, o2, o3, o4))
      case _ => None
  }

  /** The prefix-length form of a netmask: ASCII digits denoting at most 32. */
  function ParsePrefix(s: string): (r: Option<nat>)
    ensures r.Some? ==> r.value <= 32
  {
    if s == [] || !AllDigits(s) || DigitsValue(s) > 32 then None else Some(DigitsValue(s))
  }

  /** `ipaddress.ip_network(s, strict=False)` for IPv4: `address[/prefix]`,
      host bits cleared; `None` where it raises. */
  function ParseNetwork(s: string): (r: Option<Network>)
    ensures r.Some? ==> ValidNetwork(r.value)
  {
    var pieces := Split(s, '/');
    if |pieces| > 2 then None
    else
      var prefix := if |pieces| == 1 then Some(32) else ParsePrefix(pieces[1]);
      match (ParseAddress(pieces[0]), prefix)
      case (Some(a), Some(p)) =>
        MaskValid(a, p);
        Some(Network(Mask(a, p), p))
      case _ => None
  }

  lemma MaskValid(a: nat, p: nat)
    requires a < AddressSpace && p <= 32
    ensures ValidNetwork(Network(Mask(a, p), p))
  {
    var size := BlockSize(p);
    assert a == (a / size) * size + a % size;
    assert Mask(a, p) == (a / size) * size;
    MultipleMod(a / size, size);
  }

  // ---------------------------------------------------------------- formatting

  /** `str(IPv4Address)`: the dotted quad. */
  function FormatAddress(a: nat): string
  {
    NatToString(a / 16777216) + "." + NatToString(a / 65536 % 256) + "."
      + NatToString(a / 256 % 256) + "." + NatToString(a % 256)
  }

  /** `str(IPv4Network)`: network address, a slash and the prefix length. */
  function FormatNetwork(n: Network): string
  {
    FormatAddress(n.address) + "/" + NatToString(n.prefix)
  }

  lemma ParseOctetOfNatToString(n: nat)
    requires n < 256
    ensures ParseOctet(NatToString(n)) == Some(n)
  {
    DigitsValueOfNatToString(n);
  }

  lemma NoDotInNumber(n: nat)
    ensures '.' !in NatToString(n)
  {
  }

  lemma OctetsRebuild(a: nat)
    requires a < AddressSpace
    ensures FromOctets(a / 16777216, a / 65536 % 256, a / 256 % 256, a % 256) == a
  {
    var o1, r1 := a / 16777216, a % 16777216;
    var o2, r2 := r1 / 65536, r1 % 65536;
    var o3, o4 := r2 / 256, r2 % 256;
    assert a / 65536 == o1 * 256 + o2;
    assert a / 65536 % 256 == o2;
    assert a / 256 == o1 * 65536 + o2 * 256 + o3;
    assert a / 256 % 256 == o3;
    assert a % 256 == o4;
  }

  /** Four dot-free pieces joined by dots split back into those pieces. */
  lemma {:induction false} SplitQuad(s1: string, s2: string, s3: string, s4: string)
    requires '.' !in s1 && '.' !in s2 && '.' !in s3 && '.' !in s4
    ensures Split(s1 + "." + s2 + "." + s3 + "." + s4, '.') == [s1, s2, s3, s4]
  {
    assert s1 + "." + s2 + "." + s3 + "." + s4 == s1 + ['.'] + (s2 + ['.'] + (s3 + ['.'] + s4));
    SplitAfterPiece(s1, '.', s2 + ['.'] + (s3 + ['.'] + s4));
    SplitAfterPiece(s2, '.', s3 + ['.'] + s4);
    SplitAfterPiece(s3, '.', s4);
    SplitNoSeparator(s4, '.');
  }

  /** Parsing four octets written in decimal and joined by dots gives their value back. */
  lemma {:induction false} ParseQuad(o1: nat, o2: nat, o3: nat, o4: nat)
    requires o1 < 256 && o2 < 256 && o3 < 256 && o4 < 256
    ensures ParseAddress(NatToString(o1) + "." + NatToString(o2) + "." + NatToString(o3) + "." + NatToString(o4))
         == Some(FromOctets(o1, o2, o3, o4))
  {
    NoDotInNumber(o1);
    NoDotInNumber(o2);
    NoDotInNumber(o3);
    NoDotInNumber(o4);
    SplitQuad(NatToString(o1), NatToString(o2), NatToString(o3), NatToString(o4));
    ParseOctetOfNatToString(o1);
    ParseOctetOfNatToString(o2);
    ParseOctetOfNatToString(o3);
    ParseOctetOfNatToString(o4);
  }

  /** Parsing the dotted quad of an address gives the address back. */
  lemma {:induction false} ParseFormatAddress(a: nat)
    requires a < AddressSpace
    ensures ParseAddress(FormatAddress(a)) == Some(a)
  {
    ParseQuad(a / 16777216, a / 65536 % 256, a / 256 % 256, a % 256);
    OctetsRebuild(a);
  }

  /** The dotted quad has no slash: it is digits and dots. */
  lemma NoSlashInAddress(a: nat)
    ensures '/' !in FormatAddress(a)
  {
    var s1, s2, s3, s4 := NatToString(a / 16777216), NatToString(a / 65536 % 256),
                          NatToString(a / 256 % 256), NatToString(a % 256);
    assert FormatAddress(a) == s1 + "." + s2 + "." + s3 + "." + s4;
    forall i | 0 <= i < |FormatAddress(a)|
      ensures FormatAddress(a)[i] != '/'
    {
      assert FormatAddress(a)[i] == '.' || IsDigit(FormatAddress(a)[i]);
    }
  }

  lemma ParsePrefixOfNatToString(n: nat)
    requires n <= 32
    ensures ParsePrefix(NatToString(n)) == Some(n)
  {
    DigitsValueOfNatToString(n);
  }

  /** Parsing the text of a network gives the network back. */
  lemma ParseFormatNetwork(n: Network)
    requires ValidNetwork(n)
    ensures ParseNetwork(FormatNetwork(n)) == Some(n)
  {
    var addr, len := FormatAddress(n.address), NatToString(n.prefix);
    NoSlashInAddress(n.address);
    SplitAfterPiece(addr, '/', len);
    SplitNoSeparator(len, '/');
    assert Split(FormatNetwork(n), '/') == [addr, len];
    ParseFormatAddress(n.address);
    ParsePrefixOfNatToString(n.prefix);
    var size := BlockSize(n.prefix);
    assert n.address % size == 0;
    assert Mask(n.address, n.prefix) == n.address;
  }
}
