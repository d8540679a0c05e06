/** The IPv4 part of Python's `ipaddress` module that API-key allow-lists use:
    `ip_address` on dotted quads, `ip_network(..., strict=False)` with a prefix length,
    a netmask or a hostmask after the '/', and address-in-network membership
    (prefix notation as in section 3.1 of RFC 4632). */
module Ipv4 {
  import opened Wrappers
  import opened PyText

  type Address = n: nat | n < 0x1_0000_0000

  const AllOnes: Address := 0xFFFF_FFFF

  function Pow2(k: nat): (p: nat)
    ensures p >= 1
  {
    if k == 0 then 1 else 2 * Pow2(k - 1)
  }

  lemma Pow2Bounds(k: nat)
    requires k <= 32
    ensures Pow2(k) <= Pow2(32) && Pow2(32) == 0x1_0000_0000
    decreases 32 - k
  {
    assert Pow2(8) == 0x100;
    assert Pow2(16) == 0x1_0000;
    assert Pow2(24) == 0x100_0000;
    if k < 32 {
      Pow2Bounds(k + 1);
    }
  }

  // ---------------------------------------------------------------------------
  // addresses

  /** One decimal octet: one to three ASCII digits, no leading zero, at most 255. */
  function ParseOctet(s: string): (r: Option<nat>)
    ensures r.Some? ==> r.value < 256
    ensures r.Some? ==> s != "" && AllDigits(s) && |s| <= 3 && (s[0] == '0' ==> s == "0")
  {
    if s == "" || !AllDigits(s) || |s| > 3 || (s != "0" && s[0] == '0') then None
    else
      var v := DigitsValue(s);
      if v > 255 then None else Some(v)
  }

  function FromOctets(a: nat, b: nat, c: nat, d: nat): Address
    requires a < 256 && b < 256 && c < 256 && d < 256
  {
    ((a * 256 + b) * 256 + c) * 256 + d
  }

  /** `ipaddress.IPv4Address(s)`: four octets separated by dots; None where it raises. */
  function ParseAddress(s: string): Option<Address> {
    if s == "" then None
    else
      var parts := Split(s, '.');
      if |parts| != 4 then None
      else
        match (ParseOctet(parts[0]), ParseOctet(parts[1]), ParseOctet(parts[2]), ParseOctet(parts[3]))
        case (Some(a), Some(b), Some(c), Some(d)) => Some(FromOctets(a, b, c, d))
        case _ => None
  }

  /** The four octets of an address, most significant first. */
  function Octets(a: Address): (o: seq<nat>)
    ensures |o| == 4 && o[0] < 256 && o[1] < 256 && o[2] < 256 && o[3] < 256
    ensures FromOctets(o[0], o[1], o[2], o[3]) == a
  {
    var q1 := a / 256;
    var q2 := q1 / 256;
    var q3 := q2 / 256;
    assert a == q1 * 256 + a % 256 && q1 == q2 * 256 + q1 % 256 && q2 == q3 * 256 + q2 % 256;
    assert q1 < 0x100_0000 && q2 < 0x1_0000 && q3 < 256;
    [q3, q2 % 256, q1 % 256, a % 256]
  }

  /** `str(IPv4Address(a))`: the dotted-quad form. */
  function Format(a: Address): string {
    var o := Octets(a);
    Join([NatToString(o[0]), NatToString(o[1]), NatToString(o[2]), NatToString(o[3])], ".")
  }

  lemma ParseOctetOfString(n: nat)
    requires n < 256
    ensures ParseOctet(NatToString(n)) == Some(n)
    ensures '.' !in NatToString(n)
  {
    NatToStringShort(n);
    NatToStringValue(n);
    var s := NatToString(n);
    assert IsDigit(s[0]);
    assert forall k :: 0 <= k < |s| ==> s[k] != '.';
  }

  /** Every address reads back from its dotted-quad form. */
  lemma ParseFormat(a: Address)
    ensures ParseAddress(Format(a)) == Some(a)
  {
    var o := Octets(a);
    ParseOctetOfString(o[0]);
    ParseOctetOfString(o[1]);
    ParseOctetOfString(o[2]);
    ParseOctetOfString(o[3]);
    ParseJoinedOctets([NatToString(o[0]), NatToString(o[1]), NatToString(o[2]), NatToString(o[3])], o);
  }

  /** Four dot-free octet texts joined by dots parse to the address of those octets. */
  lemma ParseJoinedOctets(parts: seq<string>, o: seq<nat>)
    requires |parts| == 4 && |o| == 4 && o[0] < 256 && o[1] < 256 && o[2] < 256 && o[3] < 256
    requires forall i :: 0 <= i < 4 ==> '.' !in parts[i] && ParseOctet(parts[i]) == Some(o[i])
    ensures ParseAddress(Join(parts, ".")) == Some(FromOctets(o[0], o[1], o[2], o[3]))
  {
    var s := Join(parts, ".");
    SplitJoin(parts, '.');
    assert s != "" by {
      assert ParseOctet(parts[0]).Some?;
      assert s == parts[0] + "." + Join(parts[1..], ".");
    }
  }

  /** "0.0.0.0" is the address 0. */
  lemma ParseZeroAddress(z: string)
    requires z == "0.0.0.0"
    ensures ParseAddress(z) == Some(0)
    ensures IsStripped(z) && '/' !in z && ',' !in z
  {
    ZeroAddressText(z);
    assert NatToString(0) == "0";
    assert Octets(0) == [0, 0, 0, 0];
    assert Format(0) == Join(["0", "0", "0", "0"], ".");
    JoinZeros();
    ParseFormat(0);
  }

  lemma JoinZeros()
    ensures Join(["0", "0", "0", "0"], ".") == "0.0.0.0"
  {
    var ps := ["0", "0", "0", "0"];
    assert ps[1..] == ["0", "0", "0"] && ps[1..][1..] == ["0", "0"] && ps[1..][1..][1..] == ["0"];
  }

  lemma ZeroAddressText(z: string)
    requires z == "0.0.0.0"
    ensures IsStripped(z) && '/' !in z && ',' !in z
  {
    assert z[0] == '0' && z[|z| - 1] == '0';
  }

  // ---------------------------------------------------------------------------
  // netmasks

  /** The netmask of prefix length `p`: `p` one bits followed by `32 - p` zero bits. */
  function MaskValue(p: nat): nat
    requires p <= 32
  {
    Pow2Bounds(32 - p);
    Pow2(32) - Pow2(32 - p)
  }

  /** The prefix length whose netmask is `v`, searching from `p` up. */
  function MaskPrefixFrom(v: nat, p: nat): (r: Option<nat>)
    requires p <= 33
    ensures r.Some? ==> p <= r.value <= 32 && MaskValue(r.value) == v
    ensures r.None? ==> forall q :: p <= q <= 32 ==> MaskValue(q) != v
    decreases 33 - p
  {
    if p > 32 then None
    else if MaskValue(p) == v then Some(p)
    else MaskPrefixFrom(v, p + 1)
  }

  /** `_prefix_from_ip_string`: a dotted netmask, else a dotted hostmask (the netmask with
      every bit inverted); None where it raises. */
  function PrefixFromDottedMask(s: string): (r: Option<nat>)
    ensures r.Some? ==> r.value <= 32
  {
    match ParseAddress(s)
    case None => None
    case Some(v) =>
      match MaskPrefixFrom(v, 0)
      case Some(p) => Some(p)
      case None => MaskPrefixFrom(AllOnes - v, 0)
  }

  /** `_make_netmask` on the text after '/': a decimal prefix length up to 32, and
      otherwise a dotted netmask or hostmask. */
  function ParsePrefixLength(s: string): (r: Option<nat>)
    ensures r.Some? ==> r.value <= 32
  {
    if s != "" && AllDigits(s) && DigitsValue(s) <= 32 then Some(DigitsValue(s))
    else PrefixFromDottedMask(s)
  }

  // ---------------------------------------------------------------------------
  // networks

  datatype Network = Network(networkAddress: Address, prefixLen: nat)

  /** `x` with its `k` lowest bits cleared. */
  function ClearLow(x: nat, k: nat): (b: nat)
    ensures b <= x && x - b < Pow2(k)
  {
    if k == 0 then x else 2 * ClearLow(x / 2, k - 1)
  }

  /** `x & netmask` for prefix length `p`: the first address of the block that holds `x`. */
  function Base(x: Address, p: nat): (b: Address)
    requires p <= 32
    ensures b <= x && x - b < Pow2(32 - p)
  {
    ClearLow(x, 32 - p)
  }

  /** `ipaddress.ip_network(s, strict=False)`: address, at most one '/', then the mask;
      host bits set in the address are cleared rather than rejected. */
  function ParseNetwork(s: string): (r: Option<Network>)
    ensures r.Some? ==> r.value.prefixLen <= 32
    ensures r.Some? ==> r.value.networkAddress == Base(r.value.networkAddress, r.value.prefixLen)
  {
    var parts := Split(s, '/');
    if |parts| > 2 then None
    else
      var prefix := if |parts| == 2 then ParsePrefixLength(parts[1]) else Some(32);
      match (ParseAddress(parts[0]), prefix)
      case (Some(a), Some(p)) =>
        BaseIdempotent(a, p);
        Some(Network(Base(a, p), p))
      case _ => None
  }

  /** `x in network`: `x & netmask == network_address`. */
  predicate InNetwork(x: Address, n: Network)
    requires n.prefixLen <= 32
  {
    Base(x, n.prefixLen) == n.networkAddress
  }

  lemma {:induction false} ClearLowIdempotent(x: nat, k: nat)
    ensures ClearLow(ClearLow(x, k), k) == ClearLow(x, k)
  {
    if k > 0 {
      ClearLowIdempotent(x / 2, k - 1);
      assert ClearLow(x, k) / 2 == ClearLow(x / 2, k - 1);
    }
  }

  lemma {:induction false} ClearLowSmall(x: nat, k: nat)
    requires x < Pow2(k)
    ensures ClearLow(x, k) == 0
  {
    if k > 0 {
      ClearLowSmall(x / 2, k - 1);
    }
  }

  lemma BaseIdempotent(x: Address, p: nat)
    requires p <= 32
    ensures Base(Base(x, p), p) == Base(x, p)
  {
    ClearLowIdempotent(x, 32 - p);
  }

  /** A /32 network holds exactly its own address. */
  lemma FullPrefixIsSingleAddress(x: Address, n: Network)
    requires n.prefixLen == 32
    ensures InNetwork(x, n) <==> x == n.networkAddress
  {
  }

  /** A /0 network holds every address. */
  lemma ZeroPrefixHoldsAll(x: Address, a: Address)
    ensures InNetwork(x, Network(Base(a, 0), 0))
  {
    Pow2Bounds(0);
    ClearLowSmall(x, 32);
    ClearLowSmall(a, 32);
  }

  /** Host bits of the written address do not matter: two addresses in the same block
      give the same network, with the same members. */
  lemma HostBitsIgnored(a1: Address, a2: Address, p: nat, x: Address)
    requires p <= 32 && Base(a1, p) == Base(a2, p)
    ensures InNetwork(x, Network(Base(a1, p), p)) <==> InNetwork(x, Network(Base(a2, p), p))
  {
  }

  /** The network a written address belongs to holds that address. */
  lemma NetworkHoldsItsAddress(a: Address, p: nat)
    requires p <= 32
    ensures InNetwork(a, Network(Base(a, p), p))
  {
  }
}
