/** URL-safe base64 (section 5 of RFC 4648) with '=' padding, as
    `base64.urlsafe_b64encode` produces it. */
module Base64Url {
  import opened Wrappers

  type Byte = x: nat | x < 256

  /** The characters of the URL-safe alphabet. */
  predicate IsUrlSafe(c: char) {
    ('A' <= c <= 'Z') || ('a' <= c <= 'z') || ('0' <= c <= '9') || c == '-' || c == '_'
  }

  /** The character for a six-bit value. */
  function Sextet(v: nat): (c: char)
    requires v < 64
    ensures IsUrlSafe(c)
  {
    if v < 26 then 'A' + v as char
    else if v < 52 then 'a' + (v - 26) as char
    else if v < 62 then '0' + (v - 52) as char
    else if v == 62 then '-'
    else '_'
  }

  /** The six-bit value of an alphabet character. */
  function SextetValue(c: char): (v: nat)
    requires IsUrlSafe(c)
    ensures v < 64
  {
    if 'A' <= c <= 'Z' then (c - 'A') as nat
    else if 'a' <= c <= 'z' then (c - 'a') as nat + 26
    else if '0' <= c <= '9' then (c - '0') as nat + 52
    else if c == '-' then 62
    else 63
  }

  lemma SextetRoundTrip(v: nat)
    requires v < 64
    ensures SextetValue(Sextet(v)) == v
  {
  }

  /** The four characters of a full group of three bytes. */
  function Group(x: Byte, y: Byte, z: Byte): (s: string)
    ensures |s| == 4 && IsUrlSafe(s[0]) && IsUrlSafe(s[1]) && IsUrlSafe(s[2]) && IsUrlSafe(s[3])
  {
    [Sextet(x / 4), Sextet(x % 4 * 16 + y / 16), Sextet(y % 16 * 4 + z / 64), Sextet(z % 64)]
  }

  /** A final group of one byte: two characters and two '='. */
  function LastOne(x: Byte): (s: string)
    ensures |s| == 4 && IsUrlSafe(s[0]) && IsUrlSafe(s[1]) && s[2] == '=' && s[3] == '='
  {
    [Sextet(x / 4), Sextet(x % 4 * 16), '=', '=']
  }

  /** A final group of two bytes: three characters and one '='. */
  function LastTwo(x: Byte, y: Byte): (s: string)
    ensures |s| == 4 && IsUrlSafe(s[0]) && IsUrlSafe(s[1]) && IsUrlSafe(s[2]) && s[3] == '='
  {
    [Sextet(x / 4), Sextet(x % 4 * 16 + y / 16), Sextet(y % 16 * 4), '=']
  }

  /** Each group of three bytes becomes four characters; a final group of one or two bytes
      becomes two or three characters and '=' padding. */
  function Encode(b: seq<Byte>): (s: string)
    ensures |s| == 4 * ((|b| + 2) / 3)
    ensures forall i :: 0 <= i < |s| ==> IsUrlSafe(s[i]) || s[i] == '='
    decreases |b|
  {
    if |b| == 0 then ""
    else if |b| == 1 then LastOne(b[0])
    else if |b| == 2 then LastTwo(b[0], b[1])
    else
      var g, rest := Group(b[0], b[1], b[2]), Encode(b[3..]);
      assert (|b| + 2) / 3 == (|b| - 3 + 2) / 3 + 1;
      assert forall i :: 4 <= i < 4 + |rest| ==> (g + rest)[i] == rest[i - 4];
      g + rest
  }

  /** The three bytes four alphabet characters stand for. */
  function DecodeQuad(c0: char, c1: char, c2: char, c3: char): seq<nat>
    requires IsUrlSafe(c0) && IsUrlSafe(c1) && IsUrlSafe(c2) && IsUrlSafe(c3)
  {
    var v0, v1, v2, v3 := SextetValue(c0), SextetValue(c1), SextetValue(c2), SextetValue(c3);
    [v0 * 4 + v1 / 16, v1 % 16 * 16 + v2 / 4, v2 % 4 * 64 + v3]
  }

  /** The final group: '=' padding marks one or two missing bytes. */
  function DecodeLast(c0: char, c1: char, c2: char, c3: char): Option<seq<nat>> {
    if !IsUrlSafe(c0) || !IsUrlSafe(c1) then None
    else if c2 == '=' && c3 == '=' then Some([SextetValue(c0) * 4 + SextetValue(c1) / 16])
    else if !IsUrlSafe(c2) then None
    else if c3 == '=' then
      Some([SextetValue(c0) * 4 + SextetValue(c1) / 16, SextetValue(c1) % 16 * 16 + SextetValue(c2) / 4])
    else if IsUrlSafe(c3) then Some(DecodeQuad(c0, c1, c2, c3))
    else None
  }

  /** Decoding: groups of four characters, padding only in the last group; None for
      anything else. */
  function Decode(s: string): Option<seq<nat>>
    decreases |s|
  {
    if s == [] then Some([])
    else if |s| < 4 then None
    else if |s| == 4 then DecodeLast(s[0], s[1], s[2], s[3])
    else if IsUrlSafe(s[0]) && IsUrlSafe(s[1]) && IsUrlSafe(s[2]) && IsUrlSafe(s[3]) then
      match Decode(s[4..])
      case None => None
      case Some(rest) => Some(DecodeQuad(s[0], s[1], s[2], s[3]) + rest)
    else None
  }

  lemma QuadRoundTrip(a: Byte, b: Byte, c: Byte)
    ensures var g := Group(a, b, c);
            DecodeQuad(g[0], g[1], g[2], g[3]) == [a, b, c]
  {
    var v0, v1, v2, v3 := a / 4, a % 4 * 16 + b / 16, b % 16 * 4 + c / 64, c % 64;
    SextetRoundTrip(v0);
    SextetRoundTrip(v1);
    SextetRoundTrip(v2);
    SextetRoundTrip(v3);
    FirstByteSplit(a, b);
    SecondByteSplit(a, b, c);
    ThirdByteSplit(b, c);
  }

  /** The first byte is the first sextet and the top two bits of the second. */
  lemma FirstByteSplit(a: Byte, b: Byte)
    ensures a / 4 * 4 + (a % 4 * 16 + b / 16) / 16 == a
  {
    assert b / 16 < 16;
    assert (a % 4 * 16 + b / 16) / 16 == a % 4;
  }

  /** The second byte is the low four bits of the second sextet and the top four of the
      third. */
  lemma SecondByteSplit(a: Byte, b: Byte, c: Byte)
    ensures (a % 4 * 16 + b / 16) % 16 * 16 + (b % 16 * 4 + c / 64) / 4 == b
  {
    assert b / 16 < 16 && c / 64 < 4;
    assert (a % 4 * 16 + b / 16) % 16 == b / 16;
    assert (b % 16 * 4 + c / 64) / 4 == b % 16;
  }

  /** The third byte is the low two bits of the third sextet and the fourth. */
  lemma ThirdByteSplit(b: Byte, c: Byte)
    ensures (b % 16 * 4 + c / 64) % 4 * 64 + c % 64 == c
  {
    assert c / 64 < 4;
    assert (b % 16 * 4 + c / 64) % 4 == c / 64;
  }

  lemma OneByteRoundTrip(a: Byte)
    ensures var g := LastOne(a);
            DecodeLast(g[0], g[1], g[2], g[3]) == Some([a as nat])
  {
    SextetRoundTrip(a / 4);
    SextetRoundTrip(a % 4 * 16);
    FirstByteSplit(a, 0);
  }

  lemma TwoBytesRoundTrip(a: Byte, b: Byte)
    ensures var g := LastTwo(a, b);
            DecodeLast(g[0], g[1], g[2], g[3]) == Some([a as nat, b as nat])
  {
    SextetRoundTrip(a / 4);
    SextetRoundTrip(a % 4 * 16 + b / 16);
    SextetRoundTrip(b % 16 * 4);
    FirstByteSplit(a, b);
    SecondByteSplit(a, b, 0);
  }

  /** A text of exactly four characters is decoded as the final group. */
  lemma DecodeFour(s: string)
    requires |s| == 4
    ensures Decode(s) == DecodeLast(s[0], s[1], s[2], s[3])
  {
  }

  lemma OneByteDecodes(b: seq<Byte>)
    requires |b| == 1
    ensures Decode(Encode(b)) == Some(b)
  {
    OneByteRoundTrip(b[0]);
    DecodeFour(LastOne(b[0]));
    assert b == [b[0]];
  }

  lemma TwoBytesDecode(b: seq<Byte>)
    requires |b| == 2
    ensures Decode(Encode(b)) == Some(b)
  {
    TwoBytesRoundTrip(b[0], b[1]);
    DecodeFour(LastTwo(b[0], b[1]));
    assert b == [b[0], b[1]];
  }

  /** The encoding of three bytes and more: one full group in front. */
  lemma EncodeGroup(b: seq<Byte>)
    requires |b| >= 3
    ensures Encode(b) == Group(b[0], b[1], b[2]) + Encode(b[3..])
  {
  }

  /** A non-empty byte string encodes to at least one group. */
  lemma EncodeNonEmpty(b: seq<Byte>)
    requires |b| > 0
    ensures |Encode(b)| >= 4
  {
    assert (|b| + 2) / 3 >= 1;
  }

  /** Four alphabet characters in front of a decodable text of at least one group. */
  lemma DecodePrepend(head: string, rest: string, r: seq<nat>)
    requires |head| == 4 && IsUrlSafe(head[0]) && IsUrlSafe(head[1]) && IsUrlSafe(head[2]) && IsUrlSafe(head[3])
    requires |rest| >= 4 && Decode(rest) == Some(r)
    ensures Decode(head + rest) == Some(DecodeQuad(head[0], head[1], head[2], head[3]) + r)
  {
    var s := head + rest;
    assert s[4..] == rest;
    assert s[0] == head[0] && s[1] == head[1] && s[2] == head[2] && s[3] == head[3];
  }

  /** The four characters of a full group read back as its three bytes. */
  lemma GroupBytes(b: seq<Byte>)
    requires |b| >= 3
    ensures var g := Group(b[0], b[1], b[2]);
            DecodeQuad(g[0], g[1], g[2], g[3]) == b[..3]
  {
    QuadRoundTrip(b[0], b[1], b[2]);
    assert b[..3] == [b[0], b[1], b[2]];
  }

  lemma ThreeBytesDecode(b: seq<Byte>)
    requires |b| == 3
    ensures Decode(Encode(b)) == Some(b)
  {
    var g := Group(b[0], b[1], b[2]);
    EncodeGroup(b);
    assert b[3..] == [];
    assert Encode(b) == g;
    GroupBytes(b);
    assert b[..3] == b;
    DecodeFour(g);
  }

  /** One group of three bytes in front of an encoding that reads back. */
  lemma GroupDecodes(b: seq<Byte>)
    requires |b| > 3
    requires Decode(Encode(b[3..])) == Some(b[3..])
    ensures Decode(Encode(b)) == Some(b)
  {
    EncodeGroup(b);
    GroupBytes(b);
    EncodeNonEmpty(b[3..]);
    GlueGroup(b, Group(b[0], b[1], b[2]), Encode(b[3..]));
  }

  /** A full group's characters in front of the rest's encoding read back as the whole. */
  lemma GlueGroup(b: seq<Byte>, head: string, e: string)
    requires |b| > 3 && |head| == 4 && |e| >= 4
    requires IsUrlSafe(head[0]) && IsUrlSafe(head[1]) && IsUrlSafe(head[2]) && IsUrlSafe(head[3])
    requires DecodeQuad(head[0], head[1], head[2], head[3]) == b[..3]
    requires Decode(e) == Some(b[3..])
    ensures Decode(head + e) == Some(b)
  {
    DecodePrepend(head, e, b[3..]);
    assert b[..3] + b[3..] == b;
  }

  /** Every byte string reads back from its encoding. */
  lemma {:induction false} EncodeRoundTrip(b: seq<Byte>)
    ensures Decode(Encode(b)) == Some(b)
    decreases |b|
  {
    if |b| == 1 {
      OneByteDecodes(b);
    } else if |b| == 2 {
      TwoBytesDecode(b);
    } else if |b| == 3 {
      ThreeBytesDecode(b);
    } else if |b| > 3 {
      EncodeRoundTrip(b[3..]);
      GroupDecodes(b);
    }
  }
}
