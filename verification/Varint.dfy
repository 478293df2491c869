/** Variable-length integers, section 16 of RFC 9000. */
module Varints {
  import opened Basics

  /** Integers from here on have no encoding: 2^62. */
  const LIMIT: nat := 0x4000_0000_0000_0000

  /** The length of the shortest encoding. */
  function Len(v: nat): (n: nat)
    requires v < LIMIT
  {
    if v < 0x40 then 1 else if v < 0x4000 then 2 else if v < 0x4000_0000 then 4 else 8
  }

  function Pow256(n: nat): (p: nat)
    ensures p > 0
  {
    if n == 0 then 1 else 256 * Pow256(n - 1)
  }

  /** v in n bytes, most significant first. */
  function BigEndian(v: nat, n: nat): (s: seq<byte>)
    ensures |s| == n
  {
    if n == 0 then [] else BigEndian(v / 256, n - 1) + [v % 256]
  }

  function FromBigEndian(s: seq<byte>): nat {
    if s == [] then 0 else 256 * FromBigEndian(s[..|s| - 1]) + s[|s| - 1]
  }

  lemma {:induction false} BigEndianRoundTrip(v: nat, n: nat)
    requires v < Pow256(n)
    ensures FromBigEndian(BigEndian(v, n)) == v
  {
    if n > 0 {
      BigEndianRoundTrip(v / 256, n - 1);
      assert BigEndian(v, n)[..n - 1] == BigEndian(v / 256, n - 1);
    }
  }

  /** The two top bits of the first byte say how long an encoding is. */
  function LengthTag(n: nat): byte
    requires n in {1, 2, 4, 8}
  {
    if n == 1 then 0 else if n == 2 then 1 else if n == 4 then 2 else 3
  }

  function TaggedLength(first: byte): (n: nat)
    ensures n in {1, 2, 4, 8}
  {
    if first < 0x40 then 1 else if first < 0x80 then 2 else if first < 0xc0 then 4 else 8
  }

  lemma Powers()
    ensures Pow256(0) == 1 && Pow256(1) == 0x100 && Pow256(3) == 0x100_0000 && Pow256(7) == 0x100_0000_0000_0000
  {
    assert Pow256(2) == 0x1_0000;
    assert Pow256(4) == 0x1_0000_0000;
    assert Pow256(5) == 0x100_0000_0000;
    assert Pow256(6) == 0x1_0000_0000_0000;
  }

  function Encode(v: nat): (s: seq<byte>)
    requires v < LIMIT
    ensures |s| == Len(v)
  {
    var n := Len(v);
    Powers();
    [64 * LengthTag(n) + v / Pow256(n - 1)] + BigEndian(v % Pow256(n - 1), n - 1)
  }

  /** The integer at the start of s, and the length of its encoding; None if s is cut short. */
  function Decode(s: seq<byte>): (r: Option<(nat, nat)>)
    ensures r.Some? ==> 1 <= r.value.1 <= |s|
  {
    if s == [] || |s| < TaggedLength(s[0]) then None
    else
      var n := TaggedLength(s[0]);
      Some((s[0] % 64 * Pow256(n - 1) + FromBigEndian(s[1..n]), n))
  }

  lemma FromBigEndianBound(s: seq<byte>)
    ensures FromBigEndian(s) < Pow256(|s|)
  {
  }

  /** Every decoded integer fits in 62 bits. */
  lemma DecodeBound(s: seq<byte>)
    ensures Decode(s).Some? ==> Decode(s).value.0 < LIMIT
  {
    if Decode(s).Some? {
      Powers();
      var n := TaggedLength(s[0]);
      FromBigEndianBound(s[1..n]);
      assert s[0] % 64 <= 63;
    }
  }

  /** The first byte holds the length and the most significant bits; the rest follow. */
  lemma {:induction false} EncodeParts(v: nat)
    requires v < LIMIT
    ensures var n, s := Len(v), Encode(v);
      var p := Pow256(n - 1);
      && TaggedLength(s[0]) == n && s[0] % 64 * p + v % p == v
      && v % p < p && s[1..] == BigEndian(v % p, n - 1)
  {
    Powers();
    hide BigEndian;
    var n, s := Len(v), Encode(v);
    if n == 1 {
      assert s[0] % 64 * 1 + v % 1 == v;
    } else if n == 2 {
      assert s[0] % 64 * 0x100 + v % 0x100 == v;
    } else if n == 4 {
      assert s[0] % 64 * 0x100_0000 + v % 0x100_0000 == v;
    } else {
      assert s[0] % 64 * 0x100_0000_0000_0000 + v % 0x100_0000_0000_0000 == v;
    }
  }

  /** Decoding takes back what encoding wrote, whatever follows. */
  lemma {:induction false} RoundTrip(v: nat, rest: seq<byte>)
    requires v < LIMIT
    ensures Decode(Encode(v) + rest) == Some((v, Len(v)))
  {
    EncodeParts(v);
    hide Len, TaggedLength, Encode, Pow256, BigEndian, FromBigEndian;
    var n, e := Len(v), Encode(v);
    var p, s := Pow256(n - 1), e + rest;
    assert s[0] == e[0] && s[1..n] == e[1..];
    BigEndianRoundTrip(v % p, n - 1);
  }

  /** No encoding of v, in any of the four lengths, is shorter than the one Encode chooses. */
  lemma Shortest(s: seq<byte>)
    requires Decode(s).Some?
    ensures Decode(s).value.0 < LIMIT && Len(Decode(s).value.0) <= Decode(s).value.1
  {
    Powers();
    DecodeBound(s);
    var n := TaggedLength(s[0]);
    FromBigEndianBound(s[1..n]);
  }
}
