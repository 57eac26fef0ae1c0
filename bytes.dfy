/**
 * Big-endian byte strings, the layout in which a Netty ByteBuf writes a short
 * (writeShort) and reads a long (getLong) in the dispatcher of DcpChannel.
 */
module Bytes {

  /** An octet. */
  type Byte = x: int | 0 <= x < 256

  /** 256 to the power n: how many distinct values n bytes can hold. */
  function Pow256(n: nat): (r: nat)
    ensures r > 0
  {
    if n == 0 then 1 else 256 * Pow256(n - 1)
  }

  /** The unsigned value of a big-endian byte string (most significant byte first). */
  function FromBigEndian(s: seq<Byte>): (v: nat)
    ensures v < Pow256(|s|)
    decreases |s|
  {
    if s == [] then 0 else FromBigEndian(s[..|s| - 1]) * 256 + s[|s| - 1]
  }

  /** The n-byte big-endian representation of v. */
  function ToBigEndian(v: nat, n: nat): (s: seq<Byte>)
    requires v < Pow256(n)
    ensures |s| == n
  {
    if n == 0 then [] else ToBigEndian(v / 256, n - 1) + [(v % 256) as Byte]
  }

  /** Appending a byte shifts the value up by eight bits and adds the byte. */
  lemma FromBigEndianSnoc(p: seq<Byte>, b: Byte)
    ensures FromBigEndian(p + [b]) == FromBigEndian(p) * 256 + b
  {
    assert (p + [b])[..|p|] == p;
  }

  /** Dropping the last byte of a value below 256^(n+1) leaves one below 256^n. */
  lemma QuotientBound(v: nat, n: nat)
    requires v < Pow256(n + 1)
    ensures v / 256 < Pow256(n) && v == v / 256 * 256 + v % 256
  {
  }

  /** Decoding what was encoded gives the value back. */
  lemma {:induction false} FromToBigEndian(v: nat, n: nat)
    requires v < Pow256(n)
    ensures FromBigEndian(ToBigEndian(v, n)) == v
  {
    if n > 0 {
      var q, r := v / 256, v % 256;
      QuotientBound(v, n - 1);
      FromToBigEndian(q, n - 1);
      FromBigEndianSnoc(ToBigEndian(q, n - 1), r);
    }
  }

  /** Encoding what was decoded gives the bytes back. */
  lemma {:induction false} ToFromBigEndian(s: seq<Byte>)
    ensures ToBigEndian(FromBigEndian(s), |s|) == s
  {
    if s != [] {
      var p := s[..|s| - 1];
      var v := FromBigEndian(s);
      ToFromBigEndian(p);
      assert v / 256 == FromBigEndian(p);
      assert v % 256 == s[|s| - 1];
      assert s == p + [s[|s| - 1]];
    }
  }

  /**
   * The two bytes ByteBuf.writeShort appends for the Java value v: its low
   * 16 bits, most significant byte first.
   */
  function ShortBytes(v: int): (s: seq<Byte>)
    ensures |s| == 2 && FromBigEndian(s) == v % 0x1_0000
  {
    assert Pow256(2) == 0x1_0000;
    FromToBigEndian(v % 0x1_0000, 2);
    ToBigEndian(v % 0x1_0000, 2)
  }

  /**
   * ByteBuf.getLong(0): the 64-bit big-endian value of the first eight bytes,
   * as its unsigned bit pattern.
   */
  function LongAt0(content: seq<Byte>): (v: nat)
    requires |content| >= 8
    ensures v < 0x1_0000_0000_0000_0000
    ensures ToBigEndian(v, 8) == content[..8]
  {
    assert Pow256(8) == 0x1_0000_0000_0000_0000;
    ToFromBigEndian(content[..8]);
    FromBigEndian(content[..8])
  }
}
