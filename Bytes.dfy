/**
 * Bytes as they appear in files and streams, little-endian layouts of
 * unsigned integers, and ASCII tags.
 */
module Bytes {

  type byte = b: int | 0 <= b < 256

  const TwoTo16: int := 0x1_0000
  const TwoTo32: int := 0x1_0000_0000

  /** The bytes of an ASCII string, one per character (what a UTF-8 encoder yields for ASCII). */
  function Ascii(s: string): (r: seq<byte>)
    requires forall i :: 0 <= i < |s| ==> s[i] as int < 128
    ensures |r| == |s|
    ensures forall i :: 0 <= i < |s| ==> r[i] == s[i] as int
  {
    seq(|s|, i requires 0 <= i < |s| => s[i] as int)
  }

  /** Two bytes, least significant first. */
  function LE16(x: int): (r: seq<byte>)
    requires 0 <= x < TwoTo16
  {
    [x % 256, x / 256]
  }

  /** Four bytes, least significant first. */
  function LE32(x: int): (r: seq<byte>)
    requires 0 <= x < TwoTo32
  {
    LE16(x % TwoTo16) + LE16(x / TwoTo16)
  }

  /** The unsigned 16-bit value stored little-endian at s[i], s[i+1]. */
  function U16(s: seq<byte>, i: nat): (v: int)
    requires i + 2 <= |s|
    ensures 0 <= v < TwoTo16
  {
    s[i] as int + 256 * (s[i + 1] as int)
  }

  /** The unsigned 32-bit value stored little-endian at s[i..i+4]. */
  function U32(s: seq<byte>, i: nat): (v: int)
    requires i + 4 <= |s|
    ensures 0 <= v < TwoTo32
  {
    U16(s, i) + TwoTo16 * U16(s, i + 2)
  }

  /** Reading back two written bytes gives the value, and the encoding is two bytes long. */
  lemma DecodeLE16(x: int)
    requires 0 <= x < TwoTo16
    ensures |LE16(x)| == 2 && U16(LE16(x), 0) == x
  {
  }

  /** Reading back four written bytes gives the value. */
  lemma DecodeLE32(x: int)
    requires 0 <= x < TwoTo32
    ensures |LE32(x)| == 4 && U32(LE32(x), 0) == x
  {
    var lo, hi := x % TwoTo16, x / TwoTo16;
    DecodeLE16(lo);
    DecodeLE16(hi);
    assert LE32(x)[..2] == LE16(lo);
    assert LE32(x)[2..] == LE16(hi);
    assert U16(LE32(x), 0) == lo;
    assert U16(LE32(x), 2) == hi;
  }

  /** Every two bytes are the encoding of the value they hold. */
  lemma EncodeU16(s: seq<byte>, i: nat)
    requires i + 2 <= |s|
    ensures LE16(U16(s, i)) == s[i..i + 2]
  {
  }

  /** Every four bytes are the encoding of the value they hold. */
  lemma EncodeU32(s: seq<byte>, i: nat)
    requires i + 4 <= |s|
    ensures LE32(U32(s, i)) == s[i..i + 4]
  {
    var lo, hi := U16(s, i), U16(s, i + 2);
    var v := U32(s, i);
    assert v % TwoTo16 == lo && v / TwoTo16 == hi;
    EncodeU16(s, i);
    EncodeU16(s, i + 2);
    assert s[i..i + 4] == s[i..i + 2] + s[i + 2..i + 4];
  }

  /** A value read at offset i depends only on the bytes there. */
  lemma U32Local(s: seq<byte>, i: nat, t: seq<byte>, j: nat)
    requires i + 4 <= |s| && j + 4 <= |t| && s[i..i + 4] == t[j..j + 4]
    ensures U32(s, i) == U32(t, j)
  {
    assert s[i] == s[i..i + 4][0] && s[i + 1] == s[i..i + 4][1];
    assert s[i + 2] == s[i..i + 4][2] && s[i + 3] == s[i..i + 4][3];
  }

  /** A value read at offset i depends only on the bytes there. */
  lemma U16Local(s: seq<byte>, i: nat, t: seq<byte>, j: nat)
    requires i + 2 <= |s| && j + 2 <= |t| && s[i..i + 2] == t[j..j + 2]
    ensures U16(s, i) == U16(t, j)
  {
    assert s[i] == s[i..i + 2][0] && s[i + 1] == s[i..i + 2][1];
  }
}
