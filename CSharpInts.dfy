/**
 * The C# integer semantics the exporter relies on: unchecked 32-bit
 * arithmetic, the `(short)` cast, division that truncates toward zero,
 * and the little-endian bytes `BinaryWriter.Write` emits for `int`,
 * `uint` and `short`.
 */
module CSharpInts {
  import opened Bytes

  predicate IsInt32(x: int) { -0x8000_0000 <= x < 0x8000_0000 }
  predicate IsUInt32(x: int) { 0 <= x < TwoTo32 }
  predicate IsInt16(x: int) { -0x8000 <= x < 0x8000 }

  /** An unchecked `int` result: the int32 congruent to x modulo 2^32. */
  function WrapInt32(x: int): (r: int)
    ensures IsInt32(r) && (x - r) % TwoTo32 == 0
    ensures IsInt32(x) ==> r == x
  {
    (x + 0x8000_0000) % TwoTo32 - 0x8000_0000
  }

  /** The `(short)` cast: the int16 congruent to x modulo 2^16. */
  function ToInt16(x: int): (r: int)
    ensures IsInt16(r) && (x - r) % TwoTo16 == 0
    ensures IsInt16(x) ==> r == x
  {
    (x + 0x8000) % TwoTo16 - 0x8000
  }

  /** An unchecked `uint` result. */
  function WrapUInt32(x: int): (r: int)
    ensures IsUInt32(r) && (x - r) % TwoTo32 == 0
    ensures IsUInt32(x) ==> r == x
  {
    x % TwoTo32
  }

  /** C#'s `/` on integers: the magnitude is floored and the sign follows the dividend. */
  function Div(a: int, b: int): (r: int)
    requires b > 0
    ensures a >= 0 ==> 0 <= r && r * b <= a < r * b + b
    ensures a < 0 ==> r <= 0 && r * b - b < a <= r * b
  {
    var m := if a >= 0 then a else -a;
    var q := m / b;
    assert q * b + m % b == m && 0 <= m % b < b;
    if a >= 0 then q else -q
  }

  /** `BinaryWriter.Write(int)`: four bytes of the two's-complement value. */
  function Int32Bytes(x: int): (r: seq<byte>)
    requires IsInt32(x)
  {
    LE32(x % TwoTo32)
  }

  /** `BinaryWriter.Write(uint)`. */
  function UInt32Bytes(x: int): (r: seq<byte>)
    requires IsUInt32(x)
  {
    LE32(x)
  }

  /** `BinaryWriter.Write(short)`: two bytes of the two's-complement value. */
  function Int16Bytes(x: int): (r: seq<byte>)
    requires IsInt16(x)
  {
    LE16(x % TwoTo16)
  }

  /** Writing `(short)x` stores x modulo 2^16, whatever x was. */
  lemma Int16BytesOfCast(x: int)
    ensures Int16Bytes(ToInt16(x)) == LE16(x % TwoTo16)
  {
    var r := ToInt16(x);
    assert (x - r) % TwoTo16 == 0;
    assert r % TwoTo16 == x % TwoTo16;
  }

  /** An unsigned reader recovers a non-negative int32 exactly. */
  lemma Int32BytesRead(x: int)
    requires IsInt32(x)
    ensures |Int32Bytes(x)| == 4 && U32(Int32Bytes(x), 0) == x % TwoTo32
    ensures x >= 0 ==> U32(Int32Bytes(x), 0) == x
  {
    DecodeLE32(x % TwoTo32);
  }
}
