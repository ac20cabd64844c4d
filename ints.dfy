/** Fixed-width integer types of the C# source, as ranges of unbounded integers,
    and the two's-complement operations the model needs on them. */
module Ints {

  type int8 = x: int | -0x80 <= x < 0x80
  type uint8 = x: int | 0 <= x < 0x100
  type int16 = x: int | -0x8000 <= x < 0x8000
  type uint16 = x: int | 0 <= x < 0x1_0000
  type int32 = x: int | -0x8000_0000 <= x < 0x8000_0000
  type uint32 = x: int | 0 <= x < 0x1_0000_0000
  type int64 = x: int | -0x8000_0000_0000_0000 <= x < 0x8000_0000_0000_0000

  const MinInt32: int32 := -0x8000_0000
  const MaxInt32: int32 := 0x7FFF_FFFF

  /** x is representable as an Int32. */
  predicate InInt32(x: int) {
    -0x8000_0000 <= x < 0x8000_0000
  }

  /** 2 to the power n. */
  function Pow2(n: nat): (r: nat)
    ensures r >= 1
  {
    if n == 0 then 1 else 2 * Pow2(n - 1)
  }

  lemma {:induction false} Pow2Add(a: nat, b: nat)
    ensures Pow2(a + b) == Pow2(a) * Pow2(b)
  {
    if a > 0 {
      Pow2Add(a - 1, b);
    }
  }

  lemma {:induction false} Pow2Monotone(a: nat, b: nat)
    requires a <= b
    ensures Pow2(a) <= Pow2(b)
  {
    if a < b {
      Pow2Monotone(a, b - 1);
    }
  }

  /** The powers of two the model mentions by value. */
  lemma Pow2Values()
    ensures Pow2(1) == 2 && Pow2(2) == 4 && Pow2(4) == 16 && Pow2(8) == 0x100
    ensures Pow2(13) == 0x2000 && Pow2(14) == 0x4000 && Pow2(15) == 0x8000
    ensures Pow2(16) == 0x1_0000 && Pow2(21) == 0x20_0000 && Pow2(23) == 0x80_0000
    ensures Pow2(24) == 0x100_0000 && Pow2(30) == 0x4000_0000 && Pow2(31) == 0x8000_0000
    ensures Pow2(32) == 0x1_0000_0000
  {
    assert Pow2(1) == 2;
    assert Pow2(2) == 4;
    Pow2Add(2, 2);
    Pow2Add(4, 4);
    Pow2Add(8, 4);
    Pow2Add(8, 8);
    Pow2Add(16, 4);
    Pow2Add(20, 1);
    Pow2Add(20, 2);
    Pow2Add(22, 1);
    Pow2Add(16, 8);
    Pow2Add(16, 14);
    Pow2Add(16, 15);
    Pow2Add(16, 16);
    assert Pow2(13) == 2 * Pow2(12);
    assert Pow2(14) == 2 * Pow2(13);
    assert Pow2(15) == 2 * Pow2(14);
  }

  lemma MulMonotone(a: nat, b: nat, c: nat)
    requires a <= b
    ensures a * c <= b * c
  {
  }

  lemma MulMonotoneStrict(a: nat, b: nat, c: nat)
    requires a < b && c >= 1
    ensures a * c < b * c
  {
  }

  /** The unchecked cast (sbyte)x: the low 8 bits read as two's complement. */
  function ToInt8(x: int): (r: int8)
    ensures (r - x) % 0x100 == 0
    ensures -0x80 <= x < 0x80 ==> r == x
  {
    var m := x % 0x100;
    if m >= 0x80 then m - 0x100 else m
  }

  /** The unchecked cast (short)x: the low 16 bits read as two's complement. */
  function ToInt16(x: int): (r: int16)
    ensures (r - x) % 0x1_0000 == 0
    ensures -0x8000 <= x < 0x8000 ==> r == x
  {
    var m := x % 0x1_0000;
    if m >= 0x8000 then m - 0x1_0000 else m
  }

  /** The unchecked cast (int)x: the low 32 bits read as two's complement. */
  function ToInt32(x: int): (r: int32)
    ensures (r - x) % 0x1_0000_0000 == 0
    ensures -0x8000_0000 <= x < 0x8000_0000 ==> r == x
  {
    var m := x % 0x1_0000_0000;
    if m >= 0x8000_0000 then m - 0x1_0000_0000 else m
  }

  /** Int32 addition in an unchecked C# context: wraps around. */
  function AddInt32(a: int32, b: int32): (r: int32)
    ensures -0x8000_0000 <= a + b < 0x8000_0000 ==> r == a + b
    ensures a + b >= 0x8000_0000 ==> r == a + b - 0x1_0000_0000
    ensures a + b < -0x8000_0000 ==> r == a + b + 0x1_0000_0000
  {
    ToInt32(a + b)
  }

  /** Int32 multiplication in an unchecked C# context: the low 32 bits of the
      exact product. */
  function MulInt32(a: int32, b: int32): (r: int32)
    ensures -0x8000_0000 <= a * b < 0x8000_0000 ==> r == a * b
  {
    ToInt32(a * b)
  }

  /** Casting to Int32 only depends on the value modulo 2^32. */
  lemma ToInt32Congruent(x: int, y: int)
    requires (x - y) % 0x1_0000_0000 == 0
    ensures ToInt32(x) == ToInt32(y)
  {
    var k := (x - y) / 0x1_0000_0000;
    assert x == y + k * 0x1_0000_0000;
    assert x % 0x1_0000_0000 == y % 0x1_0000_0000;
  }

  /** Wrapping once per addition ends where wrapping the exact sum does. */
  lemma ToInt32Add(a: int, b: int)
    ensures ToInt32(ToInt32(a) + b) == ToInt32(a + b)
  {
    ToInt32Congruent(ToInt32(a) + b, a + b);
  }

  /** The unchecked cast (long)x: the low 64 bits read as two's complement. */
  function ToInt64(x: int): (r: int64)
    ensures -0x8000_0000_0000_0000 <= x < 0x8000_0000_0000_0000 ==> r == x
  {
    var m := x % 0x1_0000_0000_0000_0000;
    if m >= 0x8000_0000_0000_0000 then m - 0x1_0000_0000_0000_0000 else m
  }

  /** Int64 multiplication in an unchecked C# context. */
  function MulInt64(a: int64, b: int64): (r: int64)
    ensures -0x8000_0000_0000_0000 <= a * b < 0x8000_0000_0000_0000 ==> r == a * b
  {
    ToInt64(a * b)
  }

  /** The unchecked cast (ushort)x. */
  function ToUInt16(x: int): (r: uint16)
    ensures 0 <= x < 0x1_0000 ==> r == x
  {
    x % 0x1_0000
  }

  /** The bit pattern of a signed Int32, read as UInt32 (an unchecked cast). */
  function ToUnsigned32(x: int32): (r: uint32)
    ensures x >= 0 ==> r == x
    ensures x < 0 ==> r == x + 0x1_0000_0000
  {
    if x < 0 then x + 0x1_0000_0000 else x
  }

  // Little-endian byte order, as the source's hosts store integers.

  /** BitConverter.GetBytes(UInt32). */
  function BytesLE(x: uint32): (bs: seq<uint8>)
    ensures |bs| == 4
    ensures FromBytesLE(bs) == x
  {
    var q1 := x / 0x100;
    var q2 := q1 / 0x100;
    var q3 := q2 / 0x100;
    assert x == x % 0x100 + 0x100 * q1;
    assert q1 == q1 % 0x100 + 0x100 * q2;
    assert q2 == q2 % 0x100 + 0x100 * q3;
    [x % 0x100, q1 % 0x100, q2 % 0x100, q3]
  }

  /** BitConverter.ToUInt32, and the UInt32 a `uint*` dereference reads. */
  function FromBytesLE(bs: seq<uint8>): (x: uint32)
    requires |bs| == 4
  {
    bs[0] as int + 0x100 * (bs[1] as int) + 0x1_0000 * (bs[2] as int) + 0x100_0000 * (bs[3] as int)
  }

  lemma BytesFromBytesLE(bs: seq<uint8>)
    requires |bs| == 4
    ensures BytesLE(FromBytesLE(bs)) == bs
  {
    var x := FromBytesLE(bs);
    var q1 := x / 0x100;
    assert q1 == bs[1] as int + 0x100 * (bs[2] as int) + 0x1_0000 * (bs[3] as int);
    var q2 := q1 / 0x100;
    assert q2 == bs[2] as int + 0x100 * (bs[3] as int);
  }

  /** The two bytes of a UInt16, low byte first. */
  function BytesLE16(x: uint16): (bs: seq<uint8>)
    ensures |bs| == 2
    ensures FromBytesLE16(bs) == x
  {
    [x % 0x100, x / 0x100]
  }

  /** The UInt16 a `ushort*` dereference reads. */
  function FromBytesLE16(bs: seq<uint8>): (x: uint16)
    requires |bs| == 2
  {
    bs[0] as int + 0x100 * (bs[1] as int)
  }

  lemma BytesFromBytesLE16(bs: seq<uint8>)
    requires |bs| == 2
    ensures BytesLE16(FromBytesLE16(bs)) == bs
  {
  }

  /** An Int16 survives the cast to UInt16 and back. */
  lemma Int16RoundTrip(x: int16)
    ensures ToInt16(ToUInt16(x)) == x
  {
    if x < 0 {
      assert ToUInt16(x) == x as int + 0x1_0000;
    }
  }
}
