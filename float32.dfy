/** IEEE 754 single precision, as far as the source touches it: a float
    parameter is stored as a 32-bit pattern, truncated to Int32 by `(Int32)f`
    and produced from an Int32 by `(float)i`. Arithmetic and text formatting of
    floats are not part of this module. */
module Float32 {
  import opened Ints

  type Fraction = x: int | 0 <= x < 0x80_0000

  /** A single-precision value by its three fields. */
  datatype Float32 = Float32(negative: bool, exponent: uint8, fraction: Fraction)

  const Zero: Float32 := Float32(false, 0, 0)

  /** The float stored in a 32-bit pattern (what `BitConverter.ToSingle` and a
      `float*` dereference read). */
  function FromBits(b: uint32): (f: Float32)
    ensures ToBits(f) == b
  {
    Float32(b >= 0x8000_0000, (b / 0x80_0000) % 0x100, b % 0x80_0000)
  }

  /** The 32-bit pattern of a float. */
  function ToBits(f: Float32): (b: uint32)
    ensures b / 0x8000_0000 == (if f.negative then 1 else 0)
    ensures (b / 0x80_0000) % 0x100 == f.exponent
    ensures b % 0x80_0000 == f.fraction
  {
    (if f.negative then 0x8000_0000 else 0) + f.exponent * 0x80_0000 + f.fraction
  }

  lemma BitsRoundTrip(f: Float32)
    ensures FromBits(ToBits(f)) == f
  {
  }

  predicate IsFinite(f: Float32) {
    f.exponent < 255
  }

  /** The integer significand (with the hidden bit for normal numbers). */
  function Significand(f: Float32): nat {
    if f.exponent == 0 then f.fraction else 0x80_0000 + f.fraction
  }

  /** |f| of a finite f is Numerator(f) / Denominator(f), both natural numbers. */
  function Numerator(f: Float32): nat
    requires IsFinite(f)
  {
    var e := if f.exponent == 0 then 1 else f.exponent as int;
    if e >= 150 then Significand(f) * Pow2(e - 150) else Significand(f)
  }

  function Denominator(f: Float32): (d: nat)
    requires IsFinite(f)
    ensures d >= 1
  {
    var e := if f.exponent == 0 then 1 else f.exponent as int;
    if e >= 150 then 1 else Pow2(150 - e)
  }

  lemma DivNonNegative(n: nat, d: nat)
    requires d >= 1
    ensures n / d >= 0
  {
  }

  /** The integer part of |f|, for finite f. */
  function Magnitude(f: Float32): nat
    requires IsFinite(f)
  {
    var n, d := Numerator(f), Denominator(f);
    DivNonNegative(n, d);
    n / d
  }

  /** `(Int32)f`: truncation toward zero. C# leaves the result unspecified for
      NaN, infinities and values outside the Int32 range; the model yields
      Int32.MinValue there, the value the x86 conversion instruction produces. */
  function Truncate(f: Float32): (r: int32)
    ensures !IsFinite(f) ==> r == MinInt32
    ensures IsFinite(f) && r != 0 && r != MinInt32 ==> (r < 0 <==> f.negative)
  {
    if !IsFinite(f) then MinInt32
    else
      var mag := Magnitude(f);
      var signed := if f.negative then -(mag as int) else mag as int;
      if MinInt32 <= signed <= MaxInt32 then signed else MinInt32
  }

  lemma DivBounds(n: nat, d: nat)
    requires d >= 1
    ensures (n / d) * d <= n < (n / d + 1) * d
  {
  }

  /** Truncation rounds toward zero: |Truncate(f)| is the largest natural
      number not above |f| whenever the result is representable. */
  lemma TruncateTowardZero(f: Float32)
    requires IsFinite(f) && Truncate(f) != MinInt32
    ensures var mag := if Truncate(f) < 0 then -(Truncate(f) as int) else Truncate(f) as int;
      mag * Denominator(f) <= Numerator(f) < (mag + 1) * Denominator(f)
  {
    DivBounds(Numerator(f), Denominator(f));
  }

  /** Length of the binary representation of m. */
  function BitLength(m: nat): (l: nat)
    ensures m == 0 ==> l == 0
    ensures m > 0 ==> l >= 1 && Pow2(l - 1) <= m < Pow2(l)
  {
    if m == 0 then 0 else 1 + BitLength(m / 2)
  }

  lemma {:induction false} MulPow2Bounds(m: nat, l: nat, k: nat)
    requires l >= 1 && Pow2(l - 1) <= m < Pow2(l)
    ensures Pow2(l - 1 + k) <= m * Pow2(k) < Pow2(l + k)
  {
    Pow2Add(l - 1, k);
    Pow2Add(l, k);
    MulMonotone(Pow2(l - 1), m, Pow2(k));
    MulMonotoneStrict(m, Pow2(l), Pow2(k));
  }

  lemma {:induction false} DivPow2Bounds(m: nat, l: nat, s: nat)
    requires s < l && Pow2(l - 1) <= m < Pow2(l)
    ensures Pow2(l - 1 - s) <= m / Pow2(s) < Pow2(l - s)
  {
    var p := Pow2(s);
    Pow2Add(l - 1 - s, s);
    Pow2Add(l - s, s);
    var q := m / p;
    DivBounds(m, p);
    if q < Pow2(l - 1 - s) {
      MulMonotone(q + 1, Pow2(l - 1 - s), p);
      assert false;
    }
    if q >= Pow2(l - s) {
      MulMonotone(Pow2(l - s), q, p);
      assert false;
    }
  }

  /** The single holding m exactly, for 0 < m < 2^24 of bit length l. */
  function ExactSingle(negative: bool, m: nat, l: nat): (f: Float32)
    requires 1 <= l <= 24 && Pow2(l - 1) <= m < Pow2(l)
  {
    MulPow2Bounds(m, l, 24 - l);
    Pow2Values();
    Float32(negative, 126 + l, m * Pow2(24 - l) - 0x80_0000)
  }

  /** m / 2^s rounded to the nearest whole number, a tie going to the even one. */
  function RoundToEven(m: nat, s: nat): (q': nat)
    requires s >= 1
    ensures m / Pow2(s) <= q' <= m / Pow2(s) + 1
  {
    var q := m / Pow2(s);
    var rem := m % Pow2(s);
    var half := Pow2(s - 1);
    if rem > half || (rem == half && q % 2 == 1) then q + 1 else q
  }

  /** The single nearest to m, ties to even, for m of bit length 24 < l <= 32:
      the low l - 24 bits are rounded away. */
  function RoundedSingle(negative: bool, m: nat, l: nat): (f: Float32)
    requires 24 < l <= 32 && Pow2(l - 1) <= m < Pow2(l)
  {
    var s := l - 24;
    DivPow2Bounds(m, l, s);
    Pow2Values();
    var q' := RoundToEven(m, s);
    if q' == 0x100_0000 then Float32(negative, 127 + l, 0)
    else Float32(negative, 126 + l, q' - 0x80_0000)
  }

  /** `(float)i`: the nearest single, ties to an even significand. */
  function FromInt(i: int32): (f: Float32)
    ensures IsFinite(f)
    ensures i != 0 ==> (f.negative <==> i < 0)
  {
    if i == 0 then Zero
    else
      var m: nat := if i < 0 then -(i as int) else i as int;
      var l := BitLength(m);
      assert l <= 32 by {
        Pow2Values();
        if l > 32 {
          Pow2Monotone(32, l - 1);
        }
      }
      if l <= 24 then ExactSingle(i < 0, m, l) else RoundedSingle(i < 0, m, l)
  }

  lemma MulDivCancel(m: nat, p: nat)
    requires p >= 1
    ensures (m * p) / p == m
  {
    var q := (m * p) / p;
    DivBounds(m * p, p);
    if q < m {
      MulMonotone(q + 1, m, p);
    }
    if q > m {
      MulMonotone(m + 1, q, p);
    }
  }

  lemma MulModZero(m: nat, p: nat)
    requires p >= 1
    ensures (m * p) % p == 0
  {
    var n := m * p;
    MulDivCancel(m, p);
    assert n == (n / p) * p + n % p;
  }

  lemma ExactSingleMagnitude(negative: bool, m: nat, l: nat)
    requires 1 <= l <= 24 && Pow2(l - 1) <= m < Pow2(l)
    ensures Magnitude(ExactSingle(negative, m, l)) == m
  {
    var f := ExactSingle(negative, m, l);
    var p := Pow2(24 - l);
    MulPow2Bounds(m, l, 24 - l);
    Pow2Values();
    assert Significand(f) == m * p;
    if l == 24 {
      assert Numerator(f) == m;
    } else {
      assert Numerator(f) == m * p;
      assert Denominator(f) == p;
      MulDivCancel(m, p);
    }
  }

  /** Every Int32 of magnitude below 2^24 survives the round trip through
      float unchanged. */
  lemma {:induction false} TruncateFromIntExact(i: int32)
    requires -0x100_0000 < i < 0x100_0000
    ensures Truncate(FromInt(i)) == i
  {
    if i != 0 {
      var m: nat := if i < 0 then -(i as int) else i as int;
      var l := BitLength(m);
      Pow2Values();
      if l > 24 {
        Pow2Monotone(24, l - 1);
      }
      ExactSingleMagnitude(i < 0, m, l);
    }
  }

  /** Rounding the quotient q of m by p = 2 * half up when the remainder
      rem passes half, or equals it with q odd, leaves q' * p within half of
      m, and a tie ends on an even q'. */
  lemma HalfUnitBound(m: int, p: int, half: int, q: int, rem: int, q': int)
    requires half >= 1 && p == 2 * half && m == q * p + rem && 0 <= rem < p
    requires q' == if rem > half || (rem == half && q % 2 == 1) then q + 1 else q
    ensures m <= q' * p + half && q' * p <= m + half
    ensures q' * p + half == m || m + half == q' * p ==> q' % 2 == 0
  {
    if q' == q + 1 {
      assert q' * p == q * p + p;
    }
  }

  /** RoundToEven(m, s) * 2^s is within half of 2^s of m, and a tie ends on
      an even quotient. */
  lemma RoundToEvenNearest(m: nat, s: nat)
    requires s >= 1
    ensures var n := RoundToEven(m, s) * Pow2(s);
      m <= n + Pow2(s - 1) && n <= m + Pow2(s - 1) &&
      (n + Pow2(s - 1) == m || m + Pow2(s - 1) == n ==> RoundToEven(m, s) % 2 == 0)
  {
    var p := Pow2(s);
    assert p == 2 * Pow2(s - 1);
    HalfUnitBound(m, p, Pow2(s - 1), m / p, m % p, RoundToEven(m, s));
  }

  /** RoundedSingle(negative, m, l) is the whole number RoundToEven(m, l - 24) * 2^(l - 24). */
  lemma {:induction false} RoundedSingleValue(negative: bool, m: nat, l: nat)
    requires 24 < l <= 32 && Pow2(l - 1) <= m < Pow2(l)
    ensures var f := RoundedSingle(negative, m, l);
      IsFinite(f) && Denominator(f) == 1 && f.negative == negative &&
      Numerator(f) == RoundToEven(m, l - 24) * Pow2(l - 24)
  {
    var f := RoundedSingle(negative, m, l);
    var s := l - 24;
    var p := Pow2(s);
    DivPow2Bounds(m, l, s);
    Pow2Values();
    var q' := RoundToEven(m, s);
    if q' == 0x100_0000 {
      assert f == Float32(negative, 127 + l, 0);
      assert Pow2(127 + l - 150) == 2 * p;
      assert Numerator(f) == 0x80_0000 * (2 * p);
    } else {
      assert f == Float32(negative, 126 + l, q' - 0x80_0000);
      assert Significand(f) == q';
    }
  }

  /** f is m rounded to the nearest single with unit in the last place 2^s:
      a whole multiple of 2^s within half of it from m, with an even
      significand on a tie. */
  predicate NearestEven(f: Float32, m: nat, s: nat)
    requires s >= 1
  {
    IsFinite(f) && Denominator(f) == 1 &&
    Numerator(f) % Pow2(s) == 0 &&
    m <= Numerator(f) + Pow2(s - 1) && Numerator(f) <= m + Pow2(s - 1) &&
    (Numerator(f) + Pow2(s - 1) == m || m + Pow2(s - 1) == Numerator(f) ==>
      (Numerator(f) / Pow2(s)) % 2 == 0)
  }

  /** For m of bit length l above 24, RoundedSingle keeps the sign and
      rounds m to the nearest single, ties to even. */
  lemma RoundedSingleNearest(negative: bool, m: nat, l: nat)
    requires 24 < l <= 32 && Pow2(l - 1) <= m < Pow2(l)
    ensures RoundedSingle(negative, m, l).negative == negative
    ensures NearestEven(RoundedSingle(negative, m, l), m, l - 24)
  {
    var f := RoundedSingle(negative, m, l);
    var q', p := RoundToEven(m, l - 24), Pow2(l - 24);
    RoundedSingleValue(negative, m, l);
    RoundToEvenNearest(m, l - 24);
    MulDivCancel(q', p);
    MulModZero(q', p);
  }

  /** A magnitude from 2^24 up to 2^31 takes 25 to 32 bits. */
  lemma LongBitLength(m: nat)
    requires 0x100_0000 <= m <= 0x8000_0000
    ensures 24 < BitLength(m) <= 32
  {
    var l := BitLength(m);
    Pow2Values();
    if l <= 24 {
      Pow2Monotone(l, 24);
    }
    if l > 32 {
      Pow2Monotone(32, l - 1);
    }
  }

  /** (float)i of more than 24 bits takes the rounding branch. */
  lemma FromIntRounds(i: int32, m: nat)
    requires m == if i < 0 then -(i as int) else i as int
    requires 24 < BitLength(m) <= 32
    ensures FromInt(i) == RoundedSingle(i < 0, m, BitLength(m))
  {
  }

  /** `(float)i` for |i| of at least 2^24 is round to nearest, ties to even,
      with the sign of i. */
  lemma FromIntNearest(i: int32)
    requires i <= -0x100_0000 || 0x100_0000 <= i
    ensures var m: nat := if i < 0 then -(i as int) else i as int;
      24 < BitLength(m) <= 32 && (FromInt(i).negative <==> i < 0) &&
      NearestEven(FromInt(i), m, BitLength(m) - 24)
  {
    var m: nat := if i < 0 then -(i as int) else i as int;
    LongBitLength(m);
    FromIntRounds(i, m);
    RoundedSingleNearest(i < 0, m, BitLength(m));
  }

  /** (Int32)7.9f is 7: the conversion truncates rather than rounds. The
      float 7.9f has the pattern 0x40FCCCCD. */
  lemma TruncateSevenPointNine()
    ensures Truncate(FromBits(0x40FC_CCCD)) == 7
  {
    var f := FromBits(0x40FC_CCCD);
    assert f.exponent == 129 && f.fraction == 0x7C_CCCD;
    Pow2Values();
    assert Numerator(f) == 0xFC_CCCD;
    assert Denominator(f) == 0x20_0000;
  }
}
