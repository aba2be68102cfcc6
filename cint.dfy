/** Option, and the C integer semantics the firmware relies on: truncating
    division, fixed-width ranges, cJSON's saturating double-to-int cast and
    the modular narrowing of an int into an int16_t field. */
module CInt {

  datatype Option<+T> = None | Some(value: T)

  /** What a piece of C++ does as written: a result, or behaviour the
      language leaves undefined (a null pointer dereferenced, a null
      `char*` copied into a `std::string`, a division by zero). */
  datatype Outcome<+T> = Undefined | Defined(value: T)

  const INT_MIN: int := -0x8000_0000
  const INT_MAX: int := 0x7FFF_FFFF

  type Int16 = x: int | -0x8000 <= x < 0x8000
  type UInt16 = x: int | 0 <= x < 0x1_0000
  type Int32 = x: int | -0x8000_0000 <= x < 0x8000_0000
  type UInt32 = x: int | 0 <= x < 0x1_0000_0000

  function Abs(x: int): (r: nat)
    ensures r == x || r == -x
  {
    if x < 0 then -x else x
  }

  /** C's `/` on int: the quotient is truncated toward zero. */
  function CDiv(a: int, b: int): int
    requires b != 0
  {
    if (a < 0) == (b < 0) then Abs(a) / Abs(b) else -(Abs(a) / Abs(b))
  }

  /** Truncation: the remainder is smaller than the divisor and takes the sign
      of the dividend, and the quotient is never larger in magnitude than
      the exact one. */
  lemma CDivTruncates(a: int, b: int)
    requires b != 0
    ensures Abs(a - CDiv(a, b) * b) < Abs(b)
    ensures a - CDiv(a, b) * b == 0 || (a - CDiv(a, b) * b < 0) == (a < 0)
    ensures Abs(CDiv(a, b)) * Abs(b) <= Abs(a)
  {
    CDivFacts(a, b, CDiv(a, b));
  }

  lemma CDivFacts(a: int, b: int, q: int)
    requires b != 0
    requires q == if (a < 0) == (b < 0) then Abs(a) / Abs(b) else -(Abs(a) / Abs(b))
    ensures Abs(a - q * b) < Abs(b)
    ensures a - q * b == 0 || (a - q * b < 0) == (a < 0)
    ensures Abs(q) * Abs(b) <= Abs(a)
  {
    if a >= 0 && b > 0 {
      QuotientSameSign(a, b, q);
    } else if a < 0 && b < 0 {
      QuotientSameSign(a, b, q);
    } else if a >= 0 {
      QuotientPosNeg(a, b, q);
    } else {
      QuotientNegPos(a, b, q);
    }
  }

  /** Dividend and divisor of the same sign: the quotient is the quotient
      of the magnitudes. */
  lemma QuotientSameSign(a: int, b: int, q: int)
    requires (a >= 0 && b > 0) || (a < 0 && b < 0)
    requires q == Abs(a) / Abs(b)
    ensures Abs(a - q * b) < Abs(b)
    ensures a - q * b == 0 || (a - q * b < 0) == (a < 0)
    ensures Abs(q) * Abs(b) <= Abs(a)
  {
    DivBound(Abs(a), Abs(b));
    if a < 0 {
      assert q * b == -(q * Abs(b));
    }
  }

  /** A non-negative dividend and a negative divisor: the quotient is the
      negated quotient of the magnitudes. */
  lemma QuotientPosNeg(a: int, b: int, q: int)
    requires a >= 0 && b < 0 && q == -(a / -b)
    ensures Abs(a - q * b) < Abs(b)
    ensures a - q * b == 0 || (a - q * b < 0) == (a < 0)
    ensures Abs(q) * Abs(b) <= Abs(a)
  {
    var d := -b;
    var k := a / d;
    DivBound(a, d);
    assert q * b == k * d;
    assert Abs(q) * Abs(b) == k * d;
  }

  /** A negative dividend and a positive divisor: the quotient is the
      negated quotient of the magnitudes. */
  lemma QuotientNegPos(a: int, b: int, q: int)
    requires a < 0 && b > 0 && q == -(-a / b)
    ensures Abs(a - q * b) < Abs(b)
    ensures a - q * b == 0 || (a - q * b < 0) == (a < 0)
    ensures Abs(q) * Abs(b) <= Abs(a)
  {
    var n := -a;
    var k := n / b;
    DivBound(n, b);
    assert q * b == -(k * b);
    assert Abs(q) * Abs(b) == k * b;
  }

  lemma DivBound(n: nat, d: nat)
    requires d > 0
    ensures (n / d) * d <= n && n - (n / d) * d < d
  {
  }

  /** cJSON's valueint: a number is cast to int, saturating at the ends. */
  function Saturate32(n: int): (r: Int32)
    ensures INT_MIN <= n <= INT_MAX ==> r == n
    ensures n > INT_MAX ==> r == INT_MAX
    ensures n < INT_MIN ==> r == INT_MIN
  {
    if n >= INT_MAX then INT_MAX else if n <= INT_MIN then INT_MIN else n
  }

  /** Assignment of an int to an int16_t field keeps the low 16 bits
      (two's complement narrowing). */
  function Wrap16(n: int): (r: Int16)
    ensures (r - n) % 0x1_0000 == 0
    ensures -0x8000 <= n < 0x8000 ==> r == n
  {
    (n + 0x8000) % 0x1_0000 - 0x8000
  }

  /** Assignment of a wider result to an int keeps the low 32 bits (two's
      complement narrowing). */
  function Wrap32(n: int): (r: Int32)
    ensures (r - n) % 0x1_0000_0000 == 0
    ensures INT_MIN <= n <= INT_MAX ==> r == n
  {
    (n + 0x8000_0000) % 0x1_0000_0000 - 0x8000_0000
  }

  /** Conversion of an int to an unsigned 32-bit value. */
  function WrapU32(n: int): (r: UInt32)
    ensures r < 0x1_0000_0000 && (r - n) % 0x1_0000_0000 == 0
    ensures 0 <= n < 0x1_0000_0000 ==> r == n
  {
    n % 0x1_0000_0000
  }

  /** The two-way choice `std::min(std::max(x, lo), hi)`. */
  function ClampMinMax(x: int, lo: int, hi: int): (r: int)
    ensures lo <= hi ==> lo <= r <= hi
    ensures lo <= x <= hi ==> r == x
  {
    var m := if x < lo then lo else x;
    if m < hi then m else hi
  }
}
