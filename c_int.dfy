/** Integer semantics of the firmware's C code on its 32-bit target:
    16-bit `short`, 32-bit `long`, and C99 division, which truncates toward zero. */
module CInt {

  const SHORT_MIN: int := -0x8000
  const SHORT_MAX: int := 0x7FFF
  const LONG_MIN: int := -0x8000_0000
  const LONG_MAX: int := 0x7FFF_FFFF

  predicate IsShort(x: int) { SHORT_MIN <= x <= SHORT_MAX }

  predicate IsLong(x: int) { LONG_MIN <= x <= LONG_MAX }

  /** TK_ABS */
  function Abs(x: int): (r: int)
    ensures r >= 0 && (r == x || r == -x)
  {
    if x < 0 then -x else x
  }

  /** TK_MAX */
  function Max(a: int, b: int): (r: int)
    ensures r >= a && r >= b && (r == a || r == b)
  {
    if a > b then a else b
  }

  /** C99 `/` by a positive divisor: the magnitude is rounded down and the
      sign follows the dividend (Dafny's own `/` is Euclidean instead). */
  function TruncDiv(a: int, b: int): (q: int)
    requires b > 0
    ensures Abs(q) == Abs(a) / b
    ensures a >= 0 ==> q >= 0
    ensures a <= 0 ==> q <= 0
  {
    if a >= 0 then a / b else -((-a) / b)
  }

  /** A cast to `short`: two's-complement wrap-around. */
  function ToShort(x: int): (r: int)
    ensures IsShort(r)
    ensures IsShort(x) ==> r == x
    ensures (x - r) % 0x1_0000 == 0
  {
    (x - SHORT_MIN) % 0x1_0000 + SHORT_MIN
  }

  /** A store into a 32-bit `long`: two's-complement wrap-around. */
  function ToLong(x: int): (r: int)
    ensures IsLong(r)
    ensures IsLong(x) ==> r == x
    ensures (x - r) % 0x1_0000_0000 == 0
  {
    (x - LONG_MIN) % 0x1_0000_0000 + LONG_MIN
  }

  lemma MulMonotone(x: int, y: int, b: int)
    ensures x <= y && b > 0 ==> x * b <= y * b
  {
    assert y * b - x * b == (y - x) * b;
  }

  lemma EuclidDivMonotone(a: int, a': int, b: int)
    requires 0 <= a <= a' && b > 0
    ensures a / b <= a' / b
  {
    var q, q' := a / b, a' / b;
    assert a == q * b + a % b && a' == q' * b + a' % b;
    assert (q' + 1) * b == q' * b + b;
    MulMonotone(q' + 1, q, b);
  }

  /** Euclidean division is determined by the quotient-remainder equation. */
  lemma EuclidDivUnique(a: int, b: int, q: int)
    requires b > 0 && q * b <= a < q * b + b
    ensures a / b == q
  {
    var q0 := a / b;
    assert a == q0 * b + a % b;
    assert (q + 1) * b == q * b + b;
    assert (q0 + 1) * b == q0 * b + b;
    MulMonotone(q + 1, q0, b);
    MulMonotone(q0 + 1, q, b);
  }

  /** Truncating division is monotone in the dividend. */
  lemma TruncDivMonotone(a: int, a': int, b: int)
    requires a <= a' && b > 0
    ensures TruncDiv(a, b) <= TruncDiv(a', b)
  {
    if 0 <= a {
      EuclidDivMonotone(a, a', b);
    } else if 0 <= a' {
    } else {
      EuclidDivMonotone(-a', -a, b);
    }
  }

  /** Dividing an exact multiple gives back the factor, whatever its sign. */
  lemma TruncDivExact(k: int, b: int)
    requires b > 0
    ensures TruncDiv(k * b, b) == k
  {
    MulMonotone(0, k, b);
    MulMonotone(k, 0, b);
    if k >= 0 {
      EuclidDivUnique(k * b, b, k);
    } else {
      assert -(k * b) == (-k) * b;
      EuclidDivUnique(-(k * b), b, -k);
    }
  }

  /** A dividend between two multiples of the divisor gives a quotient between
      the two factors. */
  lemma TruncDivBetween(a: int, lo: int, hi: int, b: int)
    requires b > 0 && lo * b <= a <= hi * b
    ensures lo <= TruncDiv(a, b) <= hi
  {
    TruncDivMonotone(lo * b, a, b);
    TruncDivMonotone(a, hi * b, b);
    TruncDivExact(lo, b);
    TruncDivExact(hi, b);
  }
}
