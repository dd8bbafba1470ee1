/** Fixed-width C integer types of the firmware and the two integer helpers of
    main.c (Limit and Abs), together with C's truncating signed division. */
module CTypes {

  newtype int32 = v: int | -0x8000_0000 <= v < 0x8000_0000
  newtype uint32 = v: int | 0 <= v < 0x1_0000_0000
  newtype uint16 = v: int | 0 <= v < 0x1_0000
  newtype uint8 = v: int | 0 <= v < 0x100

  const INT32_MIN: int := -0x8000_0000

  /** Clamp `value` into [min, max]; the upper bound is tested first, so with
      min > max every value above max yields max and every other value below
      min yields min. */
  function Limit(value: int32, min: int32, max: int32): (r: int32)
    ensures r == value || r == min || r == max
    ensures min <= max ==> min <= r <= max
    ensures min <= value <= max ==> r == value
  {
    if value > max then max
    else if value < min then min
    else value
  }

  /** Clamping never reverses the order of two values. */
  lemma LimitMonotone(v1: int32, v2: int32, min: int32, max: int32)
    requires min <= max && v1 <= v2
    ensures Limit(v1, min, max) <= Limit(v2, min, max)
  {
  }

  /** Magnitude of a signed 32-bit value; negating INT32_MIN overflows in C,
      so that one value is excluded. */
  function Abs(value: int32): (r: int32)
    requires value as int != INT32_MIN
    ensures r >= 0
    ensures r == value || r == -value
  {
    if value < 0 then -value else value
  }

  /** C's `/` on a signed dividend and a positive divisor: the quotient is
      rounded toward zero, so the remainder takes the sign of the dividend.
      (Dafny's own `/` rounds toward negative infinity for a negative dividend.) */
  function CDiv(a: int32, b: int32): (q: int32)
    requires b > 0
    ensures -(b as int) < a as int - q as int * b as int < b as int
    ensures a >= 0 ==> q >= 0 && a as int - q as int * b as int >= 0
    ensures a <= 0 ==> q <= 0 && a as int - q as int * b as int <= 0
  {
    var n := if a >= 0 then a as int else -(a as int);
    QuotientAtMost(n, b as int);
    var m := n / (b as int);
    if a >= 0 then m as int32 else -(m as int)  as int32
  }

  lemma QuotientAtMost(n: nat, b: int)
    requires b > 0
    ensures 0 <= n / b <= n
  {
    if n / b > n {
      MulGrows(n / b, b);
    }
  }

  lemma MulGrows(k: int, b: int)
    requires k >= 0 && b >= 1
    ensures k * b >= k
  {
  }

  /** Quotient and remainder are determined by the division equation. */
  lemma DivModUnique(x: int, b: int, q: int, r: int)
    requires b > 0 && 0 <= r < b && x == q * b + r
    ensures x / b == q && x % b == r
  {
    var q', r' := x / b, x % b;
    assert (q' - q + 1) * b == r - r' + b;
    PositiveFactor(q' - q + 1, b);
    assert (q - q' + 1) * b == r' - r + b;
    PositiveFactor(q - q' + 1, b);
  }

  lemma DivMonotone(x: int, y: int, b: int)
    requires 0 <= x <= y && b > 0
    ensures x / b <= y / b
  {
    var qx, qy := x / b, y / b;
    assert (qy - qx + 1) * b == y - y % b - x + x % b + b;
    PositiveFactor(qy - qx + 1, b);
  }

  /** Truncating division is monotone in the dividend. */
  lemma {:induction false} CDivMonotone(a1: int32, a2: int32, b: int32)
    requires b > 0 && a1 <= a2
    ensures CDiv(a1, b) <= CDiv(a2, b)
  {
    var q1, q2, d := CDiv(a1, b) as int, CDiv(a2, b) as int, b as int;
    if a1 >= 0 || a2 <= 0 {
      var r1, r2 := a1 as int - q1 * d, a2 as int - q2 * d;
      assert (q2 - q1 + 1) * d == a2 as int - a1 as int + r1 - r2 + d;
      PositiveFactor(q2 - q1 + 1, d);
    }
  }

  lemma MulNonnegative(x: int, y: int)
    requires x >= 0 && y >= 0
    ensures x * y >= 0
  {
  }

  lemma MulMonotone(c: int, a: int, b: int)
    requires c >= 0 && a <= b
    ensures c * a <= c * b
  {
    MulNonnegative(c, b - a);
    assert c * b - c * a == c * (b - a);
  }

  /** |c * a| <= cmax * amax for 0 <= c <= cmax and |a| <= amax. */
  lemma MulBound(c: int, a: int, cmax: int, amax: int)
    requires 0 <= c <= cmax && -amax <= a <= amax
    ensures -(cmax * amax) <= c * a <= cmax * amax
  {
    MulMonotone(c, a, amax);
    MulMonotone(c, -amax, a);
    MulNonnegative(cmax - c, amax);
    assert cmax * amax - c * amax == (cmax - c) * amax;
    assert c * -amax == -(c * amax);
  }

  lemma PositiveFactor(k: int, b: int)
    requires b > 0 && k * b > 0
    ensures k > 0
  {
  }

  /** C's truncation makes division odd: negating the dividend negates the
      quotient (unlike Euclidean division). */
  lemma {:induction false} CDivOdd(a: int32, b: int32)
    requires b > 0 && a as int != INT32_MIN
    ensures CDiv(-a, b) == -CDiv(a, b)
  {
  }
}
