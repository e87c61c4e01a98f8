/** Go's int64: two's-complement wraparound, division truncated toward zero, and the checked operations on top. */
module Int64 {
  import opened Prelude

  const MIN: int := -0x8000_0000_0000_0000
  const MAX: int := 0x7fff_ffff_ffff_ffff
  const MODULUS: int := 0x1_0000_0000_0000_0000

  predicate Fits(x: int) {
    MIN <= x <= MAX
  }

  type int64 = x: int | MIN <= x <= MAX

  /** The int64 that an unbounded result becomes when only its low 64 bits are kept. */
  function Wrap(x: int): int64 {
    (x - MIN) % MODULUS + MIN
  }

  function Abs(x: int): nat {
    if x >= 0 then x else 0 - x
  }

  /** Division truncated toward zero. */
  function Truncated(a: int, b: int): int
    requires b != 0
  {
    var q: int := Abs(a) / Abs(b);
    if (a >= 0) == (b > 0) then q else 0 - q
  }

  /** Go's `/`, which wraps for MIN / -1. */
  function Quot(a: int64, b: int64): int64
    requires b != 0
  {
    Wrap(Truncated(a, b))
  }

  /** Go's `%`: the remainder takes the sign of the dividend. */
  function Rem(a: int64, b: int64): int
    requires b != 0
  {
    a - Truncated(a, b) * b
  }

  function CheckedAdd(a: int64, b: int64): Option<int64> {
    var sum := Wrap(a + b);
    if (b > 0 && sum < a) || (b < 0 && sum > a) then None else Some(sum)
  }

  function CheckedNegate(a: int64): Option<int64> {
    if a == MIN then None else Some(Wrap(0 - a))
  }

  function CheckedMul(a: int64, b: int64): Option<int64> {
    if a == 0 || b == 0 then Some(0)
    else
      var result := Wrap(a * b);
      if Quot(result, b) != a then None else Some(result)
  }

  /** The mathematical answer, or none when it does not fit. */
  function Exact(x: int): Option<int64> {
    if Fits(x) then Some(x) else None
  }

  /** The wraparound comparison detects overflow precisely. */
  lemma CheckedAddIsExact(a: int64, b: int64)
    ensures CheckedAdd(a, b) == Exact(a + b)
  {
    WrapNearby(a + b);
  }

  lemma CheckedNegateIsExact(a: int64)
    ensures CheckedNegate(a) == Exact(0 - a)
  {
    WrapNearby(0 - a);
  }

  /** The division test catches every overflow but one: MIN * -1 wraps to MIN, and MIN / -1 is MIN again. */
  lemma CheckedMulIsExact(a: int64, b: int64)
    ensures CheckedMul(a, b) == Exact(a * b) <==> !(a == MIN && b == -1)
  {
    if a == 0 || b == 0 {
      assert a * b == 0;
    } else if b == -1 {
      NegatedProduct(a);
    } else if Fits(a * b) || b == 1 {
      WrapNearby(a * b);
      TruncatedProduct(a, b);
      WrapNearby(a);
    } else {
      OverflowIsCaught(a, b);
    }
  }

  lemma NegatedProduct(a: int64)
    requires a != 0
    ensures CheckedMul(a, -1) == Exact(a * -1) <==> a != MIN
  {
    assert a * -1 == 0 - a;
    WrapNearby(0 - a);
    var result: int := Wrap(0 - a);
    assert Truncated(result, -1) == 0 - result;
    WrapNearby(0 - result);
  }

  lemma TruncatedProduct(a: int, b: int)
    requires a != 0 && b != 0
    ensures Truncated(a * b, b) == a
  {
    var m: int, n: int := Abs(a), Abs(b);
    SignOfProduct(a, b);
    assert (m * n) / n == m by {
      QuotientUnique(m * n, n, m, 0);
    }
  }

  lemma SignOfProduct(a: int, b: int)
    requires a != 0 && b != 0
    ensures Abs(a * b) == Abs(a) * Abs(b)
    ensures (a * b > 0) == ((a > 0) == (b > 0)) && a * b != 0
  {
    if a > 0 && b > 0 {
    } else if a > 0 {
      assert a * (0 - b) > 0 && a * b == 0 - a * (0 - b);
    } else if b > 0 {
      assert (0 - a) * b > 0 && a * b == 0 - (0 - a) * b;
    } else {
      assert (0 - a) * (0 - b) > 0 && a * b == (0 - a) * (0 - b);
    }
  }

  lemma QuotientUnique(p: int, d: int, q: int, r: int)
    requires d > 0 && p == q * d + r && 0 <= r < d
    ensures p / d == q
  {
    var e := p / d - q;
    assert e * d == r - p % d;
    MultipleOutside(e, d);
  }

  /** Only the zero multiple of d lies strictly between -d and d. */
  lemma MultipleOutside(e: int, d: int)
    requires d > 0
    ensures e >= 1 ==> e * d >= d
    ensures e <= -1 ==> e * d <= 0 - d
  {
    assert e * d == (e - 1) * d + d == (e + 1) * d - d;
  }

  lemma FloorBounds(n: nat, d: int)
    requires d > 0
    ensures 0 <= n / d && 0 <= n - (n / d) * d < d
    ensures n / d <= n && (d >= 2 ==> 2 * (n / d) <= n)
  {
    var q: int := n / d;
    if d >= 2 {
      assert q * d == q * (d - 2) + 2 * q;
    }
  }

  /** A truncated quotient multiplies back to within one divisor of the dividend, and is no larger than it. */
  lemma TruncatedBounds(a: int, b: int)
    requires b != 0
    ensures Abs(a - Truncated(a, b) * b) < Abs(b)
    ensures Abs(Truncated(a, b)) <= Abs(a)
    ensures Abs(b) >= 2 ==> 2 * Abs(Truncated(a, b)) <= Abs(a)
  {
    FloorBounds(Abs(a), Abs(b));
    var q: int := Abs(a) / Abs(b);
    assert Truncated(a, b) * b == if a >= 0 then q * Abs(b) else 0 - q * Abs(b);
  }

  /** A wrapped product is off by at least 2^64, more than the remainder of a division by b can make up for. */
  lemma OverflowIsCaught(a: int64, b: int64)
    requires a != 0 && b != 0 && b != 1 && b != -1 && !Fits(a * b)
    ensures CheckedMul(a, b) == None
  {
    var result: int := Wrap(a * b);
    var k := WrapShift(a * b);
    TruncatedBounds(result, b);
    WrapNearby(Truncated(result, b));
    assert Abs(k * MODULUS) >= MODULUS;
  }

  /** Wrapping moves a value by a multiple of 2^64, and by none exactly when the value fits. */
  lemma WrapShift(x: int) returns (k: int)
    ensures Wrap(x) == x + k * MODULUS
    ensures k == 0 <==> Fits(x)
  {
    k := 0 - (x - MIN) / MODULUS;
  }

  lemma WrapNearby(x: int)
    requires MIN - MODULUS <= x <= MAX + MODULUS
    ensures Wrap(x) == if x < MIN then x + MODULUS else if x > MAX then x - MODULUS else x
  {
    var k := WrapShift(x);
  }
}
