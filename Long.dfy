/**
 * Java's 64-bit `long`: the range, and the two's-complement wrap-around that
 * `+`, unary `-` and `BigInteger.longValue()` perform when a result leaves it.
 */
module Long {

  const MIN: int := -0x8000_0000_0000_0000
  const MAX: int := 0x7FFF_FFFF_FFFF_FFFF
  const MODULUS: int := 0x1_0000_0000_0000_0000

  /** The values a Java `long` can hold. */
  type Int64 = x: int | MIN <= x <= MAX

  /** The long that a mathematical integer becomes after two's-complement truncation. */
  function Wrap(x: int): (r: Int64)
    ensures (x - r) % MODULUS == 0
    ensures MIN <= x <= MAX ==> r == x
  {
    var m := (x - MIN) % MODULUS;
    assert x - (m + MIN) == ((x - MIN) / MODULUS) * MODULUS;
    m + MIN
  }

  /** Java's `a + b` on two longs: exact unless it overflows, and then off by exactly 2^64. */
  function Add(a: Int64, b: Int64): (r: Int64)
    ensures MIN <= a + b <= MAX ==> r == a + b
    ensures a + b > MAX ==> r == a + b - MODULUS
    ensures a + b < MIN ==> r == a + b + MODULUS
  {
    Wrap(a as int + b)
  }

  /** Java's unary `-a` on a long: `-Long.MIN_VALUE` is `Long.MIN_VALUE`. */
  function Neg(a: Int64): (r: Int64)
    ensures a != MIN ==> r == -a
    ensures a == MIN ==> r == MIN
  {
    Wrap(-(a as int))
  }

  /** Two longs that differ by a multiple of 2^64 are the same long. */
  lemma {:induction false} SameResidue(a: Int64, b: Int64)
    requires (a - b) % MODULUS == 0
    ensures a == b
  {
    var k := (a - b) / MODULUS;
    assert a - b == k * MODULUS;
  }

  /** Whole multiples of 2^64 add up to one. */
  lemma {:induction false} ResidueSum(p: int, q: int)
    requires p % MODULUS == 0 && q % MODULUS == 0
    ensures (p + q) % MODULUS == 0
  {
    var i, j := p / MODULUS, q / MODULUS;
    assert p == i * MODULUS && q == j * MODULUS;
    assert p + q == (i + j) * MODULUS;
  }

  /** Java's long addition is associative, overflow included. */
  lemma {:induction false} AddAssociative(a: Int64, b: Int64, c: Int64)
    ensures Add(Add(a, b), c) == Add(a, Add(b, c))
  {
    var left, right := Add(Add(a, b), c), Add(a, Add(b, c));
    ResidueSum(a + b - Add(a, b), Add(a, b) + c - left);
    ResidueSum(b + c - Add(b, c), a + Add(b, c) - right);
    ResidueSum(left - (a + b + c), (a + b + c) - right);
    SameResidue(left, right);
  }
}
