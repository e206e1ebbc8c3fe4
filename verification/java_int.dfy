/** Java's 32-bit two's-complement `int`, as far as the canvas needs it:
    the range of the type and the wrapping multiplication of `*`. */
module JavaInt {

  const INT_MIN: int := -0x8000_0000
  const INT_MAX: int := 0x7fff_ffff
  const MODULUS: int := 0x1_0000_0000

  /** A value of Java type `int`. */
  type Int32 = x: int | INT_MIN <= x <= INT_MAX

  /** The `int` that the mathematical integer `x` becomes when Java keeps only its
      low 32 bits: the unique value of the type congruent to `x` modulo 2^32. */
  function Wrap(x: int): (r: Int32)
    ensures (x - r) % MODULUS == 0
    ensures INT_MIN <= x <= INT_MAX ==> r == x
  {
    (x - INT_MIN) % MODULUS + INT_MIN
  }

  /** The Java expression `a * b` on two `int` operands. */
  function Mul(a: Int32, b: Int32): (r: Int32)
    ensures (a * b - r) % MODULUS == 0
    ensures INT_MIN <= a * b <= INT_MAX ==> r == a * b
  {
    Wrap(a * b)
  }

  /** Two integers that lie a multiple of 2^32 apart wrap to the same `int`:
      only the residue matters. */
  lemma WrapCongruent(x: int, y: int)
    requires (x - y) % MODULUS == 0
    ensures Wrap(x) == Wrap(y)
  {
  }

  /** Adding a multiple of 2^32 keeps a value divisible by 2^32. */
  lemma AddMultiple(x: int, j: int)
    requires x % MODULUS == 0
    ensures (x + j * MODULUS) % MODULUS == 0
  {
    assert x == (x / MODULUS) * MODULUS;
    assert x + j * MODULUS == (x / MODULUS + j) * MODULUS;
  }
}
