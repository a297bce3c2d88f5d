/** Vocabulary shared by both plugins: optional values (C's nullable
    pointers), bytes, and the C integer conversions the sources rely on. */
module Common {

  /** A nullable pointer or an absent key: `None` is C's NULL. */
  datatype Option<T> = None | Some(value: T)

  /** An `uint8_t`. */
  type byte = b: int | 0 <= b < 256

  /** A `uint32_t`. */
  type uint32 = n: int | 0 <= n < TWO_TO_32

  const TWO_TO_31: int := 0x8000_0000
  const TWO_TO_32: int := 0x1_0000_0000

  /** Multiplying by a non-negative factor keeps the order. */
  lemma MulMonotone(a: int, b: int, c: int)
    requires a <= b && 0 <= c
    ensures a * c <= b * c
  {
  }

  /** The smaller of two values, as `a < b ? a : b`. */
  function Min(a: int, b: int): (m: int)
    ensures m <= a && m <= b
    ensures m == a || m == b
  {
    if a < b then a else b
  }

  /** C's `a / 2` on a signed `int`: the quotient is truncated toward zero,
      where Dafny's `/` rounds toward negative infinity. */
  function HalfTowardZero(a: int): (q: int)
    ensures 0 <= a ==> 0 <= 2 * q <= a <= 2 * q + 1
    ensures a < 0 ==> a <= 2 * q <= 0 && 2 * q <= a + 1
  {
    if a >= 0 then a / 2 else -((-a) / 2)
  }

  /** Conversion of an integer to a 32-bit `int`: the value is reduced
      modulo 2^32 into the signed range, which is what the C compilers the
      sources are built with do for an out-of-range conversion. */
  function ToInt32(n: int): (r: int)
    ensures -TWO_TO_31 <= r < TWO_TO_31
    ensures (r - n) % TWO_TO_32 == 0
    ensures -TWO_TO_31 <= n < TWO_TO_31 ==> r == n
  {
    var m := n % TWO_TO_32;
    if m >= TWO_TO_31 then m - TWO_TO_32 else m
  }

  /** Conversion of an integer to `unsigned int`: reduction modulo 2^32. */
  function ToUint32(n: int): (r: uint32)
    ensures (r - n) % TWO_TO_32 == 0
    ensures 0 <= n < TWO_TO_32 ==> r == n
  {
    n % TWO_TO_32
  }
}
