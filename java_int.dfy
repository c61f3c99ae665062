/** The JVM's fixed-width integer arithmetic, written out over Dafny's
    unbounded `int`: two's-complement wrap-around for `Long`, `Int` and
    `Short`, and division that truncates toward zero. */
module JavaInt {

  const TWO_16: int := 0x1_0000
  const TWO_32: int := 0x1_0000_0000
  const TWO_64: int := 0x1_0000_0000_0000_0000

  const SHORT_MIN: int := -0x8000
  const SHORT_MAX: int := 0x7FFF
  const INT_MIN: int := -0x8000_0000
  const INT_MAX: int := 0x7FFF_FFFF
  const LONG_MIN: int := -0x8000_0000_0000_0000
  const LONG_MAX: int := 0x7FFF_FFFF_FFFF_FFFF

  predicate IsShort(n: int) { SHORT_MIN <= n <= SHORT_MAX }
  predicate IsInt(n: int) { INT_MIN <= n <= INT_MAX }
  predicate IsLong(n: int) { LONG_MIN <= n <= LONG_MAX }

  /** The `Long` that an exact result wraps to: the one value in the `Long`
      range that is congruent to `n` modulo 2^64. */
  function WrapLong(n: int): (r: int)
    ensures IsLong(r)
    ensures (n - r) % TWO_64 == 0
    ensures IsLong(n) ==> r == n
  {
    (n - LONG_MIN) % TWO_64 + LONG_MIN
  }

  /** The `Int` that an exact result wraps to (also `Long.toInt()`, which keeps
      the low 32 bits). */
  function WrapInt(n: int): (r: int)
    ensures IsInt(r)
    ensures (n - r) % TWO_32 == 0
    ensures IsInt(n) ==> r == n
  {
    (n - INT_MIN) % TWO_32 + INT_MIN
  }

  /** `Int.toShort()`: keeps the low 16 bits, read as a signed value. */
  function ToShort(n: int): (r: int)
    ensures IsShort(r)
    ensures (n - r) % TWO_16 == 0
    ensures IsShort(n) ==> r == n
  {
    (n - SHORT_MIN) % TWO_16 + SHORT_MIN
  }

  function Abs(n: int): nat { if n < 0 then -n else n }

  /** JVM integer division: the quotient is rounded toward zero, so the
      remainder has the sign of the dividend and is smaller than the divisor
      in magnitude. Dafny's own `/` rounds toward minus infinity on a negative
      dividend and differs from this for, e.g., -3 / 2. */
  function TruncDiv(a: int, b: int): (q: int)
    requires b != 0
    ensures a >= 0 ==> a - q * b >= 0
    ensures a <= 0 ==> a - q * b <= 0
    ensures Abs(a - q * b) < Abs(b)
  {
    if a >= 0 then (if b > 0 then a / b else -(a / -b))
    else (if b > 0 then -(-a / b) else -a / -b)
  }

  /** Wrapping is determined by the residue: two exact values that differ by
      a multiple of 2^64 wrap to the same `Long`. */
  lemma WrapLongCongruent(m: int, n: int)
    requires (m - n) % TWO_64 == 0
    ensures WrapLong(m) == WrapLong(n)
  {
    var a, b := m - LONG_MIN, n - LONG_MIN;
    var q := (a - b) / TWO_64;
    assert a == b + q * TWO_64;
    var qb, rb := b / TWO_64, b % TWO_64;
    assert a == (qb + q) * TWO_64 + rb;
    RemainderUnique(a, qb + q, rb);
  }

  /** The remainder modulo 2^64 is the only residue in [0, 2^64). */
  lemma RemainderUnique(a: int, q: int, r: int)
    requires 0 <= r < TWO_64 && a == q * TWO_64 + r
    ensures a % TWO_64 == r
  {
    var q', r' := a / TWO_64, a % TWO_64;
    assert (q - q') * TWO_64 == r' - r;
  }
}
