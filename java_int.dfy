/** Java's 32-bit `int` arithmetic, as used by the `hashCode` methods of the source. */
module JavaInt {

  const TWO_32: int := 0x1_0000_0000
  const MIN_INT: int := -0x8000_0000
  const MAX_INT: int := 0x7fff_ffff

  predicate IsInt32(x: int) { MIN_INT <= x <= MAX_INT }

  /** The value a Java `int` holds after an operation whose exact result is `x`. */
  function Wrap(x: int): (r: int)
    ensures IsInt32(r)
    ensures (r - x) % TWO_32 == 0
  {
    var m := x % TWO_32;
    if m <= MAX_INT then m else m - TWO_32
  }

  /** One step of the `31 * result + field` idiom of generated `hashCode` methods. */
  function Hash31(acc: int, field: int): (r: int)
    ensures IsInt32(r)
    ensures (r - (31 * acc + field)) % TWO_32 == 0
  {
    Wrap(31 * acc + field)
  }

  /** Java's `b ? 1 : 0`, the first step of a hash over a boolean field. */
  function BoolHash(b: bool): int { if b then 1 else 0 }

  /** Wrapping is the identity on values that already fit in an `int`. */
  lemma WrapOfInt32(x: int)
    requires IsInt32(x)
    ensures Wrap(x) == x
  {
  }

  /** Two exact results that agree modulo 2^32 wrap to the same `int`. */
  lemma WrapCongruent(x: int, y: int)
    requires (x - y) % TWO_32 == 0
    ensures Wrap(x) == Wrap(y)
  {
    assert x % TWO_32 == y % TWO_32;
  }

  /**
   * A step of the hash on an accumulator congruent to `e` modulo 2^32 stays congruent to
   * the same step on `e`.
   */
  lemma Hash31Congruent(acc: int, e: int, field: int)
    requires (acc - e) % TWO_32 == 0
    ensures (31 * acc + field - (31 * e + field)) % TWO_32 == 0
    ensures (Hash31(acc, field) - (31 * e + field)) % TWO_32 == 0
  {
    var k := (acc - e) / TWO_32;
    assert acc - e == k * TWO_32;
    assert 31 * acc + field - (31 * e + field) == (31 * k) * TWO_32;
    var r := Hash31(acc, field);
    var j := (r - (31 * acc + field)) / TWO_32;
    assert r - (31 * acc + field) == j * TWO_32;
    assert r - (31 * e + field) == (j + 31 * k) * TWO_32;
  }
}
