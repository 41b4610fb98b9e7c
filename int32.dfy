/**
 * C#'s `int`: a 32-bit two's-complement integer whose arithmetic, outside a
 * `checked` context, wraps around modulo 2^32 instead of failing.
 */
module Int32 {
  const Modulus: int := 0x1_0000_0000
  const MinValue: int := -0x8000_0000
  const MaxValue: int := 0x7fff_ffff

  newtype int32 = x: int | -0x8000_0000 <= x < 0x8000_0000

  /** `a` and `b` agree modulo 2^32. */
  predicate Congruent(a: int, b: int) {
    (a - b) % Modulus == 0
  }

  /**
   * The 32-bit value an unchecked C# operation leaves when its exact result
   * is `x`: the one value of the range that agrees with `x` modulo 2^32,
   * which is `x` itself when `x` is in range.
   */
  function Wrap(x: int): (r: int32)
    ensures Congruent(r as int, x)
    ensures MinValue <= x <= MaxValue ==> r as int == x
  {
    ((x - MinValue) % Modulus + MinValue) as int32
  }

  /** No other value of the range agrees with `x` modulo 2^32. */
  lemma WrapUnique(x: int, r: int32)
    requires Congruent(r as int, x)
    ensures r == Wrap(x)
  {
  }

  /** Wrapping an intermediate result does not change the final one. */
  lemma WrapInner(a: int, b: int)
    ensures Wrap(a + Wrap(b) as int) == Wrap(a + b)
  {
  }

  /**
   * Adding a positive amount lowers the value exactly when the exact sum
   * passes the largest value; the wrapped sum is then negative.
   */
  lemma PositiveAddOverflow(a: int32, b: int32)
    requires b > 0
    ensures Wrap(a as int + b as int) < a <==> a as int + b as int > MaxValue
    ensures a as int + b as int > MaxValue ==> Wrap(a as int + b as int) as int == a as int + b as int - Modulus < 0
  {
    var x := a as int + b as int;
    if x > MaxValue {
      WrapUnique(x, (x - Modulus) as int32);
    }
  }
}
