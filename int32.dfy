/** Kotlin's `Int`: a 32-bit two's-complement integer whose `+`, `-` and `*` wrap around silently. */
module Int32 {
  const Modulus: int := 0x1_0000_0000
  const Min: int := -0x8000_0000
  const Max: int := 0x7fff_ffff

  newtype int32 = x: int | -0x8000_0000 <= x < 0x8000_0000

  /** The `Int` that the JVM keeps of the mathematical value `x`: `x` reduced modulo 2^32 into [Min, Max]. */
  function Wrap(x: int): (r: int32)
    ensures (x - r as int) % Modulus == 0
    ensures Min <= x <= Max ==> r as int == x
  {
    var m := x % Modulus;
    if m <= Max then m as int32 else (m - Modulus) as int32
  }

  /** Values that differ by a multiple of 2^32 wrap to the same `Int`. */
  lemma WrapShift(x: int, k: int)
    ensures Wrap(x + k * Modulus) == Wrap(x)
  {
    assert (x + k * Modulus) % Modulus == x % Modulus;
  }

  /** Any two values whose difference is divisible by 2^32 wrap to the same `Int`. */
  lemma WrapCongruent(x: int, y: int)
    requires (x - y) % Modulus == 0
    ensures Wrap(x) == Wrap(y)
  {
    var k := (x - y) / Modulus;
    assert x == y + k * Modulus;
    WrapShift(y, k);
  }

  /** `Wrap(x)` is `x` less some multiple of 2^32. */
  lemma WrapOffset(x: int) returns (k: int)
    ensures x == Wrap(x) as int + k * Modulus
  {
    k := (x - Wrap(x) as int) / Modulus;
  }

  /** Wrapping an intermediate sum does not change the final `Int`: `(a + b) + c` wraps as the exact sum does. */
  lemma WrapAdd(x: int, y: int)
    ensures Wrap(Wrap(x) as int + y) == Wrap(x + y)
  {
    var k := WrapOffset(x);
    assert x + y == (Wrap(x) as int + y) + k * Modulus;
    WrapShift(Wrap(x) as int + y, k);
  }

  /** Wrapping a factor before multiplying does not change the wrapped product. */
  lemma WrapMul(x: int, y: int)
    ensures Wrap(x * (Wrap(y) as int)) == Wrap(x * y)
  {
    var k := WrapOffset(y);
    assert x * y == x * (Wrap(y) as int) + (x * k) * Modulus;
    WrapShift(x * (Wrap(y) as int), x * k);
  }
}
