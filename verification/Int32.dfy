/** Kotlin's `Int`: 32-bit two's-complement integers whose arithmetic wraps around. */
module Int32 {

  const Modulus: int := 0x1_0000_0000
  const Min: int := -0x8000_0000
  const Max: int := 0x7fff_ffff

  type int32 = x: int | -0x8000_0000 <= x <= 0x7fff_ffff

  /** The `Int` a mathematical integer denotes after wrap-around. */
  function Wrap(x: int): (r: int32)
    ensures (x - r) % Modulus == 0
    ensures Min <= x <= Max ==> r == x
  {
    var m := x % Modulus;
    if m > Max then m - Modulus else m
  }

  /** Kotlin's `a + b` on `Int`. */
  function Add(a: int32, b: int32): (r: int32)
    ensures Min <= a + b <= Max ==> r == a + b
    ensures a + b > Max ==> r == a + b - Modulus
    ensures a + b < Min ==> r == a + b + Modulus
  {
    var s := a + b;
    if s > Max then
      WrapUnique(s, s - Modulus);
      Wrap(s)
    else if s < Min then
      WrapUnique(s, s + Modulus);
      Wrap(s)
    else
      Wrap(s)
  }

  /** An `Int` congruent to `x` modulo 2^32 is the wrap of `x`. */
  lemma WrapUnique(x: int, a: int)
    requires Min <= a <= Max
    requires (x - a) % Modulus == 0
    ensures Wrap(x) == a
  {
    var w := Wrap(x);
    var k := (x - w) / Modulus;
    var j := (x - a) / Modulus;
    assert x - w == k * Modulus;
    assert x - a == j * Modulus;
    assert a - w == (k - j) * Modulus;
  }

  /** Wrapping an intermediate sum does not change the final wrapped result. */
  lemma WrapAdd(x: int, b: int)
    ensures Wrap(Wrap(x) + b) == Wrap(x + b)
  {
    var w := Wrap(x);
    var v := Wrap(x + b);
    var k := (x - w) / Modulus;
    var j := (x + b - v) / Modulus;
    assert x - w == k * Modulus;
    assert x + b - v == j * Modulus;
    assert (w + b) - v == (j - k) * Modulus;
    assert ((j - k) * Modulus) % Modulus == 0;
    WrapUnique(w + b, v);
  }
}
