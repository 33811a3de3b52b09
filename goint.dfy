/** Go's `int` on a 64-bit platform: its range and its wrap-around addition. */
module GoInt {

  const Two63: int := 0x8000_0000_0000_0000
  const Two64: int := 0x1_0000_0000_0000_0000
  const MinInt64: int := -Two63
  const MaxInt64: int := Two63 - 1

  predicate InInt64(x: int) {
    MinInt64 <= x <= MaxInt64
  }

  /** The two's-complement value that a 64-bit `int` holds after an operation whose exact result is `x`. */
  function Wrap64(x: int): (r: int)
    ensures InInt64(r)
  {
    (x + Two63) % Two64 - Two63
  }

  /** The wrapped value differs from the exact one by a multiple of 2^64. */
  lemma Wrap64Congruent(x: int)
    ensures (x - Wrap64(x)) % Two64 == 0
  {
    var q := (x + Two63) / Two64;
    assert x + Two63 == q * Two64 + (x + Two63) % Two64;
    assert x - Wrap64(x) == q * Two64;
  }

  /** A value that fits in 64 bits is not changed by wrapping: without overflow the total is exact. */
  lemma Wrap64Exact(x: int)
    requires InInt64(x)
    ensures Wrap64(x) == x
  {
  }

  /** Wrapping after every addition gives the same value as wrapping once at the end. */
  lemma Wrap64Add(a: int, b: int)
    ensures Wrap64(Wrap64(a) + b) == Wrap64(a + b)
  {
    var q := (a + Two63) / Two64;
    assert a + Two63 == q * Two64 + (a + Two63) % Two64;
    assert Wrap64(a) + b + Two63 == (a + b + Two63) - q * Two64;
    ModShift(a + b + Two63, q);
  }

  lemma ModShift(x: int, q: int)
    ensures (x - q * Two64) % Two64 == x % Two64
  {
    var y := x - q * Two64;
    var k := x / Two64 - q;
    assert x == (x / Two64) * Two64 + x % Two64;
    assert y == k * Two64 + x % Two64;
    assert 0 <= x % Two64 < Two64;
  }
}
