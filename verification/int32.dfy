/**
 * Kotlin `Int` arithmetic: 32-bit two's complement that wraps on overflow,
 * as `sumOf`, `+` and `Long.toInt()` do, and `Long.MAX_VALUE`.
 */
module Int32 {

  const MODULUS: int := 0x1_0000_0000
  const MIN: int := -0x8000_0000
  const MAX: int := 0x7fff_ffff

  /** `Long.MAX_VALUE`, the dashboard's "no date" sentinel. */
  const LONG_MAX: int := 0x7fff_ffff_ffff_ffff

  predicate InRange(x: int) {
    MIN <= x <= MAX
  }

  /** The Int that the mathematical value `x` wraps to. */
  function Wrap(x: int): (r: int)
    ensures InRange(r)
    ensures (r - x) % MODULUS == 0
    ensures InRange(x) ==> r == x
  {
    (x - MIN) % MODULUS + MIN
  }

  /** Wrapping an intermediate result does not change the wrapped total. */
  lemma WrapAdd(a: int, b: int)
    ensures Wrap(Wrap(a) + b) == Wrap(a + b)
  {
    var k := (Wrap(a) - a) / MODULUS;
    assert Wrap(a) == a + k * MODULUS;
    WrapShift(a + b, k);
  }

  /** Adding whole multiples of the modulus does not change the wrapped value. */
  lemma WrapShift(x: int, k: int)
    ensures Wrap(x + k * MODULUS) == Wrap(x)
  {
    assert (x + k * MODULUS - MIN) % MODULUS == (x - MIN) % MODULUS;
  }

  /** The mathematical sum. */
  function Sum(xs: seq<int>): int {
    if |xs| == 0 then 0 else Sum(xs[..|xs| - 1]) + xs[|xs| - 1]
  }

  lemma {:induction false} SumAppend(a: seq<int>, b: seq<int>)
    ensures Sum(a + b) == Sum(a) + Sum(b)
  {
    if |b| > 0 {
      assert (a + b)[..|a + b| - 1] == a + b[..|b| - 1];
      SumAppend(a, b[..|b| - 1]);
    } else {
      assert a + b == a;
    }
  }

  /**
   * Kotlin's `sumOf` over Int values: the running total wraps after every
   * addition, so the result is the wrapped mathematical sum, and equal to the
   * sum itself whenever that fits in an Int.
   */
  function WrappingSum(xs: seq<int>): (r: int)
    ensures r == Wrap(Sum(xs))
    ensures InRange(Sum(xs)) ==> r == Sum(xs)
  {
    if |xs| == 0 then 0
    else
      var acc := WrappingSum(xs[..|xs| - 1]);
      WrapAdd(Sum(xs[..|xs| - 1]), xs[|xs| - 1]);
      Wrap(acc + xs[|xs| - 1])
  }
}
