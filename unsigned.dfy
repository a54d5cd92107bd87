/** C++ `unsigned` arithmetic: 32-bit values, every result reduced modulo 2^32. */
module Unsigned {

  /** 2^32: the number of distinct `unsigned` values. */
  const MODULUS: int := 0x1_0000_0000

  /** An `unsigned` value. */
  type U32 = x: int | 0 <= x < MODULUS

  /** The `unsigned` value that an exact integer result is converted to. */
  function Wrap(x: int): (r: U32)
    ensures 0 <= x < MODULUS ==> r == x
    ensures MODULUS <= x < 2 * MODULUS ==> r == x - MODULUS
    ensures -MODULUS <= x < 0 ==> r == x + MODULUS
  {
    x % MODULUS
  }

  /** Adding a multiple of 2^32 does not change the wrapped value. */
  lemma WrapShift(x: int, k: int)
    ensures Wrap(x + k * MODULUS) == Wrap(x)
  {
  }

  /** Wrapping an intermediate result early does not change the final wrapped value. */
  lemma WrapAbsorbs(x: int, y: int)
    ensures Wrap(Wrap(x) + y) == Wrap(x + y)
  {
  }

  /** The exact (unbounded) sum of a sequence of values. */
  function Sum(xs: seq<U32>): (s: int)
    ensures 0 <= s <= |xs| * (MODULUS - 1)
  {
    if xs == [] then 0 else xs[0] + Sum(xs[1..])
  }

  lemma {:induction false} SumAppend(xs: seq<U32>, ys: seq<U32>)
    ensures Sum(xs + ys) == Sum(xs) + Sum(ys)
  {
    if xs == [] {
      assert xs + ys == ys;
    } else {
      assert (xs + ys)[1..] == xs[1..] + ys;
      SumAppend(xs[1..], ys);
    }
  }

  /** Sum of a prefix one longer: the last element is added at the end. */
  lemma SumSnoc(xs: seq<U32>, x: U32)
    ensures Sum(xs + [x]) == Sum(xs) + x
  {
    SumAppend(xs, [x]);
    assert Sum([x]) == x + Sum([]);
  }
}
