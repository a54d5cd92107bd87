/**
 * The strategies ("computers"): each exposes `compute(a, b)` on two `unsigned` operands.
 * The family deriving from the `Computer` interface (`AdditionComputer`, ...) and the
 * family of unrelated structs (`Addition`, ...) compute the same values, so each
 * operation is modelled once.
 */
module Computers {
  import opened Unsigned
  import opened DecimalText

  /** `Addition::compute`: `a + b` in `unsigned`, wrapping past 2^32 - 1. */
  function Addition(a: U32, b: U32): (r: U32)
    ensures a + b < MODULUS ==> r == a + b
    ensures a + b >= MODULUS ==> r == a + b - MODULUS
  {
    Wrap(a + b)
  }

  /** `Subtraction::compute`: `a - b` in `unsigned`; a larger `b` wraps instead of failing. */
  function Subtraction(a: U32, b: U32): (r: U32)
    ensures b <= a ==> r == a - b
    ensures a < b ==> r == MODULUS - (b - a)
  {
    Wrap(a - b)
  }

  /** `Multiplication::compute`: `a * b` in `unsigned`, keeping the low 32 bits. */
  function Multiplication(a: U32, b: U32): (r: U32)
    ensures a * b < MODULUS ==> r == a * b
    ensures exists k: nat :: a * b == k * MODULUS + r
  {
    var q := (a * b) / MODULUS;
    assert a * b == q * MODULUS + Wrap(a * b);
    Wrap(a * b)
  }

  /** Subtraction undoes addition, including when the addition wrapped. */
  lemma SubtractionUndoesAddition(a: U32, b: U32)
    ensures Subtraction(Addition(a, b), b) == a
  {
  }

  /** Addition undoes subtraction, including when the subtraction wrapped. */
  lemma AdditionUndoesSubtraction(a: U32, b: U32)
    ensures Addition(Subtraction(a, b), b) == a
  {
  }

  /** Wrapping multiplication distributes over wrapping addition, as in the ring Z/2^32. */
  lemma MultiplicationDistributes(a: U32, b: U32, c: U32)
    ensures Multiplication(a, Addition(b, c)) == Addition(Multiplication(a, b), Multiplication(a, c))
  {
    var q := (b + c) / MODULUS;
    assert Addition(b, c) == b + c - q * MODULUS;
    calc {
      Multiplication(a, Addition(b, c));
      Wrap(a * (b + c - q * MODULUS));
      { assert a * (b + c - q * MODULUS) == a * b + a * c + (-(a * q)) * MODULUS; }
      Wrap(a * b + a * c + (-(a * q)) * MODULUS);
      { WrapShift(a * b + a * c, -(a * q)); }
      Wrap(a * b + a * c);
      { WrapAbsorbs(a * b, a * c); }
      Wrap(Wrap(a * b) + a * c);
      { WrapAbsorbs(a * c, Wrap(a * b)); }
      Wrap(Wrap(a * b) + Wrap(a * c));
    }
  }

  /**
   * `AccumulateFirstArg` (and `AccumulateFirstArgComputer`): a private running total,
   * 0 at construction, into which `compute` adds its first argument.
   */
  class AccumulateFirstArg {
    var accum: U32

    constructor ()
      ensures accum == 0
    {
      accum := 0;
    }

    /** Adds `a` into the total and returns the new total; `b` is ignored. */
    method Compute(a: U32, b: U32) returns (r: U32)
      modifies this
      ensures accum == Addition(old(accum), a)
      ensures r == accum
    {
      accum := Addition(accum, a);
      r := accum;
    }
  }

  /** The exception `boost::lexical_cast` throws when the text does not fit the target type. */
  datatype CastError = BadLexicalCast

  datatype Result<T> = Success(value: T) | Failure(error: CastError)

  /** `boost::lexical_cast<unsigned>` on a non-empty string of decimal digits. */
  function ParseUnsigned(s: string): (r: Result<U32>)
    requires |s| > 0 && IsDigits(s)
    ensures r.Success? <==> ValueOf(s) < MODULUS
    ensures r.Success? ==> r.value == ValueOf(s)
  {
    var v := ValueOf(s);
    if v < MODULUS then Success(v) else Failure(BadLexicalCast)
  }

  /**
   * `StringConcatComputer::compute`: the number whose decimal text is the digits of `a`
   * followed by the digits of `b`; a number that does not fit `unsigned` is a cast failure.
   */
  function StringConcat(a: U32, b: U32): (r: Result<U32>)
    ensures r.Success? <==> a * Pow10(|Decimal(b)|) + b < MODULUS
    ensures r.Success? ==> r.value == a * Pow10(|Decimal(b)|) + b
  {
    ValueOfConcat(Decimal(a), Decimal(b));
    ValueOfDecimal(a);
    ValueOfDecimal(b);
    ParseUnsigned(Decimal(a) + Decimal(b))
  }

  lemma StringConcatExamples()
    ensures StringConcat(12, 34) == Success(1234)
    ensures StringConcat(5, 0) == Success(50)
    ensures StringConcat(0, 7) == Success(7)
    ensures StringConcat(MODULUS - 1, 1).Failure?
  {
  }
}
