/**
 * Decimal text of natural numbers: what `boost::lexical_cast<std::string>` produces
 * for an `unsigned`, and the value `boost::lexical_cast<unsigned>` reads back from a
 * string of decimal digits.
 */
module DecimalText {

  function Pow10(k: nat): (p: nat)
    ensures p >= 1
  {
    if k == 0 then 1 else 10 * Pow10(k - 1)
  }

  predicate IsDigit(c: char) {
    '0' <= c <= '9'
  }

  predicate IsDigits(s: string) {
    forall i :: 0 <= i < |s| ==> IsDigit(s[i])
  }

  function DigitChar(d: nat): (c: char)
    requires d < 10
    ensures IsDigit(c) && c as int - '0' as int == d
  {
    ('0' as int + d) as char
  }

  function DigitValue(c: char): (d: nat)
    requires IsDigit(c)
    ensures d < 10 && DigitChar(d) == c
  {
    c as int - '0' as int
  }

  /** Shortest decimal text of `n`: no leading zero, and "0" for zero. */
  function Decimal(n: nat): (s: string)
    ensures |s| >= 1 && IsDigits(s)
    ensures s[0] == '0' <==> n == 0
    ensures |s| == 1 <==> n < 10
  {
    if n < 10 then [DigitChar(n)] else Decimal(n / 10) + [DigitChar(n % 10)]
  }

  /** The number a string of decimal digits denotes (leading zeros allowed). */
  function ValueOf(s: string): nat
    requires IsDigits(s)
  {
    if s == [] then 0 else ValueOf(s[..|s| - 1]) * 10 + DigitValue(s[|s| - 1])
  }

  /** Reading back the decimal text of `n` gives `n`. */
  lemma {:induction false} ValueOfDecimal(n: nat)
    ensures ValueOf(Decimal(n)) == n
  {
    if n >= 10 {
      var s := Decimal(n);
      assert s[..|s| - 1] == Decimal(n / 10);
      ValueOfDecimal(n / 10);
    }
  }

  /** The value of a concatenation: the left part is shifted by the length of the right. */
  lemma {:induction false} ValueOfConcat(s: string, t: string)
    requires IsDigits(s) && IsDigits(t)
    ensures IsDigits(s + t)
    ensures ValueOf(s + t) == ValueOf(s) * Pow10(|t|) + ValueOf(t)
  {
    if t == [] {
      assert s + t == s;
    } else {
      var u := t[..|t| - 1];
      assert (s + t)[..|s + t| - 1] == s + u;
      ValueOfConcat(s, u);
      calc {
        ValueOf(s + t);
        ValueOf(s + u) * 10 + DigitValue(t[|t| - 1]);
        (ValueOf(s) * Pow10(|u|) + ValueOf(u)) * 10 + DigitValue(t[|t| - 1]);
        { assert (ValueOf(s) * Pow10(|u|)) * 10 == ValueOf(s) * (Pow10(|u|) * 10); }
        ValueOf(s) * Pow10(|t|) + ValueOf(t);
      }
    }
  }

  /** `Decimal(n)` has exactly as many digits as `n` needs: 10^(k-1) <= n < 10^k for n >= 1. */
  lemma {:induction false} DecimalLength(n: nat)
    ensures n < Pow10(|Decimal(n)|)
    ensures n >= 1 ==> Pow10(|Decimal(n)| - 1) <= n
  {
    if n >= 10 {
      DecimalLength(n / 10);
    }
  }
}
