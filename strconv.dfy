/**
 * The decimal integer syntax accepted by Go's `strconv.Atoi` on a 64-bit
 * platform, and its inverse, the decimal rendering of an integer.
 */
module Strconv {
  import opened Base

  const MinInt: int := -0x8000_0000_0000_0000
  const MaxInt: int := 0x7fff_ffff_ffff_ffff

  const PLUS: byte := 43   // '+'
  const MINUS: byte := 45  // '-'
  const ZERO: byte := 48   // '0'

  predicate IsDigit(b: byte) { ZERO <= b <= ZERO + 9 }

  predicate AllDigits(s: seq<byte>) { forall i :: 0 <= i < |s| ==> IsDigit(s[i]) }

  /** The value of a non-empty run of decimal digits, most significant first. */
  function DigitsValue(s: seq<byte>): nat
    requires AllDigits(s)
  {
    if s == [] then 0 else DigitsValue(s[..|s| - 1]) * 10 + (s[|s| - 1] - ZERO) as int
  }

  /** An optional sign followed by at least one decimal digit. */
  predicate IsDecimal(s: seq<byte>)
  {
    var body := if |s| > 0 && (s[0] == PLUS || s[0] == MINUS) then s[1..] else s;
    |body| > 0 && AllDigits(body)
  }

  function DecimalValue(s: seq<byte>): int
    requires IsDecimal(s)
  {
    if s[0] == MINUS then 0 - DigitsValue(s[1..])
    else if s[0] == PLUS then DigitsValue(s[1..])
    else DigitsValue(s)
  }

  /**
   * strconv.Atoi: the value of `s` when it is a signed decimal within the
   * range of Go's 64-bit `int`; no result (a syntax or range error) otherwise.
   */
  function Atoi(s: seq<byte>): Option<int>
  {
    if IsDecimal(s) && MinInt <= DecimalValue(s) <= MaxInt then Some(DecimalValue(s)) else None
  }

  /** The shortest decimal digits of a natural number. */
  function Digits(n: nat): (r: seq<byte>)
    decreases n
  {
    if n < 10 then [ZERO + n as byte] else Digits(n / 10) + [ZERO + (n % 10) as byte]
  }

  /** Decimal rendering of an integer, with a leading '-' when negative (Python's str()). */
  function Itoa(n: int): seq<byte>
  {
    if n < 0 then [MINUS] + Digits(-n) else Digits(n)
  }

  lemma {:induction false} DigitsCorrect(n: nat)
    ensures |Digits(n)| > 0 && AllDigits(Digits(n))
    ensures DigitsValue(Digits(n)) == n
    decreases n
  {
    if n >= 10 {
      DigitsCorrect(n / 10);
      var d := Digits(n);
      assert d[..|d| - 1] == Digits(n / 10);
    }
  }

  /** Every integer in range survives rendering and re-parsing by Atoi. */
  lemma AtoiItoa(n: int)
    requires MinInt <= n <= MaxInt
    ensures Atoi(Itoa(n)) == Some(n)
  {
    if n < 0 {
      DigitsCorrect(-n);
      assert Itoa(n)[1..] == Digits(-n);
    } else {
      DigitsCorrect(n);
      assert Digits(n)[0] != PLUS && Digits(n)[0] != MINUS;
    }
  }
}
