/**
 The decimal text of integers, as `strconv.Itoa`, `strconv.FormatInt(_, 10)` and `%d` print
 it and `strconv.Atoi` reads it. Stream ids, page cursors and length constraints all
 depend on this pair being inverse.
 */
module Decimal {
  import opened Wrappers

  const INT64_MIN: int := -0x8000_0000_0000_0000
  const INT64_MAX: int := 0x7FFF_FFFF_FFFF_FFFF

  predicate IsDigit(c: char) {
    '0' <= c <= '9'
  }

  predicate AllDigits(s: string) {
    forall i | 0 <= i < |s| :: IsDigit(s[i])
  }

  function DigitChar(d: nat): (c: char)
    requires d < 10
    ensures IsDigit(c)
  {
    ('0' as int + d) as char
  }

  function DigitValue(c: char): (d: nat)
    requires IsDigit(c)
    ensures d < 10 && DigitChar(d) == c
  {
    c as int - '0' as int
  }

  /** The decimal digits of n, most significant first, without leading zeros. */
  function Digits(n: nat): (s: string)
    ensures |s| > 0 && AllDigits(s)
  {
    if n < 10 then [DigitChar(n)] else Digits(n / 10) + [DigitChar(n % 10)]
  }

  /** The number a run of digits stands for; leading zeros are accepted. */
  function Value(s: string): nat
    requires AllDigits(s)
  {
    if s == "" then 0 else 10 * Value(s[..|s| - 1]) + DigitValue(s[|s| - 1])
  }

  function Itoa(n: int): string {
    if n < 0 then "-" + Digits(-n) else Digits(n)
  }

  /** An optional sign and at least one digit. */
  function ParseInt(s: string): Option<int> {
    var body := if |s| > 0 && (s[0] == '-' || s[0] == '+') then s[1..] else s;
    if body == "" || !AllDigits(body) then None
    else
      var v: int := Value(body);
      Some(if s[0] == '-' then -v else v)
  }

  /** `strconv.Atoi`: as above, and the value must fit 64 bits. */
  function Atoi(s: string): Option<int> {
    match ParseInt(s)
    case None => None
    case Some(n) => if INT64_MIN <= n <= INT64_MAX then Some(n) else None
  }

  lemma {:induction false} ValueOfDigits(n: nat)
    ensures Value(Digits(n)) == n
  {
    if n >= 10 {
      ValueOfDigits(n / 10);
      assert Digits(n)[..|Digits(n)| - 1] == Digits(n / 10);
    }
  }

  /** Printing then parsing returns every integer unchanged. */
  lemma {:induction false} ParseIntItoa(n: int)
    ensures ParseInt(Itoa(n)) == Some(n)
  {
    if n < 0 {
      ValueOfDigits(-n);
      ParseSigned(Digits(-n));
    } else {
      ValueOfDigits(n);
      ParseUnsigned(Digits(n));
    }
  }

  lemma {:induction false} ParseSigned(digits: string)
    requires digits != "" && AllDigits(digits)
    ensures ParseInt("-" + digits) == Some(-(Value(digits) as int))
  {
    assert ("-" + digits)[0] == '-' && ("-" + digits)[1..] == digits;
  }

  lemma {:induction false} ParseUnsigned(digits: string)
    requires digits != "" && AllDigits(digits)
    ensures ParseInt(digits) == Some(Value(digits))
  {
    assert IsDigit(digits[0]);
  }

  /** Within 64 bits, `Atoi` reads back what `Itoa` printed. */
  lemma {:induction false} AtoiItoa(n: int)
    requires INT64_MIN <= n <= INT64_MAX
    ensures Atoi(Itoa(n)) == Some(n)
  {
    ParseIntItoa(n);
  }

  /** Distinct naturals print distinct digits. */
  lemma {:induction false} DigitsInjective(m: nat, n: nat)
    ensures Digits(m) == Digits(n) ==> m == n
  {
    ValueOfDigits(m);
    ValueOfDigits(n);
  }

  /** A minus sign leads the text exactly for negative numbers. */
  lemma {:induction false} ItoaSign(n: int)
    ensures |Itoa(n)| > 0 && (Itoa(n)[0] == '-' <==> n < 0)
    ensures n < 0 ==> Itoa(n)[1..] == Digits(-n)
  {
    if n >= 0 {
      assert IsDigit(Digits(n)[0]);
    }
  }

  /** Distinct integers print distinct text, with no bound on their size. */
  lemma {:induction false} ItoaInjective(m: int, n: int)
    ensures Itoa(m) == Itoa(n) ==> m == n
  {
    ItoaSign(m);
    ItoaSign(n);
    if m < 0 && n < 0 {
      DigitsInjective(-m, -n);
    } else if m >= 0 && n >= 0 {
      DigitsInjective(m, n);
    }
  }
}
