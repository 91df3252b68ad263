/** The generation as the snapshotter stores it: strconv.FormatInt and strconv.ParseInt in base 10 with a
    64-bit range check. */
module Decimal {
  import opened Options

  const MIN_INT64: int := -0x8000_0000_0000_0000
  const MAX_INT64: int := 0x7FFF_FFFF_FFFF_FFFF

  predicate IsInt64(n: int) { MIN_INT64 <= n <= MAX_INT64 }

  predicate IsDigit(c: char) { '0' <= c <= '9' }

  function DigitOf(d: nat): (c: char)
    requires d < 10
    ensures IsDigit(c) && ValueOf(c) == d
  {
    '0' + d as char
  }

  function ValueOf(c: char): nat
    requires IsDigit(c)
  {
    c as int - '0' as int
  }

  function Digits(n: nat): (s: string)
    ensures |s| > 0 && forall c | c in s :: IsDigit(c)
  {
    if n < 10 then [DigitOf(n)] else Digits(n / 10) + [DigitOf(n % 10)]
  }

  function FormatInt(n: int): string {
    if n < 0 then "-" + Digits(-n) else Digits(n)
  }

  predicate AllDigits(s: string) { |s| > 0 && forall i | 0 <= i < |s| :: IsDigit(s[i]) }

  /** The unsigned value of a digit string, most significant digit first. */
  function Magnitude(s: string): nat
    requires forall i | 0 <= i < |s| :: IsDigit(s[i])
  {
    if s == [] then 0 else 10 * Magnitude(s[..|s| - 1]) + ValueOf(s[|s| - 1])
  }

  /** An optional sign, then digits; values outside 64 bits are refused. */
  function ParseInt(s: string): Option<int> {
    var signed := |s| > 0 && (s[0] == '-' || s[0] == '+');
    var digits := if signed then s[1..] else s;
    if !AllDigits(digits) then None
    else
      var n: int := if signed && s[0] == '-' then 0 - Magnitude(digits) else Magnitude(digits);
      if IsInt64(n) then Some(n) else None
  }

  lemma {:induction false} MagnitudeOfDigits(n: nat)
    ensures AllDigits(Digits(n)) && Magnitude(Digits(n)) == n
  {
    var s := Digits(n);
    assert forall i | 0 <= i < |s| :: s[i] in s;
    if n >= 10 {
      MagnitudeOfDigits(n / 10);
      assert s[..|s| - 1] == Digits(n / 10);
    } else {
      assert s[..|s| - 1] == [];
    }
  }

  /** What is written is decimal: a minus sign for a negative number, then its digits without leading zeros. */
  lemma FormatIsDecimal(n: nat)
    ensures n < 10 ==> FormatInt(n) == ["0123456789"[n]]
    ensures n >= 10 ==> FormatInt(n) == FormatInt(n / 10) + ["0123456789"[n % 10]]
    ensures n > 0 ==> FormatInt(0 - n) == "-" + FormatInt(n)
  {
    assert forall d: nat | d < 10 :: DigitOf(d) == "0123456789"[d];
  }

  /** A sign before the digits of a number: plus changes nothing, minus negates, as far as 64 bits go. */
  lemma ParseSigns(n: nat)
    ensures ParseInt("+" + FormatInt(n)) == ParseInt(FormatInt(n))
    ensures ParseInt("-" + FormatInt(n)) == if n <= 9223372036854775808 then Some(0 - n) else None
  {
    MagnitudeOfDigits(n);
    var plus, minus := "+" + Digits(n), "-" + Digits(n);
    assert plus[1..] == Digits(n) && minus[1..] == Digits(n);
    assert IsDigit(Digits(n)[0]);
  }

  /** Parsing what was written gives the number back, for every number of 64 bits and for no other. */
  lemma FormatParse(n: int)
    ensures ParseInt(FormatInt(n)) == if IsInt64(n) then Some(n) else None
    ensures IsInt64(n) <==> -9223372036854775808 <= n <= 9223372036854775807
  {
    var m := if n < 0 then -n else n;
    MagnitudeOfDigits(m);
    var s := FormatInt(n);
    if n < 0 {
      assert s[1..] == Digits(m);
    } else {
      assert IsDigit(s[0]);
    }
  }

  /** So two generations are stored alike only if they are the same. */
  lemma FormatIsInjective(n: int, m: int)
    requires IsInt64(n) && IsInt64(m) && FormatInt(n) == FormatInt(m)
    ensures n == m
  {
    FormatParse(n);
    FormatParse(m);
  }
}
