/**
 * The decimal rendering of an integer, as Kotlin's `Int.toString()` produces it
 * (an optional minus sign, then the digits without leading zeros), together with
 * the parser that inverts it. `withStatus(Int)` stores this rendering as the
 * status of a response entry.
 */
module Decimal {
  import opened Wrappers

  predicate IsDigit(c: char) {
    '0' <= c <= '9'
  }

  predicate AllDigits(s: string) {
    forall i :: 0 <= i < |s| ==> IsDigit(s[i])
  }

  /** A non-empty run of digits with no leading zero, unless it is "0" itself. */
  predicate IsNatural(s: string) {
    |s| >= 1 && AllDigits(s) && (s[0] == '0' ==> |s| == 1)
  }

  /** What `Int.toString()` can produce: a natural, or '-' before a non-zero natural. */
  predicate IsCanonicalDecimal(s: string) {
    IsNatural(s) || (|s| >= 2 && s[0] == '-' && IsNatural(s[1..]) && s[1] != '0')
  }

  function DigitValue(c: char): (d: nat)
    requires IsDigit(c)
    ensures d < 10
  {
    c as int - '0' as int
  }

  function DigitChar(d: nat): (c: char)
    requires d < 10
    ensures IsDigit(c) && DigitValue(c) == d
  {
    ('0' as int + d) as char
  }

  /** The digits of n, most significant first. */
  function NatDigits(n: nat): (s: string)
    ensures IsNatural(s)
    ensures s[0] == '0' <==> n == 0
    decreases n
  {
    if n < 10 then [DigitChar(n)] else NatDigits(n / 10) + [DigitChar(n % 10)]
  }

  /** `Int.toString()`: a minus sign for a negative number, then the digits of its magnitude. */
  function DecimalString(n: int): (s: string)
    ensures IsCanonicalDecimal(s)
    ensures |s| >= 1 && (s[0] == '-' <==> n < 0)
  {
    if n < 0 then "-" + NatDigits(-n) else NatDigits(n)
  }

  /** The value a run of digits denotes, read most significant digit first. */
  function DigitsValue(s: string): nat
    requires AllDigits(s)
  {
    if s == [] then 0 else DigitsValue(s[..|s| - 1]) * 10 + DigitValue(s[|s| - 1])
  }

  /** The reading of a decimal string back into the integer it names; None when it names none. */
  function ParseDecimal(s: string): Option<int> {
    if |s| >= 2 && s[0] == '-' && AllDigits(s[1..]) then Some(-(DigitsValue(s[1..]) as int))
    else if |s| >= 1 && AllDigits(s) then Some(DigitsValue(s))
    else None
  }

  lemma {:induction false} DigitsValueOfNatDigits(n: nat)
    ensures DigitsValue(NatDigits(n)) == n
    decreases n
  {
    if n >= 10 {
      var s := NatDigits(n);
      assert s[..|s| - 1] == NatDigits(n / 10);
      DigitsValueOfNatDigits(n / 10);
    }
  }

  /** A run of digits is worth at least its leading digit. */
  lemma {:induction false} DigitsValueAtLeastLead(s: string)
    requires |s| >= 1 && AllDigits(s)
    ensures DigitsValue(s) >= DigitValue(s[0])
    decreases |s|
  {
    if |s| > 1 {
      DigitsValueAtLeastLead(s[..|s| - 1]);
    }
  }

  lemma {:induction false} NatDigitsOfDigitsValue(s: string)
    requires IsNatural(s)
    ensures NatDigits(DigitsValue(s)) == s
    decreases |s|
  {
    if |s| > 1 {
      var p := s[..|s| - 1];
      assert IsNatural(p);
      DigitsValueAtLeastLead(p);
      NatDigitsOfDigitsValue(p);
      var v := DigitsValue(s);
      assert v / 10 == DigitsValue(p) && v % 10 == DigitValue(s[|s| - 1]);
      assert s == p + [s[|s| - 1]];
    }
  }

  /** Parsing undoes rendering: every integer reads back as itself. */
  lemma DecimalRoundTrip(n: int)
    ensures ParseDecimal(DecimalString(n)) == Some(n)
  {
    if n < 0 {
      assert DecimalString(n)[1..] == NatDigits(-n);
      DigitsValueOfNatDigits(-n);
    } else {
      DigitsValueOfNatDigits(n);
    }
  }

  /** Rendering undoes parsing on exactly the canonical strings. */
  lemma CanonicalRoundTrip(s: string)
    requires IsCanonicalDecimal(s)
    ensures ParseDecimal(s).Some? && DecimalString(ParseDecimal(s).value) == s
  {
    if s[0] == '-' {
      var t := s[1..];
      DigitsValueAtLeastLead(t);
      NatDigitsOfDigitsValue(t);
      assert s == "-" + t;
    } else {
      NatDigitsOfDigitsValue(s);
    }
  }

  /** Distinct status codes never render to the same status string. */
  lemma DecimalStringInjective(a: int, b: int)
    requires DecimalString(a) == DecimalString(b)
    ensures a == b
  {
    DecimalRoundTrip(a);
    DecimalRoundTrip(b);
  }

  lemma RenderingOfOk()
    ensures DecimalString(200) == "200"
  {
  }
}
