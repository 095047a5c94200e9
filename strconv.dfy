/**
 * The two pieces of Go's strconv/fmt the request path relies on, on decimal text:
 * - Atoi, which the by-id handler applies to the text after "/data/" (main.go:86);
 * - Itoa, the `%d` rendering the demo client uses to build that path (client.go:54).
 * The model assumes a 64-bit build, where Go's `int` is 64 bits wide, so Atoi accepts
 * exactly the values of [MinInt64, MaxInt64].
 */
module Strconv {
  import opened Wrappers

  const MaxInt64: int := 0x7FFF_FFFF_FFFF_FFFF
  const MinInt64: int := -0x8000_0000_0000_0000

  predicate InInt64Range(n: int) {
    MinInt64 <= n <= MaxInt64
  }

  predicate IsDigit(c: char) {
    '0' <= c <= '9'
  }

  predicate AllDigits(s: string) {
    forall i :: 0 <= i < |s| ==> IsDigit(s[i])
  }

  function DigitValue(c: char): (d: nat)
    requires IsDigit(c)
    ensures d < 10
  {
    (c as int) - ('0' as int)
  }

  function DigitChar(d: nat): (c: char)
    requires d < 10
    ensures IsDigit(c) && DigitValue(c) == d
  {
    ('0' as int + d) as char
  }

  /** The number a string of decimal digits denotes, most significant digit first. */
  function DigitsValue(s: string): nat
    requires AllDigits(s)
  {
    if s == [] then 0 else DigitsValue(s[..|s| - 1]) * 10 + DigitValue(s[|s| - 1])
  }

  /** Go accepts one leading '+' or '-' before the digits. */
  predicate HasSign(s: string) {
    |s| > 0 && (s[0] == '+' || s[0] == '-')
  }

  predicate IsNegative(s: string) {
    |s| > 0 && s[0] == '-'
  }

  function Magnitude(s: string): string {
    if HasSign(s) then s[1..] else s
  }

  /** Decimal syntax accepted by Atoi with base 10: an optional sign and at least one digit (no underscores). */
  predicate IsDecimal(s: string) {
    |Magnitude(s)| > 0 && AllDigits(Magnitude(s))
  }

  /**
   * strconv.Atoi: None is Go's non-nil error, both the syntax error (empty text,
   * a lone sign, a non-digit) and the range error (a value outside int64).
   */
  function Atoi(s: string): (r: Option<int>)
    ensures r.Some? ==> IsDecimal(s) && InInt64Range(r.value)
    ensures r.Some? ==> (r.value < 0 ==> IsNegative(s))
  {
    var m := Magnitude(s);
    if |m| == 0 || !AllDigits(m) then None
    else
      var v: int := if IsNegative(s) then -(DigitsValue(m) as int) else DigitsValue(m);
      if MinInt64 <= v <= MaxInt64 then Some(v) else None
  }

  /** Decimal digits of a natural number without leading zeros. */
  function NatDigits(n: nat): (s: string)
    ensures |s| > 0 && AllDigits(s)
    ensures |s| > 1 ==> s[0] != '0'
  {
    if n < 10 then [DigitChar(n)] else NatDigits(n / 10) + [DigitChar(n % 10)]
  }

  /** strconv.Itoa, the text `fmt.Sprintf("%d", n)` produces. */
  function Itoa(n: int): (s: string)
    ensures IsDecimal(s)
    ensures !HasSign(s) || IsNegative(s)
    ensures IsNegative(s) <==> n < 0
  {
    if n < 0 then "-" + NatDigits(-n) else NatDigits(n)
  }

  lemma {:induction false} DigitsValueOfNatDigits(n: nat)
    ensures DigitsValue(NatDigits(n)) == n
  {
    var s := NatDigits(n);
    if n >= 10 {
      assert s[..|s| - 1] == NatDigits(n / 10);
      DigitsValueOfNatDigits(n / 10);
    }
  }

  /** Parsing what Itoa renders gives the number back, for every value of Go's int. */
  lemma AtoiOfItoa(n: int)
    requires InInt64Range(n)
    ensures Atoi(Itoa(n)) == Some(n)
  {
    if n < 0 {
      assert Magnitude(Itoa(n)) == NatDigits(-n);
      DigitsValueOfNatDigits(-n);
    } else {
      assert Magnitude(Itoa(n)) == NatDigits(n);
      DigitsValueOfNatDigits(n);
    }
  }

  lemma {:induction false} DigitsValueLeadingZero(s: string)
    requires AllDigits(s)
    ensures AllDigits("0" + s) && DigitsValue("0" + s) == DigitsValue(s)
  {
    if s != [] {
      var t := "0" + s;
      assert t[..|t| - 1] == "0" + s[..|s| - 1];
      DigitsValueLeadingZero(s[..|s| - 1]);
    }
  }

  /** Atoi accepts leading zeros: "007" parses as 7, "0" + s as s. */
  lemma AtoiLeadingZero(s: string)
    requires |s| > 0 && AllDigits(s)
    ensures Atoi("0" + s) == Atoi(s)
  {
    DigitsValueLeadingZero(s);
    assert Magnitude("0" + s) == "0" + s;
    assert Magnitude(s) == s;
  }

  /** A character other than a digit after the optional sign makes Atoi fail. */
  lemma AtoiRejectsNonDigit(s: string, i: nat)
    requires i < |Magnitude(s)| && !IsDigit(Magnitude(s)[i])
    ensures Atoi(s) == None
  {
  }

  /** Canonical decimal text: what Itoa produces (no '+', no leading zero, no "-0"). */
  predicate IsCanonical(s: string) {
    && IsDecimal(s)
    && (HasSign(s) ==> IsNegative(s))
    && (|Magnitude(s)| > 1 ==> Magnitude(s)[0] != '0')
    && (IsNegative(s) ==> Magnitude(s) != "0")
  }

  lemma {:induction false} DigitsValueAtLeastFirst(s: string)
    requires |s| > 0 && AllDigits(s)
    ensures DigitsValue(s) >= DigitValue(s[0])
  {
    if |s| > 1 {
      DigitsValueAtLeastFirst(s[..|s| - 1]);
    }
  }

  lemma {:induction false} NatDigitsOfDigitsValue(s: string)
    requires |s| > 0 && AllDigits(s)
    requires |s| > 1 ==> s[0] != '0'
    ensures NatDigits(DigitsValue(s)) == s
  {
    if |s| > 1 {
      var t := s[..|s| - 1];
      DigitsValueAtLeastFirst(t);
      NatDigitsOfDigitsValue(t);
      assert s == t + [s[|s| - 1]];
    }
  }

  /** On canonical text Atoi is injective: rendering its result gives the text back. */
  lemma ItoaOfAtoi(s: string)
    requires IsCanonical(s) && Atoi(s).Some?
    ensures Itoa(Atoi(s).value) == s
  {
    var m := Magnitude(s);
    NatDigitsOfDigitsValue(m);
    if IsNegative(s) {
      assert DigitsValue(m) != 0;
      assert s == "-" + m;
    }
  }

  /** A leading '+' is accepted and changes nothing: "+7" parses as 7. */
  lemma AtoiPlusSign(s: string)
    requires |s| > 0 && AllDigits(s)
    ensures Atoi("+" + s) == Atoi(s)
  {
  }

  /** Leading zeros after '-' are accepted too: "-07" parses as -7. */
  lemma AtoiNegLeadingZero(s: string)
    requires |s| > 0 && AllDigits(s)
    ensures Atoi("-0" + s) == Atoi("-" + s)
  {
    DigitsValueLeadingZero(s);
    assert Magnitude("-0" + s) == "0" + s;
    assert Magnitude("-" + s) == s;
  }

  /** "-0" is accepted and denotes 0, as Go's sign handling and digit loop give. */
  lemma AtoiNegZero()
    ensures Atoi("-0") == Some(0)
  {
  }
}
