/**
 * The pieces of the Java runtime that the game controller leans on to read its
 * input and its configuration: how `Scanner.hasNextInt`/`nextInt` decide that a
 * token is an `int` and which value it denotes, and how `Boolean.parseBoolean`
 * reads a flag. Decimal rendering of integers is given as a partner of the
 * integer reader, which reads every rendered numeral back to the same integer
 * within the `int` range, so that the acceptance of numerals can be stated for
 * every integer.
 */
module Parsing {

  datatype Option<+T> = None | Some(value: T)

  /** Bounds of a Java `int`; a numeral outside them is not an `int` token. */
  const IntMin: int := -0x8000_0000
  const IntMax: int := 0x7fff_ffff

  predicate IsDigit(c: char) {
    '0' <= c <= '9'
  }

  predicate AllDigits(s: string) {
    forall i :: 0 <= i < |s| ==> IsDigit(s[i])
  }

  /** Value of a decimal numeral; leading zeros are allowed. */
  function DigitsValue(s: string): nat
    requires AllDigits(s)
  {
    if s == [] then 0
    else DigitsValue(s[..|s| - 1]) * 10 + (s[|s| - 1] as int - '0' as int)
  }

  /** A numeral has the value 0 exactly when all its digits are '0'. */
  lemma {:induction false} DigitsValueZero(s: string)
    requires AllDigits(s)
    ensures DigitsValue(s) == 0 <==> forall i :: 0 <= i < |s| ==> s[i] == '0'
  {
    if s != [] {
      var p := s[..|s| - 1];
      DigitsValueZero(p);
      assert forall i :: 0 <= i < |p| ==> p[i] == s[i];
    }
  }

  /**
   * Reads a token the way `Scanner.nextInt` does in radix 10: an optional sign
   * followed by at least one decimal digit, whose value fits in an `int`.
   * Anything else is not an integer token (`hasNextInt` answers false).
   */
  function ParseInt(t: string): (r: Option<int>)
    ensures r.Some? ==> IntMin <= r.value <= IntMax
    ensures r.Some? ==> exists i :: 0 <= i < |t| && IsDigit(t[i])
  {
    var negative := |t| > 0 && t[0] == '-';
    var digits := if |t| > 0 && (t[0] == '-' || t[0] == '+') then t[1..] else t;
    if digits == [] || !AllDigits(digits) then None
    else
      var magnitude: int := DigitsValue(digits);
      var n := if negative then -magnitude else magnitude;
      assert IsDigit(t[|t| - 1]);
      if IntMin <= n <= IntMax then Some(n) else None
  }

  function DigitChar(d: nat): (c: char)
    requires d < 10
    ensures IsDigit(c) && c as int - '0' as int == d
  {
    ('0' as int + d) as char
  }

  /** Shortest decimal numeral of a natural number. */
  function NatToDigits(n: nat): string
    decreases n
  {
    if n < 10 then [DigitChar(n)]
    else NatToDigits(n / 10) + [DigitChar(n % 10)]
  }

  /** Decimal rendering of an integer, with a leading '-' when negative. */
  function IntToString(n: int): string {
    if n < 0 then "-" + NatToDigits(-n) else NatToDigits(n)
  }

  lemma {:induction false} NatToDigitsValue(n: nat)
    ensures |NatToDigits(n)| > 0 && AllDigits(NatToDigits(n))
    ensures DigitsValue(NatToDigits(n)) == n
    decreases n
  {
    var s := NatToDigits(n);
    if n >= 10 {
      NatToDigitsValue(n / 10);
      assert s[..|s| - 1] == NatToDigits(n / 10);
    }
  }

  /**
   * Reading back the rendering of any integer gives that integer when it fits
   * in an `int`, and no integer at all when it overflows.
   */
  lemma ParseIntToString(n: int)
    ensures ParseInt(IntToString(n)) == if IntMin <= n <= IntMax then Some(n) else None
  {
    if n < 0 {
      NatToDigitsValue(-n);
      assert ("-" + NatToDigits(-n))[1..] == NatToDigits(-n);
    } else {
      NatToDigitsValue(n);
      assert IsDigit(NatToDigits(n)[0]);
    }
  }

  /** ASCII case folding, as `Character.toLowerCase` does on ASCII letters. */
  function ToLowerAscii(c: char): char {
    if 'A' <= c <= 'Z' then (c as int + 32) as char else c
  }

  predicate EqualsIgnoreCase(a: string, b: string) {
    |a| == |b| && forall i :: 0 <= i < |a| ==> ToLowerAscii(a[i]) == ToLowerAscii(b[i])
  }

  /**
   * `Boolean.parseBoolean`: true exactly for the four letters of "true", each
   * in either case; every other text, including the empty one, reads as false.
   */
  function ParseBoolean(s: string): (b: bool)
    ensures b <==> |s| == 4 && forall i :: 0 <= i < 4 ==> s[i] == "true"[i] || s[i] == "TRUE"[i]
  {
    EqualsIgnoreCase(s, "true")
  }
}
