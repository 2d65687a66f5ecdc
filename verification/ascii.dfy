/**
 * ASCII-only stand-ins for Python's `str.upper`, `str.lower` and `str(int)`.
 * Only the letters A-Z and a-z change case; every other character is kept.
 */
module Ascii {

  predicate IsUpperLetter(c: char) { 'A' <= c <= 'Z' }

  predicate IsLowerLetter(c: char) { 'a' <= c <= 'z' }

  /** No character of `s` is an upper-case ASCII letter. */
  predicate NoUpper(s: string) { forall i :: 0 <= i < |s| ==> !IsUpperLetter(s[i]) }

  /** No character of `s` is a lower-case ASCII letter. */
  predicate NoLower(s: string) { forall i :: 0 <= i < |s| ==> !IsLowerLetter(s[i]) }

  function UpperChar(c: char): (u: char)
    ensures !IsLowerLetter(u)
    ensures !IsLowerLetter(c) ==> u == c
    ensures IsLowerLetter(c) ==> IsUpperLetter(u) && u as int + 32 == c as int
  {
    if IsLowerLetter(c) then (c as int - 32) as char else c
  }

  function LowerChar(c: char): (l: char)
    ensures !IsUpperLetter(l)
    ensures !IsUpperLetter(c) ==> l == c
    ensures IsUpperLetter(c) ==> IsLowerLetter(l) && l as int == c as int + 32
  {
    if IsUpperLetter(c) then (c as int + 32) as char else c
  }

  /** `s.upper()`: same length, every character folded to upper case. */
  function Upper(s: string): (r: string)
    ensures |r| == |s| && NoLower(r)
    ensures forall i :: 0 <= i < |s| ==> r[i] == UpperChar(s[i])
  {
    seq(|s|, i requires 0 <= i < |s| => UpperChar(s[i]))
  }

  /** `s.lower()`: same length, every character folded to lower case. */
  function Lower(s: string): (r: string)
    ensures |r| == |s| && NoUpper(r)
    ensures forall i :: 0 <= i < |s| ==> r[i] == LowerChar(s[i])
  {
    seq(|s|, i requires 0 <= i < |s| => LowerChar(s[i]))
  }

  /** Lower-casing undoes upper-casing on a string with no upper-case letters. */
  lemma LowerOfUpper(s: string)
    requires NoUpper(s)
    ensures Lower(Upper(s)) == s
  {
    assert forall i :: 0 <= i < |s| ==> Lower(Upper(s))[i] == s[i];
  }

  /** Upper-casing undoes lower-casing on a string with no lower-case letters. */
  lemma UpperOfLower(s: string)
    requires NoLower(s)
    ensures Upper(Lower(s)) == s
  {
    assert forall i :: 0 <= i < |s| ==> Upper(Lower(s))[i] == s[i];
  }

  /** Upper-casing is one-to-one on strings without upper-case letters. */
  lemma UpperInjective(a: string, b: string)
    requires NoUpper(a) && NoUpper(b) && Upper(a) == Upper(b)
    ensures a == b
  {
    LowerOfUpper(a);
    LowerOfUpper(b);
  }

  /** Lower-casing is one-to-one on strings without lower-case letters. */
  lemma LowerInjective(a: string, b: string)
    requires NoLower(a) && NoLower(b) && Lower(a) == Lower(b)
    ensures a == b
  {
    UpperOfLower(a);
    UpperOfLower(b);
  }

  predicate IsDigit(c: char) { '0' <= c <= '9' }

  predicate AllDigits(s: string) { forall i :: 0 <= i < |s| ==> IsDigit(s[i]) }

  function DigitChar(d: nat): (c: char)
    requires d < 10
    ensures IsDigit(c) && c as int - '0' as int == d
  {
    ('0' as int + d) as char
  }

  function DigitValue(c: char): (d: nat)
    requires IsDigit(c)
    ensures d < 10 && DigitChar(d) == c
  {
    c as int - '0' as int
  }

  /** `str(n)` for a natural number: decimal digits, no leading zero. */
  function NatToDecimal(n: nat): (r: string)
    ensures |r| >= 1 && AllDigits(r)
    ensures r[0] == '0' ==> n == 0
    decreases n
  {
    if n < 10 then [DigitChar(n)] else NatToDecimal(n / 10) + [DigitChar(n % 10)]
  }

  /** The number a string of decimal digits denotes. */
  function DecimalValue(s: string): nat
    requires AllDigits(s)
  {
    if s == [] then 0 else 10 * DecimalValue(s[..|s| - 1]) + DigitValue(s[|s| - 1])
  }

  /** Reading back the decimal rendering gives the number again. */
  lemma {:induction false} DecimalRoundTrip(n: nat)
    ensures DecimalValue(NatToDecimal(n)) == n
  {
    var r := NatToDecimal(n);
    if n >= 10 {
      DecimalRoundTrip(n / 10);
      assert r[..|r| - 1] == NatToDecimal(n / 10);
    }
  }

  /** `str(i)` for any integer: a minus sign in front of a negative number. */
  function IntToDecimal(i: int): (r: string)
    ensures i < 0 <==> (|r| > 0 && r[0] == '-')
    ensures i >= 0 ==> AllDigits(r) && DecimalValue(r) == i
    ensures i < 0 ==> AllDigits(r[1..]) && DecimalValue(r[1..]) == -i
    ensures |r| >= 1 && (r[0] == '0' ==> i == 0)
    ensures i == 0 ==> r == "0"
    ensures i < 0 ==> |r| >= 2 && r[1] != '0'
  {
    DecimalRoundTrip(if i < 0 then -i else i);
    if i < 0 then "-" + NatToDecimal(-i) else NatToDecimal(i)
  }
}
