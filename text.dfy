/**
 * Character classes and string helpers with the meaning ECMAScript gives them:
 * the `\s` class of regular expressions (which is also what `String.prototype.trim`
 * strips), ASCII case mapping, decimal rendering of numbers, `padStart`,
 * `startsWith` and `includes`.
 */
module Text {

  /** `\s` in an ECMAScript regular expression: the WhiteSpace and LineTerminator code points. */
  predicate IsSpace(c: char) {
    || c == '\t' || c == '\n' || c == '\U{B}' || c == '\U{C}' || c == '\r' || c == ' '
    || c == '\U{A0}' || c == '\U{1680}' || ('\U{2000}' <= c <= '\U{200A}')
    || c == '\U{2028}' || c == '\U{2029}' || c == '\U{202F}' || c == '\U{205F}'
    || c == '\U{3000}' || c == '\U{FEFF}'
  }

  predicate IsLowerAlpha(c: char) { 'a' <= c <= 'z' }
  predicate IsUpperAlpha(c: char) { 'A' <= c <= 'Z' }
  predicate IsDigit(c: char) { '0' <= c <= '9' }

  /** Lower-casing of one character, restricted to the ASCII letters. */
  function LowerChar(c: char): (d: char)
    ensures IsUpperAlpha(c) ==> IsLowerAlpha(d)
    ensures !IsUpperAlpha(c) ==> d == c
  {
    if IsUpperAlpha(c) then (c as int + 32) as char else c
  }

  /** Upper-casing of one character, restricted to the ASCII letters. */
  function UpperChar(c: char): (d: char)
    ensures IsLowerAlpha(c) ==> IsUpperAlpha(d) && LowerChar(d) == c
    ensures !IsLowerAlpha(c) ==> d == c
  {
    if IsLowerAlpha(c) then (c as int - 32) as char else c
  }

  /** `s.toLowerCase()` on the ASCII letters; every other character is kept. */
  function Lower(s: string): (r: string)
    ensures |r| == |s|
    ensures forall i :: 0 <= i < |s| ==> r[i] == LowerChar(s[i])
  {
    seq(|s|, i requires 0 <= i < |s| => LowerChar(s[i]))
  }

  /** `s.toUpperCase()` on the ASCII letters; every other character is kept. */
  function Upper(s: string): (r: string)
    ensures |r| == |s|
    ensures forall i :: 0 <= i < |s| ==> r[i] == UpperChar(s[i])
  {
    seq(|s|, i requires 0 <= i < |s| => UpperChar(s[i]))
  }

  /** `s.startsWith(p)` */
  predicate StartsWith(s: string, p: string) {
    |p| <= |s| && s[..|p|] == p
  }

  /** `s.endsWith(p)` */
  predicate EndsWith(s: string, p: string) {
    |p| <= |s| && s[|s| - |p|..] == p
  }

  /** `s.includes(t)` */
  predicate Includes(s: string, t: string) {
    exists i :: 0 <= i <= |s| && OccursAt(s, t, i)
  }

  /** `t` occurs in `s` starting at index `i`. */
  predicate OccursAt(s: string, t: string, i: nat) {
    i + |t| <= |s| && s[i..i + |t|] == t
  }

  lemma StartsWithIncludes(s: string, p: string)
    requires StartsWith(s, p)
    ensures Includes(s, p)
  {
    assert OccursAt(s, p, 0);
  }

  function DigitChar(d: nat): (c: char)
    requires d < 10
    ensures IsDigit(c)
  {
    ('0' as int + d) as char
  }

  function DigitValue(c: char): (d: nat)
    requires IsDigit(c)
    ensures d < 10 && DigitChar(d) == c
  {
    c as int - '0' as int
  }

  predicate AllDigits(s: string) {
    forall i :: 0 <= i < |s| ==> IsDigit(s[i])
  }

  /** `String(n)` for a non-negative integer: its decimal digits, without leading zeros. */
  function NatToString(n: nat): (s: string)
    ensures 1 <= |s| && AllDigits(s)
    ensures n >= 10 ==> s[0] != '0'
    decreases n
  {
    if n < 10 then [DigitChar(n)] else NatToString(n / 10) + [DigitChar(n % 10)]
  }

  /** `String(i)` for any integer. */
  function IntToString(i: int): (s: string)
    ensures 1 <= |s|
  {
    if i < 0 then "-" + NatToString(-i) else NatToString(i)
  }

  /** The value of a string of decimal digits (leading zeros allowed). */
  function DecimalValue(s: string): nat
    requires AllDigits(s)
  {
    if s == [] then 0 else DecimalValue(s[..|s| - 1]) * 10 + DigitValue(s[|s| - 1])
  }

  lemma {:induction false} DecimalValueOfNatToString(n: nat)
    ensures DecimalValue(NatToString(n)) == n
    decreases n
  {
    if n >= 10 {
      var s := NatToString(n);
      assert s[..|s| - 1] == NatToString(n / 10);
      DecimalValueOfNatToString(n / 10);
    }
  }

  lemma {:induction false} DecimalValueLeadingZero(s: string)
    requires AllDigits(s)
    ensures AllDigits("0" + s) && DecimalValue("0" + s) == DecimalValue(s)
    decreases |s|
  {
    if s != [] {
      assert ("0" + s)[..|s|] == "0" + s[..|s| - 1];
      DecimalValueLeadingZero(s[..|s| - 1]);
    }
  }

  function Repeat(c: char, n: nat): (r: string)
    ensures |r| == n && forall i :: 0 <= i < n ==> r[i] == c
  {
    seq(n, _ => c)
  }

  /** `s.padStart(width, fill)`: fill on the left up to `width` characters; never truncates. */
  function PadStart(s: string, width: nat, fill: char): (r: string)
    ensures |r| == if |s| >= width then |s| else width
    ensures r[|r| - |s|..] == s
    ensures forall i :: 0 <= i < |r| - |s| ==> r[i] == fill
  {
    if |s| >= width then s else Repeat(fill, width - |s|) + s
  }

  lemma {:induction false} DecimalValueZeroPadded(s: string, k: nat)
    requires AllDigits(s)
    ensures AllDigits(Repeat('0', k) + s)
    ensures DecimalValue(Repeat('0', k) + s) == DecimalValue(s)
    decreases k
  {
    if k == 0 {
      assert Repeat('0', k) + s == s;
    } else {
      DecimalValueZeroPadded(s, k - 1);
      assert Repeat('0', k) + s == "0" + (Repeat('0', k - 1) + s);
      DecimalValueLeadingZero(Repeat('0', k - 1) + s);
    }
  }

  /**
   * A number rendered with `String(n).padStart(width, '0')` reads back as the same
   * number: padding only adds leading zeros and never cuts digits off.
   */
  lemma ZeroPaddedNumberRoundTrip(n: nat, width: nat)
    ensures AllDigits(PadStart(NatToString(n), width, '0'))
    ensures DecimalValue(PadStart(NatToString(n), width, '0')) == n
    ensures |PadStart(NatToString(n), width, '0')| >= width
  {
    var s := NatToString(n);
    DecimalValueOfNatToString(n);
    if |s| < width {
      DecimalValueZeroPadded(s, width - |s|);
    }
  }

  /** Numbers below 10^4 render in at most four digits. */
  lemma {:induction false} NatToStringShort(n: nat)
    requires n < 10000
    ensures |NatToString(n)| <= 4
  {
    if n >= 10 {
      NatToStringShort(n / 10);
      if n / 10 >= 10 {
        if n / 100 >= 10 {
          assert n / 1000 < 10;
        }
      }
    }
  }
}
