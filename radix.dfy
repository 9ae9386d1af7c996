/** Digits of non-negative integers in a radix from 2 to 36, written the way
    JavaScript's Number.prototype.toString(radix) writes integers (digits 0-9
    then lower-case a-z, most significant first, no leading zero), the value of
    such a digit string, and the upper-cased digit strings the order number
    uses. */
module Radix {
  import Ascii

  predicate IsLowerDigit(c: char) { '0' <= c <= '9' || 'a' <= c <= 'z' }

  predicate IsUpperDigit(c: char) { '0' <= c <= '9' || 'A' <= c <= 'Z' }

  /** The value of a digit character in either case, or -1 for any other character. */
  function DigitValue(c: char): (v: int)
    ensures -1 <= v < 36
    ensures v == -1 <==> !(IsLowerDigit(c) || IsUpperDigit(c))
  {
    if '0' <= c <= '9' then c as int - 48
    else if 'a' <= c <= 'z' then c as int - 97 + 10
    else if 'A' <= c <= 'Z' then c as int - 65 + 10
    else -1
  }

  /** The lower-case character of digit value `d`. */
  function DigitChar(d: nat): (c: char)
    requires d < 36
    ensures IsLowerDigit(c) && DigitValue(c) == d
  {
    if d < 10 then (48 + d) as char else (97 + d - 10) as char
  }

  /** `n.toString(base)` for a non-negative integer `n`. */
  function ToRadix(n: nat, base: nat): (s: string)
    requires 2 <= base <= 36
    ensures |s| >= 1
    ensures forall i :: 0 <= i < |s| ==> IsLowerDigit(s[i]) && 0 <= DigitValue(s[i]) < base
    ensures s[0] == '0' <==> n == 0
    decreases n
  {
    if n < base then [DigitChar(n)]
    else
      DivMod(n, base);
      ToRadix(n / base, base) + [DigitChar(n % base)]
  }

  predicate AllDigits(s: string, base: nat) {
    forall i :: 0 <= i < |s| ==> 0 <= DigitValue(s[i]) < base
  }

  /** The number a digit string denotes in `base` (either letter case). */
  function ValueOf(s: string, base: nat): nat
    requires 2 <= base <= 36 && AllDigits(s, base)
  {
    if s == [] then 0 else ValueOf(s[..|s| - 1], base) * base + DigitValue(s[|s| - 1])
  }

  /** Reading back the digits of `n` gives `n`. */
  lemma {:induction false} ValueOfToRadix(n: nat, base: nat)
    requires 2 <= base <= 36
    ensures ValueOf(ToRadix(n, base), base) == n
    decreases n
  {
    if n >= base {
      var q, r := n / base, n % base;
      var p := ToRadix(q, base);
      var c := DigitChar(r);
      assert ToRadix(n, base) == p + [c];
      DivMod(n, base);
      ValueOfToRadix(q, base);
      ValueOfSnoc(p, c, base);
    }
  }

  lemma ValueOfSnoc(p: string, c: char, base: nat)
    requires 2 <= base <= 36 && AllDigits(p, base) && 0 <= DigitValue(c) < base
    ensures AllDigits(p + [c], base)
    ensures ValueOf(p + [c], base) == ValueOf(p, base) * base + DigitValue(c)
  {
    assert (p + [c])[..|p|] == p;
  }

  lemma DivMod(n: nat, base: nat)
    requires 2 <= base
    ensures (n / base) * base + n % base == n
    ensures 0 <= n % base < base
    ensures n >= base ==> 1 <= n / base < n
  {
  }

  /** Distinct numbers have distinct digit strings. */
  lemma ToRadixInjective(a: nat, b: nat, base: nat)
    requires 2 <= base <= 36
    requires ToRadix(a, base) == ToRadix(b, base)
    ensures a == b
  {
    ValueOfToRadix(a, base);
    ValueOfToRadix(b, base);
  }

  /** `${n}` for an integer `n`: decimal digits, with a '-' in front when negative. */
  function IntToString(n: int): (s: string)
    ensures n >= 0 ==> s == ToRadix(n, 10)
    ensures n < 0 ==> s == "-" + ToRadix(-n, 10)
  {
    if n < 0 then "-" + ToRadix(-n, 10) else ToRadix(n, 10)
  }

  /** Upper-casing a lower-case digit string keeps every digit's value and
      leaves only the characters 0-9 and A-Z. */
  lemma UpperKeepsDigits(s: string, base: nat)
    requires 2 <= base <= 36
    requires forall i :: 0 <= i < |s| ==> IsLowerDigit(s[i]) && 0 <= DigitValue(s[i]) < base
    ensures forall i :: 0 <= i < |s| ==> IsUpperDigit(Ascii.ToUpper(s)[i]) && DigitValue(Ascii.ToUpper(s)[i]) == DigitValue(s[i])
    ensures AllDigits(Ascii.ToUpper(s), base)
  {
  }

  /** Digit strings with the same digit values have the same value. */
  lemma {:induction false} ValueOfSameDigits(s: string, t: string, base: nat)
    requires 2 <= base <= 36 && AllDigits(s, base) && AllDigits(t, base)
    requires |s| == |t| && forall i :: 0 <= i < |s| ==> DigitValue(s[i]) == DigitValue(t[i])
    ensures ValueOf(s, base) == ValueOf(t, base)
    decreases |s|
  {
    if s != [] {
      ValueOfSameDigits(s[..|s| - 1], t[..|t| - 1], base);
    }
  }
}
