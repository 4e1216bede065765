/** The two JavaScript number conversions the core relies on: `Number.prototype.toString()`
    on a non-negative integer (the activation code) and `parseInt(s, 10)` (the cookie
    lifetimes read from the environment). */
module JsNumbers {
  import opened Base

  predicate IsDigit(c: char)
  {
    '0' <= c <= '9'
  }

  predicate AllDigits(s: string)
  {
    forall i :: 0 <= i < |s| ==> IsDigit(s[i])
  }

  function DigitChar(d: nat): (c: char)
    requires d < 10
    ensures IsDigit(c)
  {
    ('0' as int + d) as char
  }

  function DigitValue(c: char): (d: nat)
    requires IsDigit(c)
    ensures d < 10 && DigitChar(d) == c
  {
    c as int - '0' as int
  }

  /** Decimal rendering of `n`, most significant digit first, as `String(n)` gives it. */
  function DecimalString(n: nat): (s: string)
    ensures 1 <= |s| && AllDigits(s)
    ensures s[0] == '0' ==> n == 0
  {
    (if n < 10 then [] else DecimalString(n / 10)) + [DigitChar(n % 10)]
  }

  /** The white space `parseInt` skips before the number. */
  predicate IsJsSpace(c: char)
  {
    c == ' ' || c == '\t' || c == '\n' || c == '\r' || c == '\U{B}' || c == '\U{C}'
    || c == '\U{A0}' || c == '\U{2028}' || c == '\U{2029}' || c == '\U{FEFF}'
  }

  function TrimStart(s: string): (t: string)
    ensures |t| <= |s| && t == s[|s| - |t|..]
    ensures t == [] || !IsJsSpace(t[0])
  {
    if s != [] && IsJsSpace(s[0]) then TrimStart(s[1..]) else s
  }

  /** The longest prefix of `s` made of decimal digits. */
  function DigitPrefix(s: string): (d: string)
    ensures d <= s && AllDigits(d)
    ensures |d| < |s| ==> !IsDigit(s[|d|])
  {
    if s != [] && IsDigit(s[0]) then [s[0]] + DigitPrefix(s[1..]) else []
  }

  /** The value of a digit string read most significant digit first. */
  function DigitsValue(d: string): nat
    requires AllDigits(d)
  {
    if d == [] then 0 else DigitsValue(d[..|d| - 1]) * 10 + DigitValue(d[|d| - 1])
  }

  /** `parseInt(s, 10)`: skip leading white space, read an optional sign, then as many
      decimal digits as there are; NaN when there is not a single digit. */
  function ParseInt(s: string): (r: JsNumber)
    ensures var t := TrimStart(s);
      var unsigned := if t != [] && (t[0] == '-' || t[0] == '+') then t[1..] else t;
      && (r.NaN? <==> unsigned == [] || !IsDigit(unsigned[0]))
      && (r.Finite? ==> r.value == DigitsValue(DigitPrefix(unsigned)) || r.value + DigitsValue(DigitPrefix(unsigned)) == 0)
      && (r.Finite? && r.value != 0 ==> t != [] && (r.value < 0 <==> t[0] == '-'))
  {
    var t := TrimStart(s);
    var negative := t != [] && t[0] == '-';
    var unsigned := if t != [] && (t[0] == '-' || t[0] == '+') then t[1..] else t;
    var digits := DigitPrefix(unsigned);
    var magnitude: int := if digits == [] then 0 else DigitsValue(digits);
    if digits == [] then NaN
    else if negative then Finite(-magnitude)
    else Finite(magnitude)
  }

  lemma {:induction false} DigitPrefixOfDigits(s: string, rest: string)
    requires AllDigits(s)
    requires rest == [] || !IsDigit(rest[0])
    ensures DigitPrefix(s + rest) == s
  {
    if s != [] {
      assert (s + rest)[1..] == s[1..] + rest;
      DigitPrefixOfDigits(s[1..], rest);
    } else {
      assert s + rest == rest;
    }
  }

  lemma {:induction false} DigitsValueOfDecimal(n: nat)
    ensures DigitsValue(DecimalString(n)) == n
  {
    var s := DecimalString(n);
    if n < 10 {
      assert s[..|s| - 1] == [];
    } else {
      assert s[..|s| - 1] == DecimalString(n / 10);
      DigitsValueOfDecimal(n / 10);
    }
  }

  /** `parseInt` reads a digit string followed by anything that is not a digit as
      the value of those digits. */
  lemma ParseIntOfDigits(d: string, rest: string)
    requires d != [] && AllDigits(d)
    requires rest == [] || !IsDigit(rest[0])
    ensures ParseInt(d + rest) == Finite(DigitsValue(d))
  {
    var s := d + rest;
    assert s[0] == d[0];
    assert !IsJsSpace(s[0]) && s[0] != '-' && s[0] != '+';
    assert TrimStart(s) == s;
    DigitPrefixOfDigits(d, rest);
  }

  /** `parseInt` reads back what `String(n)` wrote, even when other characters follow the
      digits (so `parseInt("5m", 10)` is 5). */
  lemma ParseIntOfDecimal(n: nat, rest: string)
    requires rest == [] || !IsDigit(rest[0])
    ensures ParseInt(DecimalString(n) + rest) == Finite(n)
  {
    ParseIntOfDigits(DecimalString(n), rest);
    DigitsValueOfDecimal(n);
  }

  /** A number between 1000 and 9999 is written with exactly four digits. */
  lemma FourDigits(n: nat)
    requires 1000 <= n <= 9999
    ensures |DecimalString(n)| == 4
  {
    assert |DecimalString(n / 1000)| == 1;
    assert |DecimalString(n / 100)| == |DecimalString(n / 1000)| + 1;
    assert |DecimalString(n / 10)| == |DecimalString(n / 100)| + 1;
  }
}
