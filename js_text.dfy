/** The two JavaScript text conversions the core relies on: `parseInt` without a
    radix (expense and progress inputs) and the decimal rendering of a
    millisecond count inside a template literal (fresh task and user ids). */
module JsText {
  import opened Types

  /** WhiteSpace and LineTerminator code points that `parseInt` skips before the number:
      tab, VT, FF, SP, NBSP, BOM, every other space separator (Zs), LF, CR, LS, PS. */
  predicate IsJsSpace(c: char) {
    c == '\t' || c == '\U{000B}' || c == '\U{000C}' || c == ' ' || c == '\U{00A0}' || c == '\U{FEFF}'
    || c == '\U{1680}' || ('\U{2000}' <= c <= '\U{200A}') || c == '\U{202F}' || c == '\U{205F}' || c == '\U{3000}'
    || c == '\n' || c == '\r' || c == '\U{2028}' || c == '\U{2029}'
  }

  /** The text with its leading white space removed. */
  function TrimStart(s: string): (r: string)
    ensures |r| <= |s| && r == s[|s| - |r|..]
    ensures forall i :: 0 <= i < |s| - |r| ==> IsJsSpace(s[i])
    ensures r == [] || !IsJsSpace(r[0])
  {
    if s != [] && IsJsSpace(s[0]) then TrimStart(s[1..]) else s
  }

  /** The value of a character as a digit in base 36 (0-9, then a/A = 10 up to z/Z = 35). */
  function DigitValue(c: char): Option<nat> {
    if '0' <= c <= '9' then Some(c as nat - '0' as nat)
    else if 'a' <= c <= 'z' then Some(c as nat - 'a' as nat + 10)
    else if 'A' <= c <= 'Z' then Some(c as nat - 'A' as nat + 10)
    else None
  }

  predicate IsDigitIn(c: char, radix: nat) {
    DigitValue(c).Some? && DigitValue(c).value < radix
  }

  /** The longest prefix of `s` made of digits of the radix. */
  function DigitPrefix(s: string, radix: nat): (r: string)
    ensures r <= s
    ensures forall i :: 0 <= i < |r| ==> IsDigitIn(r[i], radix)
    ensures |r| == |s| || !IsDigitIn(s[|r|], radix)
  {
    if s != [] && IsDigitIn(s[0], radix) then [s[0]] + DigitPrefix(s[1..], radix) else []
  }

  /** The value of a digit string, most significant digit first. */
  function DigitsValue(digits: string, radix: nat): nat
    requires forall i :: 0 <= i < |digits| ==> IsDigitIn(digits[i], radix)
  {
    if digits == [] then 0
    else
      assert IsDigitIn(digits[|digits| - 1], radix);
      Shift(DigitsValue(digits[..|digits| - 1], radix), radix, DigitValue(digits[|digits| - 1]).value)
  }

  /** One more digit on the right of a value. */
  function Shift(high: nat, radix: nat, low: nat): nat {
    high * radix + low
  }

  predicate HasHexPrefix(s: string) {
    |s| >= 2 && s[0] == '0' && (s[1] == 'x' || s[1] == 'X')
  }

  /** `parseInt(s)` with no radix: skip leading white space, read an optional sign, a
      `0x`/`0X` prefix switches to base 16, then the longest run of digits; no digits
      gives NaN. A negative zero is reported as 0. */
  function ParseInt(s: string): (r: Number)
    ensures r.NaN? <==> DigitPrefix(Unsigned(s), RadixOf(s)) == []
    ensures r.Finite? && r.value < 0 ==> Negative(s)
  {
    var digits := DigitPrefix(Unsigned(s), RadixOf(s));
    if digits == [] then NaN
    else
      var magnitude: int := DigitsValue(digits, RadixOf(s));
      Finite(if Negative(s) then -magnitude else magnitude)
  }

  /** Whether a minus sign follows the leading white space. */
  predicate Negative(s: string) {
    var t := TrimStart(s);
    t != [] && t[0] == '-'
  }

  /** The text after white space and sign. */
  function Signless(s: string): string {
    var t := TrimStart(s);
    if t != [] && (t[0] == '-' || t[0] == '+') then t[1..] else t
  }

  function RadixOf(s: string): nat {
    if HasHexPrefix(Signless(s)) then 16 else 10
  }

  /** The text whose leading digits `parseInt` reads. */
  function Unsigned(s: string): string {
    var t := Signless(s);
    if HasHexPrefix(t) then t[2..] else t
  }

  function DigitChar(d: nat): (c: char)
    requires d < 10
    ensures DigitValue(c) == Some(d)
  {
    ('0' as nat + d) as char
  }

  /** `${n}` for a non-negative integer: its decimal digits, no leading zero. */
  function DecimalString(n: nat): (r: string)
    ensures |r| > 0
    ensures forall i :: 0 <= i < |r| ==> '0' <= r[i] <= '9'
    ensures r[0] == '0' ==> n == 0 && |r| == 1
  {
    if n < 10 then [DigitChar(n)] else DecimalString(n / 10) + [DigitChar(n % 10)]
  }

  lemma {:induction false} DecimalDigitsValue(n: nat)
    ensures forall i :: 0 <= i < |DecimalString(n)| ==> IsDigitIn(DecimalString(n)[i], 10)
    ensures DigitsValue(DecimalString(n), 10) == n
  {
    var r := DecimalString(n);
    if n >= 10 {
      DecimalDigitsValue(n / 10);
      assert r[..|r| - 1] == DecimalString(n / 10);
    }
  }

  /** A plain run of decimal digits has no sign, no hex prefix, and is its own digit prefix. */
  lemma PlainDigits(d: string)
    requires d != [] && forall i :: 0 <= i < |d| ==> IsDigitIn(d[i], 10)
    ensures !Negative(d) && RadixOf(d) == 10 && DigitPrefix(Unsigned(d), RadixOf(d)) == d
  {
    assert IsDigitIn(d[0], 10);
    DigitNotSpace(d[0]);
    assert TrimStart(d) == d;
    assert Signless(d) == d;
    assert |d| >= 2 ==> IsDigitIn(d[1], 10);
    assert !HasHexPrefix(d);
    DigitPrefixWhole(d, 10);
  }

  /** After a minus sign, a plain run of decimal digits is the digit prefix. */
  lemma MinusPlainDigits(d: string)
    requires d != [] && forall i :: 0 <= i < |d| ==> IsDigitIn(d[i], 10)
    ensures Negative("-" + d) && RadixOf("-" + d) == 10 && DigitPrefix(Unsigned("-" + d), RadixOf("-" + d)) == d
  {
    var s := "-" + d;
    assert !IsJsSpace('-');
    assert TrimStart(s) == s;
    assert s[1..] == d;
    assert Signless(s) == d;
    assert |d| >= 2 ==> IsDigitIn(d[1], 10);
    assert !HasHexPrefix(d);
    DigitPrefixWhole(d, 10);
  }

  /** The reading of a text with digits, in terms of its sign and its digit prefix. */
  lemma ParseIntOf(s: string, digits: string, radix: nat)
    requires radix == RadixOf(s) && digits == DigitPrefix(Unsigned(s), radix) && digits != []
    ensures ParseInt(s) == Finite(if Negative(s) then -(DigitsValue(digits, radix) as int) else DigitsValue(digits, radix))
  {
  }

  /** A plain run of decimal digits is read whole. */
  lemma ParseDigits(d: string)
    requires d != [] && forall i :: 0 <= i < |d| ==> IsDigitIn(d[i], 10)
    ensures ParseInt(d) == Finite(DigitsValue(d, 10))
  {
    PlainDigits(d);
    ParseIntOf(d, d, 10);
  }

  /** A minus sign and a plain run of decimal digits are read as the negated value. */
  lemma ParseNegativeDigits(d: string)
    requires d != [] && forall i :: 0 <= i < |d| ==> IsDigitIn(d[i], 10)
    ensures ParseInt("-" + d) == Finite(-(DigitsValue(d, 10) as int))
  {
    MinusPlainDigits(d);
    ParseIntOf("-" + d, d, 10);
  }

  /** The digits of a decimal rendering read back as the same number. */
  lemma ParseIntDecimal(n: nat)
    ensures ParseInt(DecimalString(n)) == Finite(n)
  {
    DecimalDigitsValue(n);
    ParseDigits(DecimalString(n));
  }

  /** A minus sign in front of a decimal rendering reads back as the negated number:
      `parseInt` does not refuse negative input. */
  lemma ParseIntNegativeDecimal(n: nat)
    ensures ParseInt("-" + DecimalString(n)) == Finite(-(n as int))
  {
    DecimalDigitsValue(n);
    ParseNegativeDigits(DecimalString(n));
  }

  /** Leading white space does not change the reading. */
  lemma LeadingSpaceIgnored(c: char, s: string)
    requires IsJsSpace(c)
    ensures ParseInt([c] + s) == ParseInt(s)
  {
    var t := [c] + s;
    assert TrimStart(t) == TrimStart(s) by {
      assert t[1..] == s;
    }
    SameTrimSameParse(t, s);
  }

  /** `parseInt` reads a text only after its leading white space. */
  lemma SameTrimSameParse(s: string, t: string)
    requires TrimStart(s) == TrimStart(t)
    ensures ParseInt(s) == ParseInt(t)
  {
    SameTrimSameParts(s, t);
    var d := DigitPrefix(Unsigned(s), RadixOf(s));
    assert d == DigitPrefix(Unsigned(t), RadixOf(t));
  }

  lemma SameTrimSameParts(s: string, t: string)
    requires TrimStart(s) == TrimStart(t)
    ensures Negative(s) == Negative(t) && Unsigned(s) == Unsigned(t) && RadixOf(s) == RadixOf(t)
  {
    assert Signless(s) == Signless(t);
  }

  /** A plus sign in front of unsigned, unpadded text does not change the reading. */
  lemma PlusSignIgnored(s: string)
    requires s == [] || (!IsJsSpace(s[0]) && s[0] != '-' && s[0] != '+')
    ensures ParseInt("+" + s) == ParseInt(s)
  {
    assert !IsJsSpace('+');
    assert TrimStart("+" + s) == "+" + s;
    assert TrimStart(s) == s;
    assert ("+" + s)[1..] == s;
    assert Signless("+" + s) == s == Signless(s);
    assert !Negative("+" + s) && !Negative(s);
  }

  lemma DigitNotSpace(c: char)
    requires '0' <= c <= '9'
    ensures !IsJsSpace(c)
  {
  }

  lemma {:induction false} DigitPrefixWhole(s: string, radix: nat)
    requires forall i :: 0 <= i < |s| ==> IsDigitIn(s[i], radix)
    ensures DigitPrefix(s, radix) == s
  {
    if s != [] {
      DigitPrefixWhole(s[1..], radix);
    }
  }

  /** Text whose first non-blank character is neither a sign nor a digit is NaN. */
  lemma NoDigitsIsNaN(s: string)
    requires var t := TrimStart(s); t == [] || (t[0] != '-' && t[0] != '+' && !IsDigitIn(t[0], 10))
    ensures ParseInt(s) == NaN
  {
  }
}
