/**
 * JavaScript number helpers used throughout the TypeScript sources:
 * `parseInt` (with and without an explicit radix 10) and the decimal
 * rendering `String(n)` followed by `padStart(2, '0')`.
 *
 * A `NaN` result of `parseInt` is `None`.  Numbers are unbounded
 * integers; the 2^53 precision limit of JavaScript numbers is not modelled.
 */
module JsNum {
  import opened Wrappers

  predicate IsDigit(c: char) { '0' <= c <= '9' }

  predicate IsHexDigit(c: char)
  {
    IsDigit(c) || 'a' <= c <= 'f' || 'A' <= c <= 'F'
  }

  /**
   * The white space and line terminators `parseInt` skips before the number:
   * tab, vertical tab, form feed, the byte order mark, every space separator
   * of Unicode category Zs, and the four line terminators.
   */
  predicate IsSpace(c: char)
  {
    c == '\t' || c == '\U{000B}' || c == '\U{000C}' || c == '\U{FEFF}'
    || c == ' ' || c == '\U{00A0}' || c == '\U{1680}' || '\U{2000}' <= c <= '\U{200A}'
    || c == '\U{202F}' || c == '\U{205F}' || c == '\U{3000}'
    || c == '\n' || c == '\r' || c == '\U{2028}' || c == '\U{2029}'
  }

  predicate AllDigits(s: string)
  {
    forall i :: 0 <= i < |s| ==> IsDigit(s[i])
  }

  function DigitValue(c: char): (v: nat)
    requires IsHexDigit(c)
    ensures v < 16
    ensures IsDigit(c) ==> v < 10
  {
    if IsDigit(c) then c as int - '0' as int
    else if 'a' <= c <= 'f' then c as int - 'a' as int + 10
    else c as int - 'A' as int + 10
  }

  function TrimStart(s: string): (t: string)
    ensures |t| <= |s|
    ensures |t| > 0 ==> !IsSpace(t[0])
  {
    if |s| > 0 && IsSpace(s[0]) then TrimStart(s[1..]) else s
  }

  /** The longest prefix of `s` made of digits of the given base (10 or 16). */
  function DigitPrefix(s: string, hex: bool): (d: string)
    ensures |d| <= |s| && d == s[..|d|]
    ensures forall i :: 0 <= i < |d| ==> (if hex then IsHexDigit(d[i]) else IsDigit(d[i]))
  {
    if |s| > 0 && (if hex then IsHexDigit(s[0]) else IsDigit(s[0]))
    then [s[0]] + DigitPrefix(s[1..], hex)
    else []
  }

  /** The value of a string of digits read most significant first in `base`. */
  function DigitsValue(d: string, base: nat): nat
    requires base == 10 || base == 16
    requires forall i :: 0 <= i < |d| ==> IsHexDigit(d[i])
  {
    if d == [] then 0 else DigitsValue(d[..|d| - 1], base) * base + DigitValue(d[|d| - 1])
  }

  function Signed(negative: bool, n: nat): int
  {
    if negative then -(n as int) else n as int
  }

  /** Whether `u` starts with the `0x` / `0X` prefix of a hexadecimal literal. */
  predicate HasHexPrefix(u: string)
  {
    |u| >= 2 && u[0] == '0' && (u[1] == 'x' || u[1] == 'X')
  }

  /** The magnitude read from `u`, after the white space and the sign. */
  function ParseMagnitude(u: string, hexAllowed: bool): Option<nat>
  {
    var hex := hexAllowed && HasHexPrefix(u);
    var d := DigitPrefix(if hex then u[2..] else u, hex);
    if d == [] then None else Some(DigitsValue(d, if hex then 16 else 10))
  }

  /**
   * `parseInt(s)` (hexAllowed: the default radix, which honours a `0x`
   * prefix) or `parseInt(s, 10)` (hexAllowed false).
   */
  function ParseIntWith(s: string, hexAllowed: bool): Option<int>
  {
    var t := TrimStart(s);
    var negative := |t| > 0 && t[0] == '-';
    var u := if |t| > 0 && (t[0] == '-' || t[0] == '+') then t[1..] else t;
    match ParseMagnitude(u, hexAllowed)
    case None => None
    case Some(n) => Some(Signed(negative, n))
  }

  /** `Number.parseInt(s)` / `parseInt(s)`; `None` is `NaN`. */
  function ParseInt(s: string): Option<int>
  {
    ParseIntWith(s, true)
  }

  /** `parseInt(s, 10)`; `None` is `NaN`. */
  function ParseInt10(s: string): Option<int>
  {
    ParseIntWith(s, false)
  }

  /** `String(n)` for a non-negative integer. */
  function NatToString(n: nat): (s: string)
    ensures |s| > 0 && AllDigits(s)
    ensures |s| == 1 <==> n < 10
  {
    if n < 10 then [('0' as int + n) as char]
    else NatToString(n / 10) + [('0' as int + n % 10) as char]
  }

  /** `String(i)` for any integer. */
  function IntToString(i: int): string
  {
    if i < 0 then "-" + NatToString(-i) else NatToString(i)
  }

  /** `String(i).padStart(2, '0')`. */
  function Pad2(i: int): (s: string)
    ensures |s| >= 2
    ensures 0 <= i < 10 ==> s == ['0', ('0' as int + i) as char]
    ensures 10 <= i ==> s == NatToString(i)
  {
    var t := IntToString(i);
    if |t| < 2 then "0" + t else t
  }

  lemma {:induction false} DigitsValueOfNatToString(n: nat)
    ensures DigitsValue(NatToString(n), 10) == n
  {
    var s := NatToString(n);
    if n >= 10 {
      DigitsValueOfNatToString(n / 10);
      assert s[..|s| - 1] == NatToString(n / 10);
    }
  }

  lemma {:induction false} DigitPrefixOfDigits(s: string, rest: string)
    requires AllDigits(s)
    requires rest == [] || !IsDigit(rest[0])
    ensures DigitPrefix(s + rest, false) == s
  {
    if s != [] {
      assert (s + rest)[1..] == s[1..] + rest;
      DigitPrefixOfDigits(s[1..], rest);
    } else {
      assert s + rest == rest;
    }
  }

  /** `parseInt(String(n)) == n` and `parseInt(String(n), 10) == n`. */
  lemma ParseIntOfNatToString(n: nat)
    ensures ParseInt(NatToString(n)) == Some(n)
    ensures ParseInt10(NatToString(n)) == Some(n)
  {
    ParseIntOfDigits(NatToString(n), []);
    assert NatToString(n) + [] == NatToString(n);
    DigitsValueOfNatToString(n);
  }

  /**
   * A string of decimal digits, followed by anything that does not start
   * with a digit, parses as the value of the digits under both radix rules.
   */
  lemma ParseIntOfDigits(s: string, rest: string)
    requires |s| > 0 && AllDigits(s)
    requires rest == [] || !IsDigit(rest[0])
    requires |s| == 1 ==> rest == [] || (rest[0] != 'x' && rest[0] != 'X')
    ensures ParseInt(s + rest) == Some(DigitsValue(s, 10))
    ensures ParseInt10(s + rest) == Some(DigitsValue(s, 10))
  {
    var t := s + rest;
    assert t[0] == s[0];
    assert !HasHexPrefix(t) by {
      if |t| >= 2 && |s| >= 2 { assert t[1] == s[1]; }
      if |t| >= 2 && |s| == 1 { assert t[1] == rest[0]; }
    }
    DigitPrefixOfDigits(s, rest);
    ParseIntWithUnsigned(t, true);
    ParseIntWithUnsigned(t, false);
  }

  /** An unsigned, unprefixed decimal start reads its leading digits. */
  lemma ParseIntWithUnsigned(t: string, hexAllowed: bool)
    requires |t| > 0 && IsDigit(t[0])
    requires !HasHexPrefix(t)
    ensures ParseIntWith(t, hexAllowed) == Some(DigitsValue(DigitPrefix(t, false), 10))
  {
    TrimStartOfDigit(t);
    UnsignedParse(t, hexAllowed);
    MagnitudeOfDecimal(t, hexAllowed);
  }

  lemma TrimStartOfDigit(t: string)
    requires |t| > 0 && IsDigit(t[0])
    ensures TrimStart(t) == t
  {
  }

  lemma UnsignedParse(t: string, hexAllowed: bool)
    requires |t| > 0 && IsDigit(t[0])
    requires TrimStart(t) == t
    ensures ParseIntWith(t, hexAllowed) == match ParseMagnitude(t, hexAllowed)
      case None => None
      case Some(n) => Some(Signed(false, n))
  {
  }

  lemma MagnitudeOfDecimal(t: string, hexAllowed: bool)
    requires |t| > 0 && IsDigit(t[0])
    requires !HasHexPrefix(t)
    ensures ParseMagnitude(t, hexAllowed) == Some(DigitsValue(DigitPrefix(t, false), 10))
  {
    assert DigitPrefix(t, false) != [];
  }

  /** JavaScript's `a % b` for a positive `b`: the remainder takes the sign of `a`. */
  function JsRem(a: int, b: int): (r: int)
    requires b > 0
    ensures a >= 0 ==> r == a % b
    ensures a < 0 ==> r <= 0 && a - r == -(b * ((-a) / b))
    ensures -b < r < b
  {
    if a >= 0 then a % b else -((-a) % b)
  }

  /** `String(i).padStart(2, '0')` read back with `parseInt` gives `i` for any `i >= 0`. */
  lemma ParseIntOfPad2(i: nat)
    ensures ParseInt(Pad2(i)) == Some(i)
    ensures AllDigits(Pad2(i))
  {
    if i < 10 {
      var s := Pad2(i);
      assert s == ['0', ('0' as int + i) as char];
      ParseIntOfDigits(s, []);
      assert s + [] == s;
      assert DigitsValue(s, 10) == DigitsValue(s[..1], 10) * 10 + DigitValue(s[1]);
    } else {
      ParseIntOfNatToString(i);
    }
  }
}
