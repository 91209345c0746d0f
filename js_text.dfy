/** The JavaScript string built-ins the frontend relies on: `String.prototype.trim`
    (for blank input), `parseInt` without a radix (form coercion) and
    `String(n)` with `slice`/`padStart` (the rule id badge). `NaN` is `None`. */
module JsText {
  import opened Wrappers

  /** The characters `trim` and `parseInt` skip: ECMAScript WhiteSpace and
      LineTerminator code points. */
  predicate IsJsSpace(c: char) {
    || c == ' ' || c == '\t' || c == '\n' || c == '\r'
    || c == '\U{000B}' || c == '\U{000C}' || c == '\U{00A0}' || c == '\U{FEFF}'
    || c == '\U{1680}' || ('\U{2000}' <= c <= '\U{200A}')
    || c == '\U{2028}' || c == '\U{2029}' || c == '\U{202F}' || c == '\U{205F}' || c == '\U{3000}'
  }

  /** `s.trim() === ""`. */
  predicate IsBlank(s: string) {
    forall i :: 0 <= i < |s| ==> IsJsSpace(s[i])
  }

  /** `s` with its leading JavaScript white space removed. */
  function TrimStart(s: string): (r: string)
    ensures |r| <= |s| && r == s[|s| - |r|..]
    ensures r == [] || !IsJsSpace(r[0])
    ensures forall i :: 0 <= i < |s| - |r| ==> IsJsSpace(s[i])
  {
    if s != [] && IsJsSpace(s[0]) then TrimStart(s[1..]) else s
  }

  /** The value of a digit character in radix 16 or less, -1 for any other
      character. */
  function DigitValue(c: char): (v: int)
    ensures -1 <= v < 16
  {
    if '0' <= c <= '9' then c as int - '0' as int
    else if 'a' <= c <= 'f' then c as int - 'a' as int + 10
    else if 'A' <= c <= 'F' then c as int - 'A' as int + 10
    else -1
  }

  predicate IsDigitIn(c: char, radix: int) {
    0 <= DigitValue(c) < radix
  }

  /** The longest prefix of `s` made of digits of `radix`. */
  function DigitPrefix(s: string, radix: int): (d: string)
    ensures |d| <= |s| && d == s[..|d|]
    ensures forall i :: 0 <= i < |d| ==> IsDigitIn(d[i], radix)
    ensures |d| == |s| || !IsDigitIn(s[|d|], radix)
  {
    if s != [] && IsDigitIn(s[0], radix) then [s[0]] + DigitPrefix(s[1..], radix) else []
  }

  /** The value of a digit string, most significant digit first. */
  function DigitsValue(d: string, radix: int): int {
    if d == [] then 0 else DigitsValue(d[..|d| - 1], radix) * radix + DigitValue(d[|d| - 1])
  }

  /** `parseInt(s)` with no radix: leading white space, an optional sign, a
      `0x`/`0X` prefix selecting base 16, then the longest run of digits;
      `NaN` when that run is empty. */
  function ParseInt(s: string): (r: Option<int>)
    ensures r.Some? ==> exists i :: 0 <= i < |s| && IsDigitIn(s[i], 16)
  {
    var t := TrimStart(s);
    var r := ParseSigned(t);
    if r.None? then r
    else
      var i :| 0 <= i < |t| && IsDigitIn(t[i], 16);
      assert s[|s| - |t| + i] == t[i];
      r
  }

  /** The text after the white space: a `-` negates, a `+` is skipped. */
  function ParseSigned(t: string): (r: Option<int>)
    ensures r.Some? ==> exists i :: 0 <= i < |t| && IsDigitIn(t[i], 16)
  {
    if t != [] && (t[0] == '-' || t[0] == '+') then
      match ParseMagnitude(t[1..])
      case None => None
      case Some(v) =>
        var i :| 0 <= i < |t[1..]| && IsDigitIn(t[1..][i], 16);
        assert t[i + 1] == t[1..][i];
        Some(if t[0] == '-' then -v else v)
    else ParseMagnitude(t)
  }

  /** The unsigned part: `0x`/`0X` selects base 16, then the digit run. */
  function ParseMagnitude(u: string): (r: Option<int>)
    ensures r.Some? ==> exists i :: 0 <= i < |u| && IsDigitIn(u[i], 16)
  {
    var hex := |u| >= 2 && u[0] == '0' && (u[1] == 'x' || u[1] == 'X');
    var radix := if hex then 16 else 10;
    var digits := DigitPrefix(if hex then u[2..] else u, radix);
    if digits == [] then None
    else
      assert IsDigitIn(digits[0], 16);
      assert (if hex then u[2..] else u)[0] == digits[0];
      Some(DigitsValue(digits, radix))
  }

  /** The text after white space with its sign, if any, removed. */
  function Unsigned(t: string): string {
    if t != [] && (t[0] == '-' || t[0] == '+') then t[1..] else t
  }

  /** `parseInt` gives NaN exactly when, after the white space and the sign,
      no decimal digit comes first, or a `0x` prefix is followed by no
      hexadecimal digit. */
  lemma ParseIntNaN(s: string)
    ensures var u := Unsigned(TrimStart(s));
      ParseInt(s).None? <==>
        (u == [] || !IsDigitIn(u[0], 10)
         || (|u| >= 2 && u[0] == '0' && (u[1] == 'x' || u[1] == 'X') && (|u| == 2 || !IsDigitIn(u[2], 16))))
  {
    var u := Unsigned(TrimStart(s));
    assert ParseInt(s).None? <==> ParseMagnitude(u).None?;
  }

  /** The decimal digit character of a value 0..9. */
  function DigitChar(d: int): (c: char)
    requires 0 <= d < 10
    ensures DigitValue(c) == d
  {
    ('0' as int + d) as char
  }

  /** The decimal digits of a natural number, with no leading zero. */
  function NatToString(n: nat): (s: string)
    ensures |s| >= 1
    ensures forall i :: 0 <= i < |s| ==> IsDigitIn(s[i], 10)
    ensures s[0] == '0' ==> n == 0
  {
    if n < 10 then [DigitChar(n)] else NatToString(n / 10) + [DigitChar(n % 10)]
  }

  /** `String(n)` for an integral number. */
  function IntToString(n: int): string {
    if n < 0 then "-" + NatToString(-n) else NatToString(n)
  }

  /** `String(n)` is decimal digits that read back as the magnitude of n,
      after a minus sign exactly when n is negative. */
  lemma IntToStringDigits(n: int)
    ensures |IntToString(n)| >= 1
    ensures n >= 0 ==>
      && DigitsValue(IntToString(n), 10) == n
      && forall i :: 0 <= i < |IntToString(n)| ==> IsDigitIn(IntToString(n)[i], 10)
    ensures n < 0 ==>
      && IntToString(n)[0] == '-'
      && DigitsValue(IntToString(n)[1..], 10) == -n
      && forall i :: 1 <= i < |IntToString(n)| ==> IsDigitIn(IntToString(n)[i], 10)
  {
    if n < 0 {
      NatToStringValue(-n);
      assert IntToString(n)[1..] == NatToString(-n);
    } else {
      NatToStringValue(n);
    }
  }

  lemma {:induction false} NatToStringValue(n: nat)
    ensures DigitsValue(NatToString(n), 10) == n
  {
    if n >= 10 {
      NatToStringValue(n / 10);
      var s := NatToString(n);
      assert s[..|s| - 1] == NatToString(n / 10);
    }
  }

  lemma DigitPrefixOfDigits(s: string, radix: int)
    requires forall i :: 0 <= i < |s| ==> IsDigitIn(s[i], radix)
    ensures DigitPrefix(s, radix) == s
  {
  }

  /** Text that does not start with white space is left as it is by `trim`. */
  lemma TrimStartNoSpace(s: string)
    requires s != [] && !IsJsSpace(s[0])
    ensures TrimStart(s) == s
  {
  }

  /** `parseInt` skips a leading white-space character. */
  lemma ParseIntAfterSpace(s: string)
    requires s != [] && IsJsSpace(s[0])
    ensures ParseInt(s) == ParseInt(s[1..])
  {
  }

  /** `parseInt` of decimal digits with no leading zero reads back their
      value, and so does a minus sign before them, negated. */
  lemma ParseIntOfDecimal(digits: string)
    requires |digits| >= 1 && forall i :: 0 <= i < |digits| ==> IsDigitIn(digits[i], 10)
    requires digits[0] == '0' ==> |digits| == 1
    ensures ParseInt(digits) == Some(DigitsValue(digits, 10))
    ensures ParseInt("-" + digits) == Some(-DigitsValue(digits, 10))
  {
    DigitPrefixOfDigits(digits, 10);
    assert ParseMagnitude(digits) == Some(DigitsValue(digits, 10));
    assert IsDigitIn(digits[0], 10);
    TrimStartNoSpace(digits);
    var neg := "-" + digits;
    assert neg[0] == '-' && neg[1..] == digits;
    TrimStartNoSpace(neg);
  }

  /** `parseInt(String(n)) === n` for every integer `n`. */
  lemma ParseIntOfIntToString(n: int)
    ensures ParseInt(IntToString(n)) == Some(n)
  {
    var m: nat := if n < 0 then -n else n;
    NatToStringValue(m);
    ParseIntOfDecimal(NatToString(m));
  }

  /** The digit run of a string that continues with a non-digit is the
      digits before it. */
  lemma {:induction false} DigitPrefixStops(d: string, rest: string, radix: int)
    requires forall i :: 0 <= i < |d| ==> IsDigitIn(d[i], radix)
    requires rest != [] && !IsDigitIn(rest[0], radix)
    ensures DigitPrefix(d + rest, radix) == d
  {
    if d != [] {
      assert (d + rest)[1..] == d[1..] + rest;
      DigitPrefixStops(d[1..], rest, radix);
    }
  }

  /** `parseInt` of a text that starts with `String(n)`, for n >= 1, and
      continues with a space reads back `n`. */
  lemma ParseIntOfLeadingNumber(n: nat, rest: string)
    requires n >= 1 && rest != [] && rest[0] == ' '
    ensures ParseInt(NatToString(n) + rest) == Some(n)
  {
    var digits := NatToString(n);
    var s := digits + rest;
    NatToStringValue(n);
    DigitPrefixStops(digits, rest, 10);
    assert s[0] == digits[0];
    assert !IsJsSpace(s[0]);
    assert TrimStart(s) == s;
    if |digits| >= 2 {
      assert s[1] == digits[1];
    } else {
      assert s[1] == ' ';
    }
  }

  /** The integer part of `x`, truncated toward zero. */
  function TruncToward0(x: real): (r: int)
    ensures x >= 0.0 ==> r as real <= x < r as real + 1.0
    ensures x < 0.0 ==> r as real - 1.0 < x <= r as real
  {
    if x >= 0.0 then x.Floor else -((-x).Floor)
  }

  /** `String(x)` uses exponent notation from 10^21 up and below 10^-6. */
  const ExponentFrom: real := 1000000000000000000000.0
  const ExponentBelow: real := 0.000001

  /** The first significant digit of a number at least 1. */
  function LeadingDigitAbove(x: real): (d: int)
    requires x >= 1.0
    ensures 1 <= d <= 9
    decreases x.Floor
  {
    if x < 10.0 then x.Floor else LeadingDigitAbove(x / 10.0)
  }

  /** The first significant digit of a number strictly between 0 and 1. */
  function LeadingDigitBelow(x: real): (d: int)
    requires 0.0 < x < 1.0
    ensures 1 <= d <= 9
    decreases (1.0 / x).Floor
  {
    if x * 10.0 >= 1.0 then (x * 10.0).Floor
    else
      assert 1.0 / (x * 10.0) == (1.0 / x) / 10.0;
      LeadingDigitBelow(x * 10.0)
  }

  /** The first significant digit of a non-zero number's magnitude. */
  function LeadingDigit(x: real): (d: int)
    requires x > 0.0
    ensures 1 <= d <= 9
  {
    if x >= 1.0 then LeadingDigitAbove(x) else LeadingDigitBelow(x)
  }

  /** `parseInt(String(x))` for a number: in plain decimal notation the
      integer part, truncated toward zero; in exponent notation
      ("1.5e-7", "5e+21") only the digit before the point, with its sign. */
  function ParseIntOfNumber(x: real): (r: int)
    ensures -ExponentFrom < x < ExponentFrom && (x == 0.0 || x <= -ExponentBelow || ExponentBelow <= x) ==>
      r == TruncToward0(x)
    ensures x >= ExponentFrom || (0.0 < x < ExponentBelow) ==> r == LeadingDigit(x) && 1 <= r <= 9
    ensures x <= -ExponentFrom || (-ExponentBelow < x < 0.0) ==> r == -LeadingDigit(-x) && -9 <= r <= -1
  {
    if x == 0.0 || (ExponentBelow <= x < ExponentFrom) || (-ExponentFrom < x <= -ExponentBelow) then TruncToward0(x)
    else if x > 0.0 then LeadingDigit(x)
    else -LeadingDigit(-x)
  }

  /** `x` times 10^k. */
  function Scale(x: real, k: nat): real {
    if k == 0 then x else 10.0 * Scale(x, k - 1)
  }

  lemma {:induction false} ScaleMonotone(x: real, y: real, k: nat)
    requires 1.0 <= x <= y
    ensures x <= Scale(x, k) <= Scale(y, k)
  {
    if k > 0 {
      var j := k - 1;
      ScaleMonotone(x, y, j);
    }
  }

  lemma {:induction false} ScaleAdd(x: real, a: nat, b: nat)
    ensures Scale(x, a + b) == Scale(Scale(x, a), b)
  {
    if b > 0 {
      var j := b - 1;
      ScaleAdd(x, a, j);
      assert a + b - 1 == a + j;
    }
  }

  /** Scaling by a power of ten keeps the first significant digit. */
  lemma {:induction false} LeadingDigitScaled(x: real, k: nat)
    requires x >= 1.0
    ensures Scale(x, k) >= 1.0
    ensures LeadingDigitAbove(Scale(x, k)) == LeadingDigitAbove(x)
  {
    ScaleMonotone(x, x, k);
    if k > 0 {
      var j := k - 1;
      LeadingDigitScaled(x, j);
      var z := Scale(x, k);
      assert z >= 10.0 && z / 10.0 == Scale(x, j);
    }
  }

  /** A number `d`·10^k of 10^21 or more (`d` in [1, 10)) prints as
      "d...e+k" and parses to the digit of `d`: 5·10^21 gives 5. And 10^-7
      prints as "1e-7" and parses to 1. */
  lemma ExponentFormsParse(d: real, k: nat)
    requires 1.0 <= d < 10.0 && k >= 21
    ensures ParseIntOfNumber(Scale(d, k)) == d.Floor
    ensures ParseIntOfNumber(5000000000000000000000.0) == 5
    ensures ParseIntOfNumber(0.0000001) == 1
  {
    assert Scale(1.0, 7) == 10000000.0;
    assert Scale(10000000.0, 7) == 100000000000000.0;
    assert Scale(100000000000000.0, 7) == ExponentFrom;
    ScaleAdd(1.0, 7, 7);
    ScaleAdd(1.0, 14, 7);
    ScaleAdd(1.0, 21, k - 21);
    ScaleMonotone(ExponentFrom, ExponentFrom, k - 21);
    ScaleMonotone(1.0, d, k);
    LeadingDigitScaled(d, k);
    assert Scale(5.0, 7) == 50000000.0;
    assert Scale(50000000.0, 7) == 500000000000000.0;
    assert Scale(500000000000000.0, 7) == 5000000000000000000000.0;
    ScaleAdd(5.0, 7, 7);
    ScaleAdd(5.0, 14, 7);
    LeadingDigitScaled(5.0, 21);
  }

  /** `s.slice(-k)`: the last `k` characters (all of them when shorter). */
  function LastChars(s: string, k: nat): (r: string)
    ensures |r| == if |s| < k then |s| else k
    ensures r == s[|s| - |r|..]
  {
    if |s| <= k then s else s[|s| - k..]
  }

  function Repeat(c: char, n: nat): (r: string)
    ensures |r| == n && forall i :: 0 <= i < n ==> r[i] == c
  {
    if n == 0 then [] else [c] + Repeat(c, n - 1)
  }

  /** `s.padStart(k, c)`. */
  function PadStart(s: string, k: nat, c: char): (r: string)
    ensures |r| == if |s| < k then k else |s|
    ensures r[|r| - |s|..] == s
    ensures forall i :: 0 <= i < |r| - |s| ==> r[i] == c
  {
    if |s| < k then Repeat(c, k - |s|) + s else s
  }
}
