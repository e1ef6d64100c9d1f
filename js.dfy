/** JavaScript value semantics that the storefront code relies on:
    optional values, truthiness, integer-valued numbers with NaN,
    `parseInt` and `Number.prototype.toString`. */
module Js {

  /** A value that may be null or undefined. */
  datatype Option<+T> = None | Some(value: T) {
    function GetOr(default: T): T {
      if Some? then value else default
    }
  }

  /** A JavaScript number as the storefront uses it: an integer or NaN. */
  datatype Number = NaN | Int(value: int)

  /** `if (s)` for a string that may be absent: only null, undefined and "" are falsy. */
  predicate StringTruthy(s: Option<string>) {
    s.Some? && s.value != ""
  }

  /** `if (n)` for a number: 0 and NaN are falsy. */
  predicate NumberTruthy(n: Number) {
    n.Int? && n.value != 0
  }

  /** `s || fallback` for a string that may be absent. */
  function StringOr(s: Option<string>, fallback: string): string {
    if StringTruthy(s) then s.value else fallback
  }

  /** A string value as `+` renders it: an absent field is "undefined". */
  function JsText(s: Option<string>): string {
    if s.Some? then s.value else "undefined"
  }

  /** `n > k`; every comparison with NaN is false. */
  predicate GreaterThan(n: Number, k: int) {
    n.Int? && n.value > k
  }

  /** `n < k`; every comparison with NaN is false. */
  predicate LessThan(n: Number, k: int) {
    n.Int? && n.value < k
  }

  /** `a % d` for a positive divisor: the remainder takes the sign of `a`. */
  function Remainder(a: int, d: int): (r: int)
    requires d > 0
    ensures a >= 0 ==> 0 <= r < d
    ensures a < 0 ==> -d < r <= 0
    ensures 0 <= a < d ==> r == a
    ensures d <= a < d + d ==> r == a - d
  {
    if 0 <= a < d then
      ModOfSmall(a, d, 0);
      a % d
    else if d <= a < d + d then
      ModOfSmall(a, d, 1);
      a % d
    else if a >= 0 then a % d
    else -((-a) % d)
  }

  lemma ModOfSmall(a: int, d: int, q: int)
    requires d > 0 && q * d <= a < q * d + d
    ensures a % d == a - q * d
  {
    var k := a / d;
    assert a == k * d + a % d;
    MulOutside(k - q, d);
  }

  lemma MulOutside(x: int, d: int)
    requires d > 0
    ensures x >= 1 ==> x * d >= d
    ensures x <= -1 ==> x * d <= -d
  {
  }

  // ---------------------------------------------------------------------
  // Decimal printing (`String(n)`, `n.toString()`)
  // ---------------------------------------------------------------------

  predicate IsDigit(c: char) {
    '0' <= c <= '9'
  }

  function DigitChar(d: nat): char
    requires d < 10
  {
    "0123456789"[d]
  }

  /** The decimal digits of `n`, most significant first, without leading zeros. */
  function NatToString(n: nat): (s: string)
    ensures |s| > 0
    ensures forall i :: 0 <= i < |s| ==> IsDigit(s[i])
  {
    if n < 10 then [DigitChar(n)] else NatToString(n / 10) + [DigitChar(n % 10)]
  }

  function IntToString(i: int): string {
    if i < 0 then "-" + NatToString(-i) else NatToString(i)
  }

  /** `n.toString()` */
  function NumberToString(n: Number): string {
    match n
    case NaN => "NaN"
    case Int(i) => IntToString(i)
  }

  // ---------------------------------------------------------------------
  // `parseInt(s)` with no radix
  // ---------------------------------------------------------------------

  /** The characters `trim` and `parseInt` skip: WhiteSpace and LineTerminator of ECMAScript. */
  predicate IsWhiteSpace(c: char) {
    c == '\t' || c == '\n' || c == '\U{000B}' || c == '\U{000C}' || c == '\r' || c == ' '
    || c == '\U{00A0}' || c == '\U{1680}' || ('\U{2000}' <= c <= '\U{200A}')
    || c == '\U{2028}' || c == '\U{2029}' || c == '\U{202F}' || c == '\U{205F}'
    || c == '\U{3000}' || c == '\U{FEFF}'
  }

  function SkipWhiteSpace(s: string): (r: string)
    ensures |r| <= |s|
    ensures r == [] || !IsWhiteSpace(r[0])
  {
    if s != [] && IsWhiteSpace(s[0]) then SkipWhiteSpace(s[1..]) else s
  }

  /** Skipping white space leaves a suffix of the text. */
  lemma {:induction false} SkipWhiteSpaceSuffix(s: string)
    ensures SkipWhiteSpace(s) == s[|s| - |SkipWhiteSpace(s)|..]
  {
    if s != [] && IsWhiteSpace(s[0]) {
      SkipWhiteSpaceSuffix(s[1..]);
      assert s[1..][|s[1..]| - |SkipWhiteSpace(s[1..])|..] == s[|s| - |SkipWhiteSpace(s)|..];
    }
  }

  /** The value of `c` as a digit in base `radix` (10 or 16), if it is one. */
  function DigitValue(c: char, radix: nat): Option<nat> {
    if '0' <= c <= '9' && (c as int) - ('0' as int) < radix then Some((c as int) - ('0' as int))
    else if radix == 16 && 'a' <= c <= 'f' then Some((c as int) - ('a' as int) + 10)
    else if radix == 16 && 'A' <= c <= 'F' then Some((c as int) - ('A' as int) + 10)
    else None
  }

  /** Length of the longest prefix of `s` made of base-`radix` digits. */
  function DigitRun(s: string, radix: nat): (n: nat)
    ensures n <= |s|
    ensures forall i :: 0 <= i < n ==> DigitValue(s[i], radix).Some?
    ensures n < |s| ==> DigitValue(s[n], radix).None?
  {
    if s != [] && DigitValue(s[0], radix).Some? then 1 + DigitRun(s[1..], radix) else 0
  }

  /** The value of a string of base-`radix` digits, most significant first. */
  function DigitsValue(s: string, radix: nat): nat
    requires forall i :: 0 <= i < |s| ==> DigitValue(s[i], radix).Some?
  {
    if s == [] then 0
    else DigitsValue(s[..|s| - 1], radix) * radix + DigitValue(s[|s| - 1], radix).value
  }

  /** The longest run of base-`radix` digits at the start of `s`; no digits gives NaN. */
  function LeadingDigits(s: string, radix: nat): Number {
    var n := DigitRun(s, radix);
    if n == 0 then NaN else Int(DigitsValue(s[..n], radix))
  }

  /** An unsigned `parseInt` body: base 16 after `0x`/`0X`, base 10 otherwise. */
  function ParseUnsigned(u: string): Number {
    if |u| >= 2 && u[0] == '0' && (u[1] == 'x' || u[1] == 'X') then LeadingDigits(u[2..], 16)
    else LeadingDigits(u, 10)
  }

  function Negate(n: Number): Number {
    match n
    case NaN => NaN
    case Int(v) => Int(-v)
  }

  /** `parseInt(s)`: skip white space, read an optional sign, then the digits. */
  function ParseInt(s: string): Number {
    var t := SkipWhiteSpace(s);
    if t != [] && t[0] == '-' then Negate(ParseUnsigned(t[1..]))
    else if t != [] && t[0] == '+' then ParseUnsigned(t[1..])
    else ParseUnsigned(t)
  }

  lemma {:induction false} DecimalDigitsValue(n: nat)
    ensures forall i :: 0 <= i < |NatToString(n)| ==> DigitValue(NatToString(n)[i], 10).Some?
    ensures DigitsValue(NatToString(n), 10) == n
  {
    var s := NatToString(n);
    if n >= 10 {
      DecimalDigitsValue(n / 10);
      assert s[..|s| - 1] == NatToString(n / 10);
    }
  }

  lemma {:induction false} DigitRunOfDigits(s: string)
    requires forall i :: 0 <= i < |s| ==> DigitValue(s[i], 10).Some?
    ensures DigitRun(s, 10) == |s|
  {
    if s != [] {
      DigitRunOfDigits(s[1..]);
    }
  }

  /** The unsigned parse of a printed natural number is that number. */
  lemma ParseUnsignedPrinted(m: nat)
    ensures ParseUnsigned(NatToString(m)) == Int(m)
  {
    var d := NatToString(m);
    DecimalDigitsValue(m);
    DigitRunOfDigits(d);
    assert d[..|d|] == d;
  }

  lemma PrintedStartsWithDigit(m: nat)
    ensures !IsWhiteSpace(NatToString(m)[0])
    ensures NatToString(m)[0] != '-' && NatToString(m)[0] != '+'
  {
    assert IsDigit(NatToString(m)[0]);
  }

  lemma ParseNonNegativePrinted(m: nat)
    ensures ParseInt(IntToString(m)) == Int(m)
  {
    assert IntToString(m) == NatToString(m);
    PrintedStartsWithDigit(m);
    ParseUnsignedPrinted(m);
  }

  lemma ParseNegativePrinted(m: nat)
    requires m > 0
    ensures ParseInt(IntToString(-(m as int))) == Int(-(m as int))
  {
    var s := IntToString(-(m as int));
    assert s == "-" + NatToString(m);
    assert s[0] == '-' && !IsWhiteSpace(s[0]);
    assert SkipWhiteSpace(s) == s;
    assert s[1..] == NatToString(m);
    ParseUnsignedPrinted(m);
  }

  /** `parseInt("NaN")` is NaN: `N` is neither white space, a sign nor a digit. */
  lemma ParseNaNPrinted()
    ensures ParseInt(NumberToString(NaN)) == NaN
  {
    var s := NumberToString(NaN);
    assert s == "NaN";
    assert !IsWhiteSpace(s[0]);
    assert SkipWhiteSpace(s) == s;
    assert DigitRun(s, 10) == 0;
  }

  /** Printing a number and parsing it back gives the number: what `applyPriceRange`
      writes into the URL is what the page reads back. */
  lemma ParsePrinted(n: Number)
    ensures ParseInt(NumberToString(n)) == n
  {
    if n.NaN? {
      ParseNaNPrinted();
    } else {
      var i := n.value;
      assert NumberToString(n) == IntToString(i);
      if i < 0 {
        ParseNegativePrinted(-i);
      } else {
        ParseNonNegativePrinted(i);
      }
    }
  }
}
