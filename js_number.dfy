/**
 * The JavaScript conversions from text to numbers that the controllers and import
 * scripts call: `parseInt`, `parseFloat` and `Number(string)`, plus the decimal
 * printing used by template strings such as `Course ${index + 1}`.
 * A JavaScript NaN is `None`; values are exact (`int` and `real`), not doubles.
 */
module JsNumber {
  import opened Wrappers
  import opened JsText

  /** The value of an ASCII digit or letter as a digit in bases up to 36. */
  function DigitOf(c: char): (v: Option<nat>)
    ensures v.Some? <==> IsAsciiAlnum(c)
    ensures v.Some? ==> v.value < 36 && (v.value < 10 <==> IsAsciiDigit(c))
  {
    if '0' <= c <= '9' then Some(c as nat - '0' as nat)
    else if 'a' <= c <= 'z' then Some(c as nat - 'a' as nat + 10)
    else if 'A' <= c <= 'Z' then Some(c as nat - 'A' as nat + 10)
    else None
  }

  /** `c` is a digit of base `radix`. */
  predicate IsDigitIn(c: char, radix: nat) {
    DigitOf(c).Some? && DigitOf(c).value < radix
  }

  predicate AllDigitsIn(s: string, radix: nat) {
    forall i :: 0 <= i < |s| ==> IsDigitIn(s[i], radix)
  }

  function Power(b: nat, k: nat): (p: nat)
    ensures b > 0 ==> p > 0
  {
    if k == 0 then 1 else b * Power(b, k - 1)
  }

  /** How many digits of base `radix` `s` starts with. */
  function LeadingDigits(s: string, radix: nat): (n: nat)
    ensures n <= |s|
    ensures forall i :: 0 <= i < n ==> IsDigitIn(s[i], radix)
    ensures n < |s| ==> !IsDigitIn(s[n], radix)
  {
    if s != [] && IsDigitIn(s[0], radix) then 1 + LeadingDigits(s[1..], radix) else 0
  }

  /** The number a string of base-`radix` digits denotes, most significant digit first. */
  function DigitsValue(d: string, radix: nat): nat
    requires AllDigitsIn(d, radix)
  {
    if d == [] then 0 else DigitsValue(d[..|d| - 1], radix) * radix + DigitOf(d[|d| - 1]).value
  }

  /** The character of a decimal digit. */
  function DecimalDigit(n: nat): (c: char)
    requires n < 10
    ensures IsDigitIn(c, 10) && DigitOf(c) == Some(n)
  {
    ('0' as nat + n) as char
  }

  /** The decimal text JavaScript prints for a non-negative integer. */
  function NatToDecimal(n: nat): (s: string)
    ensures s != [] && AllDigitsIn(s, 10) && DigitsValue(s, 10) == n
    ensures s[0] == '0' ==> s == "0"
  {
    if n < 10 then [DecimalDigit(n)]
    else
      var s := NatToDecimal(n / 10) + [DecimalDigit(n % 10)];
      assert s[..|s| - 1] == NatToDecimal(n / 10);
      s
  }

  /** Different numbers print differently. */
  lemma NatToDecimalInjective(m: nat, n: nat)
    requires NatToDecimal(m) == NatToDecimal(n)
    ensures m == n
  {
  }

  /** A string of digits is read in full. */
  lemma {:induction false} LeadingDigitsOfDigits(s: string, radix: nat)
    requires AllDigitsIn(s, radix)
    ensures LeadingDigits(s, radix) == |s|
  {
    if s != [] {
      LeadingDigitsOfDigits(s[1..], radix);
    }
  }

  /** `m * 10^e` for an integer exponent of either sign. */
  function Scale(m: real, e: int): (r: real)
    ensures m >= 0.0 ==> r >= 0.0
  {
    if e >= 0 then m * Power(10, e) as real else m / Power(10, -e) as real
  }

  /** A leading `-` or `+`: whether it negates, and the text after it. */
  function SignSplit(t: string): (r: (bool, string))
    ensures r.1 == if t != [] && (t[0] == '+' || t[0] == '-') then t[1..] else t
    ensures r.0 <==> t != [] && t[0] == '-'
  {
    if t != [] && (t[0] == '+' || t[0] == '-') then (t[0] == '-', t[1..]) else (false, t)
  }

  /** A number scanned from the start of a text and how many characters it took. */
  datatype Scan = Scan(value: real, length: nat)

  /** The optional exponent part `e`/`E`, sign, digits at the start of `s`: its value and
      length, or `(0, 0)` when no digit follows the `e` and the sign. */
  function ExponentPrefix(s: string): (r: (int, nat))
    ensures r.1 <= |s|
    ensures r.1 > 0 ==> s[0] == 'e' || s[0] == 'E'
  {
    if s == [] || (s[0] != 'e' && s[0] != 'E') then (0, 0)
    else
      var (neg, rest) := SignSplit(s[1..]);
      var k := |s| - 1 - |rest|;
      var d := LeadingDigits(rest, 10);
      if d == 0 then (0, 0)
      else
        var v: int := DigitsValue(rest[..d], 10);
        (if neg then -v else v, 1 + k + d)
  }

  /** `text` starts as a decimal literal must: with a digit, or a point and a digit. */
  predicate StartsDecimal(text: string) {
    (|text| > 0 && IsDigitIn(text[0], 10)) || (|text| > 1 && text[0] == '.' && IsDigitIn(text[1], 10))
  }

  /** The digits before and after an optional decimal point: their value read as one
      integer, how many follow the point, and how many characters the mantissa takes. */
  datatype Mantissa = Mantissa(digits: nat, fractionDigits: nat, length: nat)

  /** The longest prefix of `t` of the form digits, or digits `.` digits, with at least
      one digit on one side of the point. */
  function MantissaPrefix(t: string): (r: Option<Mantissa>)
    ensures r.Some? <==> StartsDecimal(t)
    ensures r.Some? ==> 0 < r.value.length <= |t|
  {
    var a := LeadingDigits(t, 10);
    if a < |t| && t[a] == '.' then
      var f := LeadingDigits(t[a + 1..], 10);
      if a + f == 0 then None
      else
        var digits := t[..a] + t[a + 1..a + 1 + f];
        assert AllDigitsIn(digits, 10) by {
          forall i | 0 <= i < |digits| ensures IsDigitIn(digits[i], 10) {
            if i >= a { assert digits[i] == t[a + 1..][i - a]; }
          }
        }
        Some(Mantissa(DigitsValue(digits, 10), f, a + 1 + f))
    else if a == 0 then None
    else Some(Mantissa(DigitsValue(t[..a], 10), 0, a))
  }

  /** The longest prefix of `t` that is an unsigned decimal literal (a mantissa and an
      optional exponent), with its exact value. */
  function UnsignedDecimalPrefix(t: string): (r: Option<Scan>)
    ensures r.Some? <==> StartsDecimal(t)
    ensures r.Some? ==> 0 < r.value.length <= |t| && r.value.value >= 0.0
  {
    match MantissaPrefix(t)
    case None => None
    case Some(m) =>
      var ex := ExponentPrefix(t[m.length..]);
      Some(Scan(Scale(m.digits as real, ex.0 - m.fractionDigits), m.length + ex.1))
  }

  /** An unsigned digit string is an unsigned decimal literal taken in full. */
  lemma {:induction false} UnsignedDecimalOfDigits(d: string)
    requires d != [] && AllDigitsIn(d, 10)
    ensures UnsignedDecimalPrefix(d) == Some(Scan(DigitsValue(d, 10) as real, |d|))
  {
    LeadingDigitsOfDigits(d, 10);
    assert d[..|d|] == d;
    var m := Mantissa(DigitsValue(d, 10), 0, |d|);
    assert MantissaPrefix(d) == Some(m);
    var ex := ExponentPrefix(d[|d|..]);
    assert ex == (0, 0) by { assert d[|d|..] == []; }
    assert Scale(m.digits as real, ex.0 - m.fractionDigits) == m.digits as real;
  }

  /** `parseFloat(s)`: leading white space and a sign are skipped, then the longest
      decimal literal is read; `None` (NaN) when there is none. */
  function ParseFloat(s: string): (r: Option<real>)
    ensures r.Some? <==> StartsDecimal(SignSplit(TrimStart(s)).1)
    ensures r.Some? && r.value < 0.0 ==> SignSplit(TrimStart(s)).0
  {
    var (neg, body) := SignSplit(TrimStart(s));
    match UnsignedDecimalPrefix(body)
    case None => None
    case Some(sc) => Some(if neg then -sc.value else sc.value)
  }

  /** `parseInt(s)` with no radix: leading white space and a sign are skipped; a `0x`
      or `0X` prefix selects base 16, otherwise base 10; the longest run of digits is
      read; `None` (NaN) when there is no digit. */
  function ParseInt(s: string): (r: Option<int>)
    ensures r.Some? && r.value < 0 ==> SignSplit(TrimStart(s)).0
  {
    var (neg, body) := SignSplit(TrimStart(s));
    if |body| >= 2 && body[0] == '0' && (body[1] == 'x' || body[1] == 'X') then
      var h := LeadingDigits(body[2..], 16);
      if h == 0 then None
      else
        var v: int := DigitsValue(body[2..2 + h], 16);
        Some(if neg then -v else v)
    else
      var d := LeadingDigits(body, 10);
      if d == 0 then None
      else
        var v: int := DigitsValue(body[..d], 10);
        Some(if neg then -v else v)
  }

  /** The base a `0x`, `0o` or `0b` prefix selects, if any. */
  function RadixOfPrefix(c: char): (r: Option<nat>)
    ensures r.Some? ==> r.value in {2, 8, 16}
  {
    if c == 'x' || c == 'X' then Some(16)
    else if c == 'o' || c == 'O' then Some(8)
    else if c == 'b' || c == 'B' then Some(2)
    else None
  }

  /** `Number` on a text without surrounding white space: the empty text is 0, and
      otherwise the whole text must be a signed decimal literal or an unsigned
      `0x`/`0o`/`0b` integer; anything else is `None` (NaN). */
  function TrimmedNumber(t: string): (r: Option<real>)
    ensures t == [] ==> r == Some(0.0)
  {
    if t == [] then Some(0.0)
    else if |t| > 2 && t[0] == '0' && RadixOfPrefix(t[1]).Some? then
      var radix := RadixOfPrefix(t[1]).value;
      if AllDigitsIn(t[2..], radix) then Some(DigitsValue(t[2..], radix) as real) else None
    else
      var (neg, body) := SignSplit(t);
      match UnsignedDecimalPrefix(body)
      case Some(sc) =>
        if sc.length == |body| then Some(if neg then -sc.value else sc.value) else None
      case None => None
  }

  /** `Number(s)` for a string: surrounding white space is ignored. */
  function ToNumber(s: string): (r: Option<real>)
    ensures Trim(s) == [] ==> r == Some(0.0)
  {
    TrimmedNumber(Trim(s))
  }

  /** `Number` ignores white space around the text. */
  lemma ToNumberIgnoresSpace(s: string)
    ensures ToNumber(s) == ToNumber(Trim(s))
  {
    TrimIdempotent(s);
  }

  /** A printed non-negative integer reads back as itself through `parseInt`. */
  lemma {:induction false} ParseIntOfDecimal(n: nat)
    ensures ParseInt(NatToDecimal(n)) == Some(n)
  {
    var s := NatToDecimal(n);
    assert LeadingSpaces(s) == 0 by { assert !IsSpace(s[0]); }
    assert TrimStart(s) == s;
    assert SignSplit(s) == (false, s);
    assert |s| >= 2 ==> s[1] != 'x' && s[1] != 'X' by {
      if |s| >= 2 { assert IsDigitIn(s[1], 10); }
    }
    LeadingDigitsOfDigits(s, 10);
    assert s[..|s|] == s;
  }

  /** ... through `parseFloat`. */
  lemma {:induction false} ParseFloatOfDecimal(n: nat)
    ensures ParseFloat(NatToDecimal(n)) == Some(n as real)
  {
    var s := NatToDecimal(n);
    assert LeadingSpaces(s) == 0 by { assert !IsSpace(s[0]); }
    assert TrimStart(s) == s;
    assert SignSplit(s) == (false, s);
    UnsignedDecimalOfDigits(s);
  }

  /** ... and through `Number`. */
  lemma {:induction false} ToNumberOfDecimal(n: nat)
    ensures ToNumber(NatToDecimal(n)) == Some(n as real)
  {
    var s := NatToDecimal(n);
    assert !IsSpace(s[0]) && !IsSpace(s[|s| - 1]);
    TrimUnpadded(s);
    assert s[0] == '0' ==> |s| == 1;
    assert s[0] != '+' && s[0] != '-';
    assert SignSplit(s) == (false, s);
    UnsignedDecimalOfDigits(s);
    assert UnsignedDecimalPrefix(s) == Some(Scan(n as real, |s|));
  }
}
