/**
 * JavaScript's `encodeURIComponent`: every character outside the unreserved set
 * `A-Z a-z 0-9 - _ . ! ~ * ' ( )` is replaced by the percent-encoding of its UTF-8
 * bytes (section 2.1 of RFC 3986), with upper-case hexadecimal digits.
 */
module JsUri {
  import opened Wrappers
  import opened JsText

  type Byte = b: int | 0 <= b < 256

  /** The characters `encodeURIComponent` leaves as they are. */
  predicate IsUnreserved(c: char) {
    IsAsciiAlnum(c) || c in "-_.!~*'()"
  }

  /** The UTF-8 encoding of one Unicode scalar value: one to four bytes. */
  function Utf8(c: char): (bs: seq<Byte>)
    ensures 1 <= |bs| <= 4
    ensures |bs| == 1 <==> (c as int) < 0x80
    ensures |bs| == 1 ==> bs[0] == c as int
  {
    var n := c as int;
    if n < 0x80 then [n]
    else if n < 0x800 then [0xC0 + n / 0x40, 0x80 + n % 0x40]
    else if n < 0x1_0000 then [0xE0 + n / 0x1000, 0x80 + (n / 0x40) % 0x40, 0x80 + n % 0x40]
    else [0xF0 + n / 0x4_0000, 0x80 + (n / 0x1000) % 0x40, 0x80 + (n / 0x40) % 0x40, 0x80 + n % 0x40]
  }

  /** The UTF-8 encoding of a string. */
  function Utf8Encode(s: string): seq<Byte> {
    if s == [] then [] else Utf8(s[0]) + Utf8Encode(s[1..])
  }

  /** The upper-case hexadecimal digit for 0..15. */
  function HexDigit(d: nat): (c: char)
    requires d < 16
    ensures IsHexUpper(c)
  {
    if d < 10 then ('0' as int + d) as char else ('A' as int + d - 10) as char
  }

  predicate IsHexUpper(c: char) { '0' <= c <= '9' || 'A' <= c <= 'F' }

  /** The value of an upper-case hexadecimal digit. */
  function HexValue(c: char): (d: nat)
    requires IsHexUpper(c)
    ensures d < 16 && HexDigit(d) == c
  {
    if c <= '9' then c as int - '0' as int else c as int - 'A' as int + 10
  }

  /** `%HH` for each byte. */
  function PercentBytes(bs: seq<Byte>): (t: string)
    ensures |t| == 3 * |bs|
    ensures forall i :: 0 <= i < |t| ==> t[i] == '%' || IsHexUpper(t[i])
  {
    if bs == [] then []
    else ['%', HexDigit(bs[0] / 16), HexDigit(bs[0] % 16)] + PercentBytes(bs[1..])
  }

  /** One character as `encodeURIComponent` writes it. */
  function EncodeChar(c: char): (t: string)
    ensures IsUnreserved(c) ==> t == [c]
    ensures !IsUnreserved(c) ==> |t| == 3 * |Utf8(c)| && t[0] == '%'
    ensures forall i :: 0 <= i < |t| ==> IsUnreserved(t[i]) || t[i] == '%' || IsHexUpper(t[i])
  {
    if IsUnreserved(c) then [c] else PercentBytes(Utf8(c))
  }

  /** `encodeURIComponent(s)` for a string of Unicode scalar values. */
  function EncodeURIComponent(s: string): (t: string)
    ensures forall i :: 0 <= i < |t| ==> IsUnreserved(t[i]) || t[i] == '%' || IsHexUpper(t[i])
    ensures |s| <= |t|
  {
    if s == [] then [] else EncodeChar(s[0]) + EncodeURIComponent(s[1..])
  }

  /** Reads an encoded text back to bytes: an unreserved character stands for its own
      ASCII byte and `%HH` for the byte HH; anything else is malformed. */
  function DecodeBytes(t: string): Option<seq<Byte>> {
    if t == [] then Some([])
    else if t[0] == '%' then
      if |t| >= 3 && IsHexUpper(t[1]) && IsHexUpper(t[2]) then
        match DecodeBytes(t[3..])
        case Some(rest) => Some([HexValue(t[1]) * 16 + HexValue(t[2])] + rest)
        case None => None
      else None
    else if IsUnreserved(t[0]) then
      match DecodeBytes(t[1..])
      case Some(rest) => Some([t[0] as int] + rest)
      case None => None
    else None
  }

  /** Prepends bytes to a decoding result. */
  function Prepend(bs: seq<Byte>, r: Option<seq<Byte>>): Option<seq<Byte>> {
    match r
    case Some(rest) => Some(bs + rest)
    case None => None
  }

  lemma {:induction false} DecodePercentBytes(bs: seq<Byte>, rest: string)
    ensures DecodeBytes(PercentBytes(bs) + rest) == Prepend(bs, DecodeBytes(rest))
  {
    if bs != [] {
      var t := PercentBytes(bs) + rest;
      var b := bs[0];
      assert HexValue(HexDigit(b / 16)) == b / 16;
      assert HexValue(HexDigit(b % 16)) == b % 16;
      assert t[0] == '%' && t[1] == HexDigit(b / 16) && t[2] == HexDigit(b % 16);
      assert t[3..] == PercentBytes(bs[1..]) + rest;
      DecodePercentBytes(bs[1..], rest);
      assert HexValue(t[1]) * 16 + HexValue(t[2]) == b;
      assert [b] + bs[1..] == bs;
      match DecodeBytes(rest)
      case None =>
      case Some(r) => assert [b] + (bs[1..] + r) == bs + r;
    } else {
      assert PercentBytes(bs) + rest == rest;
      match DecodeBytes(rest)
      case None =>
      case Some(r) => assert bs + r == r;
    }
  }

  lemma DecodeEncodedChar(c: char, rest: string)
    ensures DecodeBytes(EncodeChar(c) + rest) == Prepend(Utf8(c), DecodeBytes(rest))
  {
    if IsUnreserved(c) {
      assert ([c] + rest)[1..] == rest;
    } else {
      DecodePercentBytes(Utf8(c), rest);
    }
  }

  /** Decoding what `encodeURIComponent` wrote gives back the UTF-8 bytes of the input:
      the encoding loses nothing. */
  lemma {:induction false} DecodeEncode(s: string)
    ensures DecodeBytes(EncodeURIComponent(s)) == Some(Utf8Encode(s))
  {
    if s != [] {
      DecodeEncodedChar(s[0], EncodeURIComponent(s[1..]));
      DecodeEncode(s[1..]);
    }
  }
}
