/** PHP's `urlencode` and its inverse `urldecode`. PHP strings are byte
    strings; a Dafny string is a sequence of Unicode scalar values, so a
    character stands here for its UTF-8 bytes, which is what a PHP string
    holding that text contains. */
module UrlEncoding {

  type Byte = b: int | 0 <= b < 256

  /** The characters `urlencode` leaves alone: ASCII letters, digits and `-_.`. */
  predicate Unreserved(c: char)
  {
    ('a' <= c <= 'z') || ('A' <= c <= 'Z') || ('0' <= c <= '9') || c == '-' || c == '_' || c == '.'
  }

  /** The UTF-8 encoding of one character. */
  function Utf8(c: char): (bs: seq<Byte>)
    ensures 1 <= |bs| <= 4
    ensures (|bs| == 1) == (c as int < 0x80)
    ensures |bs| == 1 ==> bs[0] == c as int
  {
    var cp := c as int;
    if cp < 0x80 then [cp]
    else if cp < 0x800 then [0xC0 + cp / 64, 0x80 + cp % 64]
    else if cp < 0x1_0000 then [0xE0 + cp / 4096, 0x80 + (cp / 64) % 64, 0x80 + cp % 64]
    else [0xF0 + cp / 0x4_0000, 0x80 + (cp / 4096) % 64, 0x80 + (cp / 64) % 64, 0x80 + cp % 64]
  }

  /** The bytes of a whole string. */
  function Utf8String(s: string): seq<Byte>
  {
    if |s| == 0 then [] else Utf8(s[0]) + Utf8String(s[1..])
  }

  function HexDigit(d: nat): (c: char)
    requires d < 16
    ensures ('0' <= c <= '9') || ('A' <= c <= 'F')
  {
    if d < 10 then ('0' as int + d) as char else ('A' as int + d - 10) as char
  }

  predicate IsHex(c: char)
  {
    ('0' <= c <= '9') || ('a' <= c <= 'f') || ('A' <= c <= 'F')
  }

  function HexValue(c: char): (d: nat)
    requires IsHex(c)
    ensures d < 16
  {
    if '0' <= c <= '9' then c as int - '0' as int
    else if 'a' <= c <= 'f' then c as int - 'a' as int + 10
    else c as int - 'A' as int + 10
  }

  /** `%XY` for one byte, upper-case hex as PHP writes it. */
  function PercentByte(b: Byte): (r: string)
    ensures |r| == 3
    ensures forall k :: 0 <= k < 3 ==> r[k] == '%' || Unreserved(r[k])
  {
    ['%', HexDigit(b / 16), HexDigit(b % 16)]
  }

  /** `%XY` for every byte. */
  function Percent(bs: seq<Byte>): (r: string)
    ensures |r| == 3 * |bs|
    ensures forall k :: 0 <= k < |r| ==> r[k] == '%' || Unreserved(r[k])
  {
    if |bs| == 0 then [] else PercentByte(bs[0]) + Percent(bs[1..])
  }

  /** How `urlencode` writes one character. */
  function EncodeChar(c: char): (r: string)
    ensures |r| >= 1
    ensures forall k :: 0 <= k < |r| ==> r[k] == '%' || r[k] == '+' || Unreserved(r[k])
  {
    if Unreserved(c) then [c]
    else if c == ' ' then "+"
    else Percent(Utf8(c))
  }

  /** `urlencode(s)`. Every character of the result is unreserved, `+` or
      `%`, so an encoded value can never hold the `&`, `=`, `?` or `#`
      that delimit the parts of a URL. */
  function UrlEncode(s: string): (r: string)
    ensures |r| >= |s|
    ensures forall k :: 0 <= k < |r| ==> r[k] == '%' || r[k] == '+' || Unreserved(r[k])
  {
    if |s| == 0 then "" else EncodeChar(s[0]) + UrlEncode(s[1..])
  }

  /** `urldecode(s)`: `+` is a space, `%XY` (either case of hex) is one
      byte, and every other character stands for its own bytes. */
  function UrlDecode(s: string): seq<Byte>
  {
    if |s| == 0 then []
    else if s[0] == '%' && |s| >= 3 && IsHex(s[1]) && IsHex(s[2]) then
      [HexValue(s[1]) * 16 + HexValue(s[2])] + UrlDecode(s[3..])
    else if s[0] == '+' then [32] + UrlDecode(s[1..])
    else Utf8(s[0]) + UrlDecode(s[1..])
  }

  /** `%XY` decodes to the byte it was written for. */
  lemma DecodeByte(b: Byte, rest: string)
    ensures UrlDecode(PercentByte(b) + rest) == [b] + UrlDecode(rest)
  {
  }

  lemma {:induction false} DecodePercent(bs: seq<Byte>, rest: string)
    ensures UrlDecode(Percent(bs) + rest) == bs + UrlDecode(rest)
  {
    if |bs| > 0 {
      var tail := Percent(bs[1..]) + rest;
      calc {
        UrlDecode(Percent(bs) + rest);
        { assert Percent(bs) + rest == PercentByte(bs[0]) + tail; }
        UrlDecode(PercentByte(bs[0]) + tail);
        { DecodeByte(bs[0], tail); }
        [bs[0]] + UrlDecode(tail);
        { DecodePercent(bs[1..], rest); }
        [bs[0]] + (bs[1..] + UrlDecode(rest));
        { assert [bs[0]] + bs[1..] == bs; }
        bs + UrlDecode(rest);
      }
    } else {
      assert Percent(bs) + rest == rest;
    }
  }

  lemma DecodeEncodeChar(c: char, rest: string)
    ensures UrlDecode(EncodeChar(c) + rest) == Utf8(c) + UrlDecode(rest)
  {
    if Unreserved(c) || c == ' ' {
      assert (EncodeChar(c) + rest)[1..] == rest;
    } else {
      DecodePercent(Utf8(c), rest);
    }
  }

  /** `urldecode(urlencode(s))` gives back the bytes of `s`. */
  lemma {:induction false} DecodeEncode(s: string)
    ensures UrlDecode(UrlEncode(s)) == Utf8String(s)
  {
    if |s| > 0 {
      DecodeEncodeChar(s[0], UrlEncode(s[1..]));
      DecodeEncode(s[1..]);
    }
  }

  /** Text made only of letters, digits and `-_.` is sent unchanged. */
  lemma {:induction false} EncodeUnreserved(s: string)
    requires forall k :: 0 <= k < |s| ==> Unreserved(s[k])
    ensures UrlEncode(s) == s
  {
    if |s| > 0 {
      EncodeUnreserved(s[1..]);
    }
  }
}
