/** Percent-encoding (section 2.1 of RFC 3986), as QUrl::fromPercentEncoding undoes it. */
module Percent {
  import opened Text
  import opened Utf8

  function HexDigit(v: int): (c: char)
    requires 0 <= v < 16
  {
    if v < 10 then ('0' as int + v) as char else ('A' as int + v - 10) as char
  }

  /** The value of a hexadecimal digit in either case, or -1. */
  function HexValue(b: Byte): (v: int)
    ensures -1 <= v < 16
  {
    if '0' as int <= b <= '9' as int then b - '0' as int
    else if 'A' as int <= b <= 'F' as int then b - 'A' as int + 10
    else if 'a' as int <= b <= 'f' as int then b - 'a' as int + 10
    else -1
  }

  const PERCENT: Byte := 0x25

  function Unescape(b: seq<Byte>): seq<Byte> {
    if b == [] then []
    else if b[0] == PERCENT && |b| >= 3 && HexValue(b[1]) >= 0 && HexValue(b[2]) >= 0 then
      [HexValue(b[1]) * 16 + HexValue(b[2])] + Unescape(b[3..])
    else [b[0]] + Unescape(b[1..])
  }

  /** QUrl::fromPercentEncoding applied to the UTF-8 form of `s`. */
  function Decode(s: string): string {
    FromUtf8(Unescape(Utf8.Encode(s)))
  }

  predicate IsUnreserved(c: char) {
    'A' <= c <= 'Z' || 'a' <= c <= 'z' || '0' <= c <= '9' || c == '-' || c == '.' || c == '_' || c == '~'
  }

  function EscapeByte(b: Byte): (s: string)
    ensures forall i :: 0 <= i < |s| ==> IsUnreserved(s[i]) || s[i] == '%'
    ensures |s| >= 1
  {
    if b < 0x80 && IsUnreserved(b as char) then [b as char]
    else ['%', HexDigit(b / 16), HexDigit(b % 16)]
  }

  function Escape(b: seq<Byte>): (s: string)
    ensures forall i :: 0 <= i < |s| ==> IsUnreserved(s[i]) || s[i] == '%'
    ensures s == "" <==> b == []
  {
    if b == [] then "" else EscapeByte(b[0]) + Escape(b[1..])
  }

  /** What a link writer puts in place of `s`: every byte outside the unreserved set is escaped. */
  function Encode(s: string): (r: string)
    ensures forall i :: 0 <= i < |r| ==> IsUnreserved(r[i]) || r[i] == '%'
  {
    Escape(Utf8.Encode(s))
  }

  lemma {:induction false} UnescapeByte(b: Byte, rest: seq<Byte>)
    ensures Unescape(Utf8.Encode(EscapeByte(b)) + rest) == [b] + Unescape(rest)
  {
    var e := Utf8.Encode(EscapeByte(b));
    EncodeAscii(EscapeByte(b));
    var all := e + rest;
    if b < 0x80 && IsUnreserved(b as char) {
      assert all[0] == b && all[1..] == rest;
    } else {
      assert all[0] == PERCENT && all[3..] == rest;
      assert HexValue(all[1]) == b / 16 && HexValue(all[2]) == b % 16;
    }
  }

  lemma {:induction false} UnescapeOfEscape(b: seq<Byte>)
    ensures Unescape(Utf8.Encode(Escape(b))) == b
  {
    if b != [] {
      hide Unescape, EscapeByte, Utf8.Encode;
      EncodeConcat(EscapeByte(b[0]), Escape(b[1..]));
      UnescapeByte(b[0], Utf8.Encode(Escape(b[1..])));
      UnescapeOfEscape(b[1..]);
    }
  }

  /** Decoding inverts encoding except for a leading byte order mark. */
  lemma {:induction false} RoundTrip(s: string)
    ensures Decode(Encode(s)) == StripBom(s)
  {
    UnescapeOfEscape(Utf8.Encode(s));
    Utf8.RoundTrip(s);
  }

  /** Text without a percent sign stands for itself; a plus sign is no space. */
  lemma {:induction false} PlainIsKept(s: string)
    requires '%' !in s
    ensures Decode(s) == StripBom(s)
  {
    NoPercentByte(s);
    UnescapePlain(Utf8.Encode(s));
    Utf8.RoundTrip(s);
    hide Utf8.Encode, FromUtf8;
  }

  lemma {:induction false} UnescapePlain(b: seq<Byte>)
    requires PERCENT !in b
    ensures Unescape(b) == b
  {
    if b != [] {
      UnescapePlain(b[1..]);
      assert b == [b[0]] + b[1..];
    }
  }

  lemma {:induction false} NoPercentByte(s: string)
    requires '%' !in s
    ensures PERCENT !in Utf8.Encode(s)
  {
    if s != "" {
      NoPercentByte(s[1..]);
      PercentIsPlain(s[0]);
    }
  }

  lemma {:induction false} PercentIsPlain(c: char)
    requires c != '%'
    ensures PERCENT !in EncodeChar(c)
  {
    EncodeCharDigits(c);
  }

  /** An escape is two hexadecimal digits in either case; what is none stands for itself. */
  lemma {:induction false} EscapesAreRead(rest: seq<Byte>)
    ensures Unescape([0x25, 0x32, 0x46] + rest) == [0x2F] + Unescape(rest)
    ensures Unescape([0x25, 0x32, 0x66] + rest) == [0x2F] + Unescape(rest)
    ensures Unescape([0x25, 0x67]) == [0x25, 0x67]
  {
    assert ([0x25, 0x32, 0x46] + rest)[3..] == rest && ([0x25, 0x32, 0x66] + rest)[3..] == rest;
    assert [0x25, 0x67][1..] == [0x67] && [0x67][1..] == [];
  }
}
