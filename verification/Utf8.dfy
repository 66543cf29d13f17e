/** QString::toUtf8 and QString::fromUtf8. */
module Utf8 {

  type Byte = b: int | 0 <= b < 256

  function EncodeChar(c: char): (b: seq<Byte>)
    ensures 1 <= |b| <= 4
  {
    var u := c as int;
    if u < 0x80 then [u]
    else if u < 0x800 then [0xC0 + u / 64, 0x80 + u % 64]
    else if u < 0x1_0000 then [0xE0 + u / 64 / 64, 0x80 + u / 64 % 64, 0x80 + u % 64]
    else [0xF0 + u / 64 / 64 / 64, 0x80 + u / 64 / 64 % 64, 0x80 + u / 64 % 64, 0x80 + u % 64]
  }

  function Encode(s: string): seq<Byte> {
    if s == "" then [] else EncodeChar(s[0]) + Encode(s[1..])
  }

  const REPLACEMENT: char := 0xFFFD as char

  predicate IsContinuation(b: Byte) {
    0x80 <= b < 0xC0
  }

  predicate IsScalar(u: int) {
    0 <= u < 0xD800 || 0xE000 <= u < 0x11_0000
  }

  /** The two-, three- and four-byte sequences, as the code point their payload bits spell. */
  function Join2(b0: int, b1: int): int {
    (b0 - 0xC0) * 64 + (b1 - 0x80)
  }

  function Join3(b0: int, b1: int, b2: int): int {
    (b0 - 0xE0) * 4096 + (b1 - 0x80) * 64 + (b2 - 0x80)
  }

  function Join4(b0: int, b1: int, b2: int, b3: int): int {
    (b0 - 0xF0) * 0x4_0000 + (b1 - 0x80) * 4096 + (b2 - 0x80) * 64 + (b3 - 0x80)
  }

  /** One character and the bytes it used; a malformed byte gives U+FFFD and uses one byte. */
  function DecodeOne(b: seq<Byte>): (r: (char, nat))
    requires b != []
    ensures 1 <= r.1 <= |b|
  {
    if b[0] < 0x80 then (b[0] as char, 1)
    else if 0xC2 <= b[0] < 0xE0 && |b| >= 2 && IsContinuation(b[1]) then
      (Join2(b[0], b[1]) as char, 2)
    else if 0xE0 <= b[0] < 0xF0 && |b| >= 3 && IsContinuation(b[1]) && IsContinuation(b[2]) then
      var u := Join3(b[0], b[1], b[2]);
      if u >= 0x800 && IsScalar(u) then (u as char, 3) else (REPLACEMENT, 1)
    else if 0xF0 <= b[0] < 0xF5 && |b| >= 4
            && IsContinuation(b[1]) && IsContinuation(b[2]) && IsContinuation(b[3]) then
      var u := Join4(b[0], b[1], b[2], b[3]);
      if u >= 0x1_0000 && IsScalar(u) then (u as char, 4) else (REPLACEMENT, 1)
    else (REPLACEMENT, 1)
  }

  function Decode(b: seq<Byte>): string {
    if b == [] then "" else
      var (c, n) := DecodeOne(b);
      [c] + Decode(b[n..])
  }

  const BOM: char := 0xFEFF as char
  const BOM_BYTES: seq<Byte> := [0xEF, 0xBB, 0xBF]

  predicate HasBom(s: string) {
    s != "" && s[0] == BOM
  }

  function StripBom(s: string): string {
    if HasBom(s) then s[1..] else s
  }

  /** QString::fromUtf8: a leading byte order mark is dropped. */
  function FromUtf8(b: seq<Byte>): string {
    if BOM_BYTES <= b then Decode(b[3..]) else Decode(b)
  }

  /** The byte layout, as a relation between a code point and the four base-64 digits it is cut into. */
  lemma {:induction false} EncodeCharDigits(c: char)
    ensures var u := c as int; var d := u / 64; var e := d / 64; var f := e / 64;
            && u == f * 0x4_0000 + (e % 64) * 4096 + (d % 64) * 64 + u % 64
            && (u < 0x1_0000 ==> u == e * 4096 + (d % 64) * 64 + u % 64)
  {
  }

  lemma {:induction false} DecodeOneOfEncode(c: char, rest: seq<Byte>)
    ensures DecodeOne(EncodeChar(c) + rest) == (c, |EncodeChar(c)|)
  {
    var b := EncodeChar(c) + rest;
    EncodeCharDigits(c);
    assert forall i :: 0 <= i < |EncodeChar(c)| ==> b[i] == EncodeChar(c)[i];
  }

  lemma {:induction false} DecodeStep(c: char, rest: seq<Byte>)
    ensures Decode(EncodeChar(c) + rest) == [c] + Decode(rest)
  {
    var e := EncodeChar(c);
    DecodeOneOfEncode(c, rest);
    assert (e + rest)[|e|..] == rest;
  }

  lemma {:induction false} DecodeOfEncode(s: string, rest: seq<Byte>)
    ensures Decode(Encode(s) + rest) == s + Decode(rest)
    decreases |s|
  {
    hide EncodeChar, DecodeOne;
    if s == "" {
      assert Encode(s) + rest == rest;
    } else {
      DecodeOfEncode(s[1..], rest);
      DecodeStep(s[0], Encode(s[1..]) + rest);
      assert Encode(s) + rest == EncodeChar(s[0]) + (Encode(s[1..]) + rest);
      hide Decode, Encode;
      assert [s[0]] + (s[1..] + Decode(rest)) == s + Decode(rest);
    }
  }

  lemma {:induction false} EncodeConcat(a: string, b: string)
    ensures Encode(a + b) == Encode(a) + Encode(b)
    decreases |a|
  {
    if a == "" {
      assert a + b == b;
    } else {
      assert (a + b)[1..] == a[1..] + b;
      EncodeConcat(a[1..], b);
    }
  }

  /** An encoding starts with the three mark bytes exactly when the text starts with U+FEFF. */
  lemma {:induction false} BomOfEncode(s: string)
    ensures BOM_BYTES <= Encode(s) <==> HasBom(s)
  {
    if HasBom(s) {
      assert Encode(s) == BOM_BYTES + Encode(s[1..]);
    } else if s != "" {
      EncodeCharDigits(s[0]);
      assert EncodeChar(s[0])[0] == Encode(s)[0];
      assert |EncodeChar(s[0])| == 3 ==> EncodeChar(s[0])[1] == Encode(s)[1] && EncodeChar(s[0])[2] == Encode(s)[2];
    }
  }

  lemma {:induction false} EncodeBom()
    ensures EncodeChar(BOM) == BOM_BYTES
  {
  }

  /** Decoding inverts encoding except that a leading byte order mark is lost. */
  lemma {:induction false} RoundTrip(s: string)
    ensures FromUtf8(Encode(s)) == StripBom(s)
  {
    hide EncodeChar, DecodeOne;
    BomOfEncode(s);
    var t := StripBom(s);
    if HasBom(s) {
      assert EncodeChar(BOM) == BOM_BYTES by { EncodeBom(); }
      assert Encode(s) == BOM_BYTES + Encode(t);
    }
    assert HasBom(s) ==> Encode(s)[3..] == Encode(t);
    assert Encode(t) + [] == Encode(t);
    DecodeOfEncode(t, []);
  }

  /** Byte 0 appears in the encoding exactly when U+0000 appears in the text. */
  lemma {:induction false} NulOfEncode(s: string)
    ensures 0 in Encode(s) <==> '\0' in s
  {
    if s != "" {
      NulOfEncode(s[1..]);
      assert s == [s[0]] + s[1..];
      assert 0 in EncodeChar(s[0]) <==> s[0] == '\0';
    }
  }

  predicate IsAscii(s: string) {
    forall i :: 0 <= i < |s| ==> s[i] as int < 0x80
  }

  /** On ASCII text the encoding is the identity on code units. */
  lemma {:induction false} EncodeAscii(s: string)
    requires IsAscii(s)
    ensures |Encode(s)| == |s|
    ensures forall i :: 0 <= i < |s| ==> Encode(s)[i] == s[i] as int
  {
    if s != "" {
      EncodeAscii(s[1..]);
    }
  }

  /** One character of each length, as in section 7 of RFC 3629. */
  lemma {:induction false} TestVectors()
    ensures EncodeChar('A') == [0x41]
    ensures EncodeChar(0x0391 as char) == [0xCE, 0x91]
    ensures EncodeChar(0x2262 as char) == [0xE2, 0x89, 0xA2]
    ensures EncodeChar(0x2_33B4 as char) == [0xF0, 0xA3, 0x8E, 0xB4]
  {
  }
}
