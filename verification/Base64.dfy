/** Base64 (sections 4 and 5 of RFC 4648) and the client's tolerant decoding of pasted payloads. */
module Base64 {
  import opened Text
  import opened Utf8

  datatype Option<+T> = None | Some(value: T)

  type Sextet = v: int | 0 <= v < 64

  /** The standard alphabet. */
  function Symbol(v: Sextet): char {
    if v < 26 then ('A' as int + v) as char
    else if v < 52 then ('a' as int + v - 26) as char
    else if v < 62 then ('0' as int + v - 52) as char
    else if v == 62 then '+'
    else '/'
  }

  /** The value of a standard-alphabet character, or -1. */
  function SextetOf(c: char): (v: int)
    ensures -1 <= v < 64
    ensures v >= 0 ==> Symbol(v) == c
  {
    if 'A' <= c <= 'Z' then c as int - 'A' as int
    else if 'a' <= c <= 'z' then c as int - 'a' as int + 26
    else if '0' <= c <= '9' then c as int - '0' as int + 52
    else if c == '+' then 62
    else if c == '/' then 63
    else -1
  }

  predicate IsSymbol(c: char) {
    SextetOf(c) >= 0
  }

  lemma {:induction false} SextetOfSymbol(v: Sextet)
    ensures SextetOf(Symbol(v)) == v
  {
  }

  /** One to three bytes as one group of four characters. */
  function EncodeGroup(b: seq<Byte>): (s: string)
    requires 1 <= |b| <= 3
    ensures |s| == 4
    ensures |b| == 3 ==> s[3] != '='
    ensures forall i :: |b| < i < 4 ==> s[i] == '='
    ensures forall i :: 0 <= i < 4 ==> IsPayloadChar(s[i])
  {
    var head := [Symbol(b[0] / 4)];
    if |b| == 1 then head + [Symbol(b[0] % 4 * 16), '=', '=']
    else if |b| == 2 then head + [Symbol(b[0] % 4 * 16 + b[1] / 16), Symbol(b[1] % 16 * 4), '=']
    else head + [Symbol(b[0] % 4 * 16 + b[1] / 16), Symbol(b[1] % 16 * 4 + b[2] / 64), Symbol(b[2] % 64)]
  }

  predicate IsPayloadChar(c: char) {
    IsSymbol(c) || c == '='
  }

  /** The canonical, padded encoding. */
  function EncodeBytes(b: seq<Byte>): (s: string)
    ensures |s| % 4 == 0
    ensures |s| >= |b|
  {
    if b == [] then ""
    else if |b| <= 3 then EncodeGroup(b)
    else EncodeGroup(b[..3]) + EncodeBytes(b[3..])
  }

  /** How many '=' the canonical encoding of n bytes ends in. */
  function PadCount(n: nat): (p: nat)
    ensures p <= 2
  {
    (3 - n % 3) % 3
  }

  /** The bytes of a last group of four, which alone may hold padding. */
  function DecodeFinal(q: string): Option<seq<Byte>>
    requires |q| == 4
  {
    var v0, v1, v2, v3 := SextetOf(q[0]), SextetOf(q[1]), SextetOf(q[2]), SextetOf(q[3]);
    if v0 < 0 || v1 < 0 then None
    else if q[3] == '=' && q[2] == '=' then Some([v0 * 4 + v1 / 16])
    else if v2 < 0 then None
    else if q[3] == '=' then Some([v0 * 4 + v1 / 16, v1 % 16 * 16 + v2 / 4])
    else if v3 < 0 then None
    else Some([v0 * 4 + v1 / 16, v1 % 16 * 16 + v2 / 4, v2 % 4 * 64 + v3])
  }

  /** Strict decoding of whole groups: an illegal character or misplaced padding is an error. */
  function DecodeBytes(s: string): Option<seq<Byte>>
    requires |s| % 4 == 0
  {
    if s == "" then Some([])
    else if |s| == 4 then DecodeFinal(s)
    else if s[3] == '=' then None
    else
      match DecodeFinal(s[..4])
      case None => None
      case Some(head) =>
        match DecodeBytes(s[4..])
        case None => None
        case Some(tail) => Some(head + tail)
  }

  function PadMarks(n: nat): (s: string)
    ensures |s| == n
    ensures forall i :: 0 <= i < n ==> s[i] == '='
  {
    seq(n, i => '=')
  }

  function RemoveSpaces(s: string): string {
    if s == "" then ""
    else (if IsAsciiSpace(s[0]) then "" else [s[0]]) + RemoveSpaces(s[1..])
  }

  /** The URL-safe characters of section 5 mapped onto the standard alphabet. */
  function StandardChar(c: char): char {
    if c == '-' then '+' else if c == '_' then '/' else c
  }

  function Standard(s: string): (r: string)
    ensures |r| == |s|
    ensures forall i :: 0 <= i < |s| ==> r[i] == StandardChar(s[i])
  {
    seq(|s|, i requires 0 <= i < |s| => StandardChar(s[i]))
  }

  /** Filled with '=' up to a whole number of groups. */
  function Padded(s: string): (r: string)
    ensures |r| % 4 == 0
    ensures s <= r
  {
    s + PadMarks((4 - |s| % 4) % 4)
  }

  function Compact(input: string): string {
    Standard(RemoveSpaces(input))
  }

  /**
   * What tryBase64Decode returns. `minLength` is 8 where profiles are imported and 1 where nodes are
   * parsed. Latin-1 conversion turns any character above U+00FF into '?', which is as illegal as the
   * character itself, so it is not modelled separately.
   */
  function TryDecode(minLength: nat, input: string): string {
    var compact := Compact(input);
    if |compact| < minLength then "" else
      match DecodeBytes(Padded(compact))
      case None => ""
      case Some(b) => if b == [] || 0 in b then "" else FromUtf8(b)
  }

  /** tryBase64Decode as written, with its padding loop. */
  method TryBase64Decode(minLength: nat, input: string) returns (r: string)
    ensures r == TryDecode(minLength, input)
  {
    var compact := Standard(RemoveSpaces(input));
    if |compact| < minLength {
      return "";
    }
    ghost var unpadded := compact;
    while |compact| % 4 != 0
      invariant unpadded <= compact && |compact| <= |Padded(unpadded)|
      invariant forall i :: |unpadded| <= i < |compact| ==> compact[i] == '='
      decreases |Padded(unpadded)| - |compact|
    {
      compact := compact + ['='];
    }
    assert compact == Padded(unpadded);
    var decoded := DecodeBytes(compact);
    if decoded.None? || decoded.value == [] || 0 in decoded.value {
      return "";
    }
    r := FromUtf8(decoded.value);
  }

  lemma {:induction false} GroupRoundTrip(b: seq<Byte>)
    requires 1 <= |b| <= 3
    ensures DecodeFinal(EncodeGroup(b)) == Some(b)
  {
    hide Symbol, SextetOf;
    SextetOfSymbol(b[0] / 4);
    PadIsNoSymbol();
    if |b| == 1 {
      SextetOfSymbol(b[0] % 4 * 16);
      assert b == [b[0]];
    } else if |b| == 2 {
      SextetOfSymbol(b[0] % 4 * 16 + b[1] / 16);
      SextetOfSymbol(b[1] % 16 * 4);
      assert b == [b[0], b[1]];
    } else {
      SextetOfSymbol(b[0] % 4 * 16 + b[1] / 16);
      SextetOfSymbol(b[1] % 16 * 4 + b[2] / 64);
      SextetOfSymbol(b[2] % 64);
      assert b == [b[0], b[1], b[2]];
    }
  }

  lemma {:induction false} PadIsNoSymbol()
    ensures forall v: Sextet :: Symbol(v) != '='
  {
  }

  lemma {:induction false} DecodeOfEncode(b: seq<Byte>)
    ensures DecodeBytes(EncodeBytes(b)) == Some(b)
  {
    hide DecodeFinal, EncodeGroup;
    if b == [] {
    } else if |b| <= 3 {
      GroupRoundTrip(b);
    } else {
      GroupRoundTrip(b[..3]);
      DecodeOfEncode(b[3..]);
      var s := EncodeBytes(b);
      assert s[..4] == EncodeGroup(b[..3]) && s[4..] == EncodeBytes(b[3..]);
      assert s[3] == EncodeGroup(b[..3])[3];
      assert b == b[..3] + b[3..];
    }
  }

  /** `input` is `b` encoded: either alphabet, white space anywhere, all, part or none of the padding. */
  predicate IsEncodingOf(input: string, b: seq<Byte>) {
    && Compact(input) <= EncodeBytes(b)
    && |Compact(input)| >= |EncodeBytes(b)| - PadCount(|b|)
  }

  lemma {:induction false} EncodingEndsInPadding(b: seq<Byte>, i: nat)
    requires |EncodeBytes(b)| - PadCount(|b|) <= i < |EncodeBytes(b)|
    ensures EncodeBytes(b)[i] == '='
  {
    hide EncodeGroup;
    if |b| > 3 {
      EncodingEndsInPadding(b[3..], i - 4);
    }
  }

  lemma {:induction false} PaddingIsRestored(input: string, b: seq<Byte>)
    requires IsEncodingOf(input, b)
    ensures Padded(Compact(input)) == EncodeBytes(b)
  {
    hide EncodeBytes, Compact;
    var c, e := Compact(input), EncodeBytes(b);
    assert |Padded(c)| == |e|;
    forall i | 0 <= i < |e| ensures e[i] == Padded(c)[i] {
      if i >= |c| { EncodingEndsInPadding(b, i); }
    }
  }

  /**
   * Import inverts every accepted encoding of a text: exactly when the text does not start with a byte
   * order mark, which fromUtf8 drops.
   */
  lemma {:induction false} ImportInverts(minLength: nat, input: string, text: string)
    requires text != "" && '\0' !in text
    requires IsEncodingOf(input, Encode(text))
    requires |Compact(input)| >= minLength
    ensures TryDecode(minLength, input) == StripBom(text)
    ensures TryDecode(minLength, input) == text <==> !HasBom(text)
  {
    hide Symbol, SextetOf, DecodeFinal, DecodeBytes, EncodeBytes;
    var b := Encode(text);
    PaddingIsRestored(input, b);
    DecodeOfEncode(b);
    NulOfEncode(text);
    RoundTrip(text);
  }

  function UrlSafeChar(c: char): char {
    if c == '+' then '-' else if c == '/' then '_' else c
  }

  /** Section 5 of RFC 4648: the same encoding over the URL- and filename-safe alphabet. */
  function UrlSafe(s: string): (r: string)
    ensures |r| == |s|
    ensures forall i :: 0 <= i < |s| ==> r[i] == UrlSafeChar(s[i])
  {
    seq(|s|, i requires 0 <= i < |s| => UrlSafeChar(s[i]))
  }

  lemma {:induction false} EncodingAlphabet(b: seq<Byte>)
    ensures forall i :: 0 <= i < |EncodeBytes(b)| ==> IsPayloadChar(EncodeBytes(b)[i])
  {
    hide EncodeGroup, IsPayloadChar;
    if |b| > 3 {
      EncodingAlphabet(b[3..]);
    }
  }

  lemma {:induction false} NoSpacesToRemove(s: string)
    requires forall i :: 0 <= i < |s| ==> !IsAsciiSpace(s[i])
    ensures RemoveSpaces(s) == s
  {
    if s != "" {
      NoSpacesToRemove(s[1..]);
    }
  }

  lemma {:induction false} RemoveSpacesConcat(a: string, b: string)
    ensures RemoveSpaces(a + b) == RemoveSpaces(a) + RemoveSpaces(b)
    decreases |a|
  {
    if a == "" {
      assert a + b == b;
    } else {
      assert (a + b)[1..] == a[1..] + b;
      RemoveSpacesConcat(a[1..], b);
    }
  }

  lemma {:induction false} RemoveSpacesMembers(s: string)
    ensures forall c :: c in RemoveSpaces(s) <==> c in s && !IsAsciiSpace(c)
  {
    if s != "" {
      RemoveSpacesMembers(s[1..]);
      assert s == [s[0]] + s[1..];
    }
  }

  lemma {:induction false} OnlySpacesToRemove(s: string)
    requires forall c :: c in s ==> IsAsciiSpace(c)
    ensures RemoveSpaces(s) == ""
  {
    if s != "" {
      assert s[0] in s;
      OnlySpacesToRemove(s[1..]);
    }
  }

  /** White space can be inserted anywhere without changing what is decoded. */
  lemma {:induction false} SpacesAreIgnored(minLength: nat, a: string, spaces: string, b: string)
    requires forall c :: c in spaces ==> IsAsciiSpace(c)
    ensures TryDecode(minLength, a + spaces + b) == TryDecode(minLength, a + b)
  {
    RemoveSpacesConcat(a + spaces, b);
    RemoveSpacesConcat(a, spaces);
    RemoveSpacesConcat(a, b);
    OnlySpacesToRemove(spaces);
    hide RemoveSpaces, Standard, DecodeBytes, Padded, FromUtf8;
    assert RemoveSpaces(a) + "" == RemoveSpaces(a);
  }

  /** The four plain forms: either alphabet, with the padding or without it. */
  lemma {:induction false} PlainFormsAreEncodings(b: seq<Byte>)
    ensures var e := EncodeBytes(b); var core := e[..|e| - PadCount(|b|)];
            && IsEncodingOf(e, b) && IsEncodingOf(core, b)
            && IsEncodingOf(UrlSafe(e), b) && IsEncodingOf(UrlSafe(core), b)
  {
    EncodingAlphabet(b);
    var e := EncodeBytes(b);
    hide IsEncodingOf, EncodeBytes;
    PlainFormIsEncoding(b, |e|);
    PlainFormIsEncoding(b, |e| - PadCount(|b|));
    assert e[..|e|] == e;
  }

  lemma {:induction false} PayloadIsCompact(p: string)
    requires forall i :: 0 <= i < |p| ==> IsPayloadChar(p[i])
    ensures Compact(p) == p && Compact(UrlSafe(p)) == p
  {
    UrlSafeIsPlain(p);
    NoSpacesToRemove(p);
    NoSpacesToRemove(UrlSafe(p));
    hide RemoveSpaces, Standard, UrlSafe, IsPayloadChar;
  }

  lemma {:induction false} UrlSafeIsPlain(p: string)
    requires forall i :: 0 <= i < |p| ==> IsPayloadChar(p[i])
    ensures Standard(p) == p && Standard(UrlSafe(p)) == p
    ensures forall i :: 0 <= i < |p| ==> !IsAsciiSpace(p[i]) && !IsAsciiSpace(UrlSafe(p)[i])
  {
    forall i | 0 <= i < |p|
      ensures StandardChar(p[i]) == p[i] && StandardChar(UrlSafeChar(p[i])) == p[i]
      ensures !IsAsciiSpace(p[i]) && !IsAsciiSpace(UrlSafeChar(p[i]))
    {
      assert IsPayloadChar(p[i]);
    }
    hide StandardChar, UrlSafeChar, IsPayloadChar, IsAsciiSpace;
    assert Standard(p) == p;
    assert Standard(UrlSafe(p)) == p;
  }

  lemma {:induction false} PlainFormIsEncoding(b: seq<Byte>, n: nat)
    requires |EncodeBytes(b)| - PadCount(|b|) <= n <= |EncodeBytes(b)|
    ensures IsEncodingOf(EncodeBytes(b)[..n], b) && IsEncodingOf(UrlSafe(EncodeBytes(b)[..n]), b)
  {
    EncodingAlphabet(b);
    hide EncodeBytes, RemoveSpaces;
    var p := EncodeBytes(b)[..n];
    PayloadIsCompact(p);
    assert p <= EncodeBytes(b);
  }

  /** The characters an accepted payload may hold besides white space. */
  predicate IsBase64Char(c: char) {
    IsPayloadChar(StandardChar(c))
  }

  lemma {:induction false} DecodeRejects(s: string, i: nat)
    requires |s| % 4 == 0 && i < |s| && !IsPayloadChar(s[i])
    ensures DecodeBytes(s).None?
  {
    if |s| > 4 && i >= 4 {
      DecodeRejects(s[4..], i - 4);
    }
  }

  /** A character outside both alphabets anywhere in the input is rejected. */
  lemma {:induction false} ForeignCharacterRejected(minLength: nat, input: string, c: char)
    requires c in input && !IsAsciiSpace(c) && !IsBase64Char(c)
    ensures TryDecode(minLength, input) == ""
  {
    RemoveSpacesMembers(input);
    var r := RemoveSpaces(input);
    var i :| 0 <= i < |r| && r[i] == c;
    assert Standard(r)[i] == StandardChar(c);
    DecodeRejects(Padded(Standard(r)), i);
  }

  /** Alphabet characters followed by at most two '='. */
  ghost predicate WellFormed(s: string) {
    exists p: nat :: IsPaddedBy(s, p)
  }

  predicate IsPaddedBy(s: string, p: nat) {
    && p <= 2 && p <= |s|
    && (forall i :: 0 <= i < |s| - p ==> IsSymbol(s[i]))
    && (forall i :: |s| - p <= i < |s| ==> s[i] == '=')
  }

  lemma {:induction false} GroupInFront(s: string)
    requires |s| % 4 == 0 && |s| > 4
    ensures WellFormed(s) <==> WellFormed(s[4..]) && forall i :: 0 <= i < 4 ==> IsSymbol(s[i])
  {
    hide IsSymbol;
    if WellFormed(s) {
      var p: nat :| IsPaddedBy(s, p);
      assert IsPaddedBy(s[4..], p);
    }
    if WellFormed(s[4..]) && forall i :: 0 <= i < 4 ==> IsSymbol(s[i]) {
      var p: nat :| IsPaddedBy(s[4..], p);
      assert forall i :: 4 <= i < |s| ==> s[i] == s[4..][i - 4];
      assert IsPaddedBy(s, p);
    }
  }

  lemma {:induction false} FinalGroup(s: string)
    requires |s| == 4
    ensures DecodeFinal(s).Some? <==> WellFormed(s)
  {
    if DecodeFinal(s).Some? {
      assert IsPaddedBy(s, if s[2] == '=' then 2 else if s[3] == '=' then 1 else 0);
    }
  }

  /** The decoder accepts exactly the well-formed strings of whole groups. */
  lemma {:induction false} AcceptsExactlyWellFormed(s: string)
    requires |s| % 4 == 0
    ensures DecodeBytes(s).Some? <==> WellFormed(s)
  {
    if s == "" {
      assert IsPaddedBy(s, 0);
    } else if |s| == 4 {
      FinalGroup(s);
      hide DecodeFinal, WellFormed;
    } else {
      AcceptsExactlyWellFormed(s[4..]);
      GroupInFront(s);
      hide DecodeFinal, WellFormed;
    }
  }

  /** The groups of the test vectors of section 10 of RFC 4648, and one with the last two symbols. */
  lemma {:induction false} TestVectors()
    ensures EncodeGroup([0x66]) == ['Z', 'g', '=', '=']
    ensures EncodeGroup([0x66, 0x6F]) == ['Z', 'm', '8', '=']
    ensures EncodeGroup([0x66, 0x6F, 0x6F]) == ['Z', 'm', '9', 'v']
    ensures EncodeGroup([0x62, 0x61, 0x72]) == ['Y', 'm', 'F', 'y']
    ensures EncodeGroup([0xFB, 0xFF, 0xFE]) == ['+', '/', '/', '+']
  {
    Symbols();
    hide Symbol;
  }

  lemma {:induction false} Symbols()
    ensures Symbol(25) == 'Z' && Symbol(32) == 'g' && Symbol(38) == 'm' && Symbol(60) == '8' && Symbol(61) == '9'
    ensures Symbol(47) == 'v' && Symbol(24) == 'Y' && Symbol(5) == 'F' && Symbol(50) == 'y'
    ensures Symbol(62) == '+' && Symbol(63) == '/'
  {
  }

  /** Bytes that hold a NUL are no text, whatever form they are encoded in. */
  lemma {:induction false} NulIsRejected(minLength: nat, input: string, b: seq<Byte>)
    requires IsEncodingOf(input, b) && 0 in b
    ensures TryDecode(minLength, input) == ""
  {
    PaddingIsRestored(input, b);
    DecodeOfEncode(b);
    hide EncodeBytes, DecodeBytes, Padded, Compact, IsEncodingOf, FromUtf8;
  }

  /** Input with fewer characters than required, white space aside, is not even tried. */
  lemma {:induction false} ShortInputIsRejected(minLength: nat, input: string)
    requires |RemoveSpaces(input)| < minLength
    ensures TryDecode(minLength, input) == ""
  {
    hide RemoveSpaces;
  }
}
