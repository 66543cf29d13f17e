/** Recognising and unwrapping subscription bodies; both list models carry a version of this. */
module Subscription {
  import opened Text
  import opened Utf8
  import opened Base64

  const PROTOCOLS: seq<string> :=
    ["vmess", "vless", "ss", "ssr", "trojan", "hysteria", "hysteria2", "hy", "hy2", "tuic", "wg", "ssh"]

  predicate IsProtocolLink(line: string) {
    exists i :: 0 <= i < |PROTOCOLS| && StartsWithFolded(line, PROTOCOLS[i] + "://")
  }

  /** Which model imports the text: the profile list or the node list. */
  datatype Importer = Profiles | Nodes

  function MinLength(im: Importer): nat {
    if im.Profiles? then 8 else 1
  }

  predicate IsStructured(im: Importer, trimmed: string) {
    trimmed == "" || trimmed[0] == '{' || (im.Profiles? && trimmed[0] == '[')
  }

  predicate HasLinkLine(text: string) {
    exists i :: 0 <= i < |Split(text, '\n')| && IsProtocolLink(Trim(Split(text, '\n')[i]))
  }

  /** What makes decoded text worth keeping. */
  predicate IsKept(im: Importer, decoded: string) {
    match im
    case Profiles =>
      Contains(decoded, "://") || '{' in decoded || '#' in decoded || Contains(decoded, "[Interface]")
    case Nodes =>
      Contains(decoded, "://") || (Trim(decoded) != "" && Trim(decoded)[0] == '{')
  }

  function DecodeBody(im: Importer, content: string): string {
    var trimmed := Trim(content);
    if IsStructured(im, trimmed) || HasLinkLine(trimmed) then trimmed
    else
      var decoded := TryDecode(MinLength(im), trimmed);
      if decoded != "" && IsKept(im, decoded) then decoded else trimmed
  }

  predicate IsForeign(c: char) {
    !IsSpace(c) && !IsBase64Char(c)
  }

  lemma {:induction false} MarkersAreForeign()
    ensures IsForeign('{') && IsForeign('#') && IsForeign(':') && IsForeign('[')
  {
  }

  lemma {:induction false} ContainsFirst(s: string, pat: string)
    requires Contains(s, pat) && pat != ""
    ensures pat[0] in s
  {
    var i :| 0 <= i <= |s| && pat <= s[i..];
    assert s[i..][0] == pat[0];
  }

  /** Kept text holds a character that no base64 alphabet has. */
  lemma {:induction false} KeptHasForeignCharacter(im: Importer, decoded: string) returns (c: char)
    requires IsKept(im, decoded)
    ensures c in decoded && IsForeign(c)
  {
    MarkersAreForeign();
    TrimShape(decoded);
    hide Trim, IsForeign, Contains;
    if Contains(decoded, "://") {
      ContainsFirst(decoded, "://");
      c := ':';
    } else if '#' in decoded {
      c := '#';
    } else if Contains(decoded, "[Interface]") {
      ContainsFirst(decoded, "[Interface]");
      c := '[';
    } else {
      assert Trim(decoded) != "" ==> Trim(decoded)[0] in Trim(decoded);
      c := '{';
    }
  }

  /** Text that was unwrapped once is only trimmed by any later decoding, by either model. */
  lemma {:induction false} KeptTextIsFinal(im: Importer, later: Importer, text: string)
    requires IsKept(im, text)
    ensures DecodeBody(later, text) == Trim(text)
  {
    var c := KeptHasForeignCharacter(im, text);
    TrimShape(text);
    ForeignCharacterRejected(MinLength(later), Trim(text), c);
  }

  /** Decoding a body again is harmless. */
  lemma {:induction false} DecodeTwice(im: Importer, content: string)
    ensures DecodeBody(im, DecodeBody(im, content)) == Trim(DecodeBody(im, content))
  {
    var once := DecodeBody(im, content);
    if once == Trim(content) {
      TrimIdempotent(content);
    } else {
      KeptTextIsFinal(im, im, once);
    }
  }

  /** The import path decodes three times: raw content, direct config, content headers. */
  lemma {:induction false} DecodeThrice(im: Importer, content: string)
    ensures DecodeBody(im, DecodeBody(im, DecodeBody(im, content))) == Trim(DecodeBody(im, content))
  {
    var once := DecodeBody(im, content);
    DecodeTwice(im, content);
    DecodeTwice(im, once);
    TrimIdempotent(once);
  }

  lemma {:induction false} LinkLineHasColon(line: string)
    requires IsProtocolLink(line)
    ensures ':' in line
  {
    var i :| 0 <= i < |PROTOCOLS| && StartsWithFolded(line, PROTOCOLS[i] + "://");
    var p := PROTOCOLS[i] + "://";
    var k := |PROTOCOLS[i]|;
    assert FoldAll(p)[k] == ':' && FoldAll(line[..|p|])[k] == Fold(line[k]);
  }

  lemma {:induction false} SplitMembers(s: string, sep: char, i: nat)
    requires i < |Split(s, sep)|
    ensures forall c :: c in Split(s, sep)[i] ==> c in s
  {
    var k := IndexOf(s, sep);
    if k >= 0 && i > 0 {
      SplitMembers(s[k + 1..], sep, i - 1);
    }
  }

  lemma {:induction false} NoColonNoLinkLine(text: string)
    requires ':' !in text
    ensures !HasLinkLine(text)
  {
    hide IsProtocolLink, Trim, Split;
    forall i | 0 <= i < |Split(text, '\n')| ensures !IsProtocolLink(Trim(Split(text, '\n')[i])) {
      var line := Split(text, '\n')[i];
      SplitMembers(text, '\n', i);
      TrimShape(line);
      if IsProtocolLink(Trim(line)) { LinkLineHasColon(Trim(line)); }
    }
  }

  predicate IsPayload(s: string) {
    forall i :: 0 <= i < |s| ==> IsBase64Char(s[i])
  }

  lemma {:induction false} PayloadShape(payload: string)
    requires IsPayload(payload) && payload != ""
    ensures Trim(payload) == payload && RemoveSpaces(payload) == payload
    ensures payload[0] != '{' && payload[0] != '[' && ':' !in payload
  {
    assert IsBase64Char(payload[0]) && IsBase64Char(payload[|payload| - 1]);
    TrimFixes(payload);
    NoSpacesToRemove(payload);
  }

  /** A wrapped body: base64 in any accepted form around text that carries a link. */
  lemma {:induction false} WrappedBodyIsUnwrapped(im: Importer, payload: string, text: string)
    requires IsPayload(payload)
    requires IsEncodingOf(payload, Encode(text)) && |payload| >= MinLength(im)
    requires text != "" && Contains(text, "://") && '\0' !in text && !HasBom(text)
    ensures DecodeBody(im, payload) == text
  {
    hide HasLinkLine, TryDecode, IsEncodingOf, Trim, RemoveSpaces, Contains, IsPayload, Encode;
    PayloadShape(payload);
    NoColonNoLinkLine(payload);
    ImportInverts(MinLength(im), payload, text);
  }

  /** What the decoded text must hold for each importer to prefer it. */
  predicate HasMarker(im: Importer, text: string) {
    if im.Profiles? then Contains(text, "://") || '{' in text || '#' in text || Contains(text, "[Interface]")
    else Contains(text, "://") || (Trim(text) != "" && Trim(text)[0] == '{')
  }

  /**
   * A body that is one payload: unwrapped when it is long enough for the importer and its text has a marker,
   * a link or a configuration; left as it is otherwise.
   */
  lemma {:induction false} WrappedBodyExactly(im: Importer, payload: string, text: string)
    requires IsPayload(payload) && IsEncodingOf(payload, Encode(text))
    requires text != "" && '\0' !in text && !HasBom(text) && payload != ""
    ensures DecodeBody(im, payload)
         == if (im.Nodes? || |payload| >= 8) && HasMarker(im, text) then text else payload
  {
    hide HasLinkLine, TryDecode, IsEncodingOf, Trim, RemoveSpaces, Contains, IsPayload, Encode;
    PayloadShape(payload);
    NoColonNoLinkLine(payload);
    if |payload| >= MinLength(im) {
      ImportInverts(MinLength(im), payload, text);
    } else {
      ShortIsRejected(MinLength(im), payload);
    }
  }

  lemma {:induction false} ShortIsRejected(minLength: nat, payload: string)
    requires |payload| < minLength && RemoveSpaces(payload) == payload
    ensures TryDecode(minLength, payload) == ""
  {
    hide RemoveSpaces;
  }

  /** Configurations, lists of links and empty bodies are only trimmed, whatever they might encode. */
  lemma {:induction false} ReadableBodyIsTrimmed(im: Importer, content: string)
    requires var t := Trim(content);
      t == "" || t[0] == '{' || (im.Profiles? && t[0] == '[') || HasLinkLine(t)
    ensures DecodeBody(im, content) == Trim(content)
  {
    hide Trim, HasLinkLine;
  }

  /** A body that is no base64, or holds a NUL or nothing of interest, is only trimmed too. */
  lemma {:induction false} OtherBodyIsTrimmed(im: Importer, content: string)
    requires TryDecode(MinLength(im), Trim(content)) == "" || !HasMarker(im, TryDecode(MinLength(im), Trim(content)))
    ensures DecodeBody(im, content) == Trim(content)
  {
    hide Trim, HasLinkLine, TryDecode;
  }

  /** A line names a protocol by its scheme, in any case. */
  lemma {:induction false} ProtocolsAreKnown(scheme: string, rest: string)
    requires FoldAll(scheme) in ["vmess", "vless", "ss", "ssr", "trojan", "hysteria", "hysteria2", "hy", "hy2", "tuic", "wg", "ssh"]
    ensures IsProtocolLink(scheme + "://" + rest)
  {
    var i :| 0 <= i < |PROTOCOLS| && PROTOCOLS[i] == FoldAll(scheme);
    var line, p := scheme + "://" + rest, PROTOCOLS[i] + "://";
    assert |scheme| == |FoldAll(scheme)|;
    FoldedTwice(scheme);
    forall j | 0 <= j < |p| ensures FoldAll(line[..|p|])[j] == FoldAll(p)[j] {
      if j < |scheme| {
        assert FoldAll(scheme)[j] == Fold(scheme[j]);
      }
    }
    assert FoldAll(line[..|p|]) == FoldAll(p);
    assert StartsWithFolded(line, p);
  }

  lemma {:induction false} FoldedTwice(s: string)
    ensures FoldAll(FoldAll(s)) == FoldAll(s)
    ensures forall j :: 0 <= j < |s| ==> Fold(FoldAll(s)[j]) == FoldAll(s)[j]
  {
  }
}
