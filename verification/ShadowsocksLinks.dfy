/** The two Shadowsocks link forms: both name the same server, alone and in whole subscriptions. */
module ShadowsocksLinks {
  import opened Text
  import opened Utf8
  import opened Base64
  import opened Decimal
  import opened Subscription
  import opened ProxyNodes
  import Percent

  datatype Server = Server(method_: string, password: string, host: string, port: nat, name: string)

  function Credentials(s: Server): string {
    s.method_ + ":" + s.password
  }

  function Endpoint(s: Server): string {
    s.host + ":" + Print(s.port)
  }

  /** What the legacy form encodes as a whole. */
  function LegacyText(s: Server): string {
    Credentials(s) + "@" + Endpoint(s)
  }

  /** `ss://` followed by `authority` and the escaped name. */
  function MakeLink(authority: string, s: Server): string {
    "ss://" + authority + "#" + Percent.Encode(s.name)
  }

  predicate IsPort(p: nat) {
    p < 0x1_0000
  }

  predicate IsLegacyLink(link: string, s: Server, payload: string) {
    && link == MakeLink(payload, s)
    && IsPayload(payload) && IsEncodingOf(payload, Encode(LegacyText(s)))
    && '\0' !in LegacyText(s) && '@' !in s.host
    && IsPort(s.port)
  }

  /** The credentials are never looked at in this form, so any payload characters will do. */
  predicate IsSip002Link(link: string, s: Server, payload: string) {
    && link == MakeLink(payload + "@" + Endpoint(s), s)
    && payload != "" && IsPayload(payload)
    && '@' !in s.host && '#' !in s.host && '?' !in s.host && '\n' !in s.host
    && IsPort(s.port)
  }

  predicate IsLink(link: string, s: Server, payload: string) {
    IsLegacyLink(link, s, payload) || IsSip002Link(link, s, payload)
  }

  /** The name a row shows: the link's, or a numbered default when nothing but white space is left. */
  function ShownName(name: string, index: nat): string {
    var t := Trim(StripBom(name));
    if t == "" then DefaultName(index) else t
  }

  function Expected(s: Server, index: nat): Fields {
    Fields(ShownName(s.name, index), "Shadowsocks", s.host, s.port)
  }

  lemma {:induction false} PrintIsPlain(n: nat)
    ensures ':' !in Print(n) && '@' !in Print(n)
  {
    hide Print;
    assert !IsDigit(':') && !IsDigit('@');
  }

  lemma {:induction false} EndpointIsRead(prefix: string, s: Server, name: string)
    requires '@' !in s.host && IsPort(s.port)
    ensures ReadAuthority(prefix + "@" + Endpoint(s), name) == Some(Fields(name, "Shadowsocks", s.host, s.port))
  {
    hide Print, ToInt, LastIndexOf;
    var p := Print(s.port);
    ToIntOfPrint(s.port);
    PrintIsPlain(s.port);
    var hostPort := Endpoint(s);
    assert hostPort == s.host + [':'] + p;
    LastIndexOfSplit(s.host, ':', p);
    assert hostPort[..|s.host|] == s.host && hostPort[|s.host| + 1..] == p;
    assert '@' !in hostPort;
    var authority := prefix + "@" + hostPort;
    assert authority == prefix + ['@'] + hostPort;
    LastIndexOfSplit(prefix, '@', hostPort);
    assert authority[|prefix| + 1..] == hostPort;
  }

  lemma {:induction false} EscapedIsPlain(name: string)
    ensures forall c :: c in Percent.Encode(name) ==> c != '#' && !IsSpace(c)
  {
    hide Percent.Encode;
    assert forall c :: Percent.IsUnreserved(c) || c == '%' ==> c != '#' && !IsSpace(c);
  }

  lemma {:induction false} HashIsPlain()
    ensures !IsSpace('#')
  {
  }

  lemma {:induction false} SchemeIsFound(rest: string)
    ensures IndexOfText("ss://" + rest, "://") == 2
    ensures ("ss://" + rest)[5..] == rest
  {
    var s := "ss://" + rest;
    var s1, s2 := "s://" + rest, "://" + rest;
    assert s[1..] == s1 && s1[1..] == s2;
    assert s[0] == 's' && s1[0] == 's' && s2[0] == ':' && "://"[0] == ':';
    assert IndexOfText(s2, "://") == 0;
    assert IndexOfText(s1, "://") == 1;
  }

  lemma {:induction false} BodyIsRest(authority: string, s: Server)
    requires authority != "" && !IsSpace(authority[0])
    ensures IndexOfText(MakeLink(authority, s), "://") == 2
    ensures Body(MakeLink(authority, s)) == authority + "#" + Percent.Encode(s.name)
  {
    var e := Percent.Encode(s.name);
    EscapedIsPlain(s.name);
    HashIsPlain();
    hide Percent.Encode, IsSpace, IndexOfText, Trim;
    var rest := authority + "#" + e;
    assert MakeLink(authority, s) == "ss://" + rest;
    SchemeIsFound(rest);
    assert Last(rest) == if e == "" then '#' else Last(e);
    TrimFixes(rest);
  }

  lemma {:induction false} CutAtHash(a: string, e: string)
    requires '#' !in a && '?' !in a
    ensures Before(Before(a + "#" + e, '#'), '?') == a && After(a + "#" + e, '#') == e
  {
    var rest := a + "#" + e;
    assert rest == a + ['#'] + e;
    IndexOfSplit(a, '#', e);
    hide IndexOf;
    assert rest[..|a|] == a && rest[|a| + 1..] == e;
  }

  /** The parser's view of a link: what stands before and after the fragment mark. */
  lemma {:induction false} LinkIsSplit(authority: string, s: Server)
    requires authority != "" && !IsSpace(authority[0])
    requires '#' !in authority && '?' !in authority
    ensures var link := MakeLink(authority, s);
            && IndexOfText(link, "://") == 2
            && Before(Before(Body(link), '#'), '?') == authority
            && After(Body(link), '#') == Percent.Encode(s.name)
  {
    hide *;
    BodyIsRest(authority, s);
    CutAtHash(authority, Percent.Encode(s.name));
  }

  lemma {:induction false} FragmentIsRead(s: Server)
    ensures Trim(Percent.Decode(Percent.Encode(s.name))) == Trim(StripBom(s.name))
  {
    Percent.RoundTrip(s.name);
  }

  lemma {:induction false} PayloadAvoids(payload: string)
    requires IsPayload(payload) && payload != ""
    ensures '#' !in payload && '?' !in payload && '@' !in payload && '\n' !in payload && !IsSpace(payload[0])
  {
    assert IsBase64Char(payload[0]);
  }

  lemma {:induction false} LegacyTextShape(s: Server)
    ensures LegacyText(s) != "" && HasBom(LegacyText(s)) ==> HasBom(s.method_)
    ensures StripBom(LegacyText(s)) == StripBom(Credentials(s)) + "@" + Endpoint(s)
    ensures |Encode(LegacyText(s))| >= 1
  {
    var t := LegacyText(s);
    assert t[0] == Credentials(s)[0];
    hide EncodeChar;
    if HasBom(t) {
      assert t[1..] == Credentials(s)[1..] + "@" + Endpoint(s);
    }
  }

  /** `ss://base64(method:password@host:port)#name` */
  lemma {:induction false} LegacyLinkIsParsed(link: string, s: Server, payload: string, index: nat)
    requires IsLegacyLink(link, s, payload)
    ensures IndexOfText(link, "://") == 2
    ensures ParseShadowsocks(link, index) == Some(Expected(s, index))
  {
    var t := LegacyText(s);
    LegacyTextShape(s);
    assert payload != "" by { EncodingNotEmpty(payload, Encode(t)); }
    PayloadAvoids(payload);
    PayloadShape(payload);
    LinkIsSplit(payload, s);
    FragmentIsRead(s);
    hide Trim, IsPayload, IsEncodingOf, Percent.Decode, Percent.Encode, Before, After, Body, IndexOfText, TryDecode;
    assert |Compact(payload)| >= 1;
    ImportInverts(1, payload, t);
    var name := ShownName(s.name, index);
    EndpointIsRead(StripBom(Credentials(s)), s, name);
    hide ReadAuthority, LegacyText, Endpoint, Credentials, StripBom;
  }

  lemma {:induction false} EncodingNotEmpty(payload: string, b: seq<Byte>)
    requires IsEncodingOf(payload, b) && b != []
    ensures payload != ""
  {
    hide EncodeGroup;
    assert |EncodeBytes(b)| >= 4;
  }

  /** `ss://base64url(method:password)@host:port#name` */
  lemma {:induction false} Sip002LinkIsParsed(link: string, s: Server, payload: string, index: nat)
    requires IsSip002Link(link, s, payload)
    ensures IndexOfText(link, "://") == 2
    ensures ParseShadowsocks(link, index) == Some(Expected(s, index))
  {
    PayloadAvoids(payload);
    var authority := payload + "@" + Endpoint(s);
    AuthorityShape(payload, s);
    LinkIsSplit(authority, s);
    FragmentIsRead(s);
    EndpointIsRead(payload, s, ShownName(s.name, index));
    hide Trim, IsPayload, IsSpace, Percent.Decode, Percent.Encode, Before, After, Body, IndexOfText, TryDecode, ReadAuthority, Endpoint;
    assert '@' in authority;
  }

  lemma {:induction false} AuthorityShape(payload: string, s: Server)
    requires payload != "" && '#' !in payload && '?' !in payload
    requires '#' !in s.host && '?' !in s.host
    ensures var a := payload + "@" + Endpoint(s);
            '@' in a && '#' !in a && '?' !in a && a[0] == payload[0]
  {
    hide Print;
    var a := payload + "@" + Endpoint(s);
    assert a[|payload|] == '@';
  }

  /** Both forms of one server read as the same row. */
  lemma {:induction false} BothFormsAgree(legacy: string, sip002: string, s: Server, whole: string, userinfo: string, index: nat)
    requires IsLegacyLink(legacy, s, whole) && IsSip002Link(sip002, s, userinfo)
    ensures IndexOfText(legacy, "://") == 2 && IndexOfText(sip002, "://") == 2
    ensures ParseShadowsocks(legacy, index) == ParseShadowsocks(sip002, index) == Some(Expected(s, index))
  {
    LegacyLinkIsParsed(legacy, s, whole, index);
    Sip002LinkIsParsed(sip002, s, userinfo, index);
  }

  lemma {:induction false} TrimShortens(s: string)
    ensures |Trim(s)| <= |s|
    ensures |Trim(s)| == |s| ==> Trim(s) == s
    ensures Trim(s) == s ==> IsTrimmed(s)
  {
    TrimShape(s);
    TrimLeftShortens(s);
    TrimRightShape(TrimLeft(s));
  }

  lemma {:induction false} TrimLeftShortens(s: string)
    ensures |TrimLeft(s)| <= |s|
    ensures |TrimLeft(s)| == |s| ==> TrimLeft(s) == s
  {
    if s != "" && IsSpace(s[0]) {
      TrimLeftShortens(s[1..]);
    }
  }

  lemma {:induction false} DefaultIsProper(index: nat)
    ensures IsTrimmed(DefaultName(index)) && DefaultName(index) != "" && !HasBom(DefaultName(index))
  {
    var p := Print(index + 1);
    hide Print;
    assert IsDigit(p[|p| - 1]) && DefaultName(index)[|DefaultName(index)| - 1] == p[|p| - 1];
  }

  /** The row shows the link's very name exactly when that is trimmed, not empty and without a byte order mark. */
  lemma {:induction false} NameIsExact(s: Server, index: nat)
    ensures Expected(s, index).name == s.name <==> s.name != "" && IsTrimmed(s.name) && !HasBom(s.name)
  {
    DefaultIsProper(index);
    TrimShortens(StripBom(s.name));
    hide DefaultName, Trim;
    if s.name != "" && IsTrimmed(s.name) && !HasBom(s.name) {
      TrimFixes(s.name);
    }
  }

  predicate IsLinkLine(line: string) {
    |line| > 5 && line[..5] == "ss://" && !IsSpace(Last(line)) && '\n' !in line
  }

  lemma {:induction false} EscapedHasNoNewline(name: string)
    ensures '\n' !in Percent.Encode(name)
  {
    EscapedIsPlain(name);
    assert IsSpace('\n');
  }

  lemma {:induction false} MadeLinkIsLine(authority: string, s: Server)
    requires '\n' !in authority
    ensures IsLinkLine(MakeLink(authority, s))
  {
    var e := Percent.Encode(s.name);
    EscapedIsPlain(s.name);
    EscapedHasNoNewline(s.name);
    HashIsPlain();
    hide Percent.Encode, IsSpace;
    var link := MakeLink(authority, s);
    assert Last(link) == if e == "" then '#' else Last(e);
    assert link[..5] == "ss://";
  }

  lemma {:induction false} LinkIsLine(lib: Library, link: string, s: Server, payload: string, index: nat)
    requires IsLink(link, s, payload)
    ensures IsLinkLine(link)
    ensures ParseLine(lib, link, index) == Some(Expected(s, index))
  {
    hide *;
    LinkIsParsed(link, s, payload, index);
    LinkIsLineOnly(link, s, payload);
    SsIsDispatched(lib, link, index);
  }

  lemma {:induction false} SsIsDispatched(lib: Library, link: string, index: nat)
    requires IsLinkLine(link) && IndexOfText(link, "://") == 2
    ensures ParseLine(lib, link, index) == ParseShadowsocks(link, index)
  {
    hide ParseShadowsocks, IndexOfText, IsSpace;
    assert link[..2] == link[..5][..2];
    assert link[..5][..2] == "ss";
    assert Lower("ss") == "ss";
  }

  lemma {:induction false} LinkIsParsed(link: string, s: Server, payload: string, index: nat)
    requires IsLink(link, s, payload)
    ensures IndexOfText(link, "://") == 2
    ensures ParseShadowsocks(link, index) == Some(Expected(s, index))
  {
    hide IsLegacyLink, IsSip002Link;
    if IsLegacyLink(link, s, payload) {
      LegacyLinkIsParsed(link, s, payload, index);
    } else {
      Sip002LinkIsParsed(link, s, payload, index);
    }
  }

  lemma {:induction false} LinkIsLineOnly(link: string, s: Server, payload: string)
    requires IsLink(link, s, payload)
    ensures IsLinkLine(link)
  {
    PrintHasNoNewline(s.port);
    hide MakeLink, Print, IsSpace;
    assert '\n' !in payload by { PayloadHasNoNewline(payload); }
    if link == MakeLink(payload, s) {
      MadeLinkIsLine(payload, s);
    } else {
      MadeLinkIsLine(payload + "@" + Endpoint(s), s);
    }
  }

  lemma {:induction false} PrintHasNoNewline(n: nat)
    ensures '\n' !in Print(n)
  {
    hide Print;
    assert !IsDigit('\n');
  }

  lemma {:induction false} PayloadHasNoNewline(payload: string)
    requires IsPayload(payload)
    ensures '\n' !in payload
  {
    assert !IsBase64Char('\n');
  }

  /** One link per server, in either form. */
  predicate AreLinks(links: seq<string>, servers: seq<Server>, payloads: seq<string>) {
    && |links| == |servers| == |payloads|
    && forall i :: 0 <= i < |links| ==> IsLink(links[i], servers[i], payloads[i])
  }

  /** An untested row with the server's endpoint and name, under its position. */
  predicate IsRowOfServer(n: ProxyNode, s: Server, i: nat) {
    && n.id == "proxy_" + Print(i) && n.kind == "Shadowsocks" && n.delay == -1
    && n.name == ShownName(s.name, i) && n.address == s.host && n.port == s.port
  }

  predicate AreRows(nodes: seq<ProxyNode>, servers: seq<Server>) {
    && |nodes| == |servers|
    && forall i :: 0 <= i < |nodes| ==> IsRowOfServer(nodes[i], servers[i], i)
  }

  lemma {:induction false} LinesAreParsed(lib: Library, links: seq<string>, servers: seq<Server>, payloads: seq<string>)
    requires AreLinks(links, servers, payloads)
    ensures AreRows(ParseLines(lib, links), servers)
  {
    hide IsLink, ParseLine, Trim, IsSpace, Print, ShownName;
    if links != [] {
      var n := |links| - 1;
      LinesAreParsed(lib, Init(links), Init(servers), Init(payloads));
      LinkIsLine(lib, links[n], servers[n], payloads[n], n);
      LineIsTrimmed(links[n]);
    }
  }

  lemma {:induction false} LineIsTrimmed(line: string)
    requires IsLinkLine(line)
    ensures Trim(line) == line && line[0] == 's'
  {
    assert line[0] == line[..5][0];
    TrimFixes(line);
  }

  lemma {:induction false} JoinShape(links: seq<string>)
    requires links != [] && forall i :: 0 <= i < |links| ==> IsLinkLine(links[i])
    ensures IsLinkLine(Last(links))
    ensures var j := Join(links, '\n'); |j| > 5 && j[..5] == "ss://" && Last(j) == Last(Last(links))
  {
    hide IsSpace;
    assert IsLinkLine(links[0]);
    if |links| > 1 {
      JoinShape(links[1..]);
      var rest := Join(links[1..], '\n');
      var j := links[0] + ['\n'] + rest;
      assert j[..5] == links[0][..5];
      assert Last(j) == Last(rest);
    }
  }

  lemma {:induction false} SsLineIsProtocolLink(line: string)
    requires IsLinkLine(line)
    ensures IsProtocolLink(line)
  {
    assert PROTOCOLS[2] + "://" == "ss://";
    assert StartsWithFolded(line, PROTOCOLS[2] + "://");
  }

  lemma {:induction false} JoinedShape(links: seq<string>)
    requires links != [] && forall i :: 0 <= i < |links| ==> IsLinkLine(links[i])
    ensures var j := Join(links, '\n');
            && Trim(j) == j && j != "" && !IsObject(j) && !HasBom(j) && Contains(j, "://")
  {
    JoinShape(links);
    hide Join, Trim, IsSpace;
    StartsAsLink(Join(links, '\n'));
  }

  lemma {:induction false} StartsAsLink(j: string)
    requires |j| > 5 && j[..5] == "ss://" && !IsSpace(Last(j))
    ensures Trim(j) == j && !IsObject(j) && !HasBom(j) && Contains(j, "://")
  {
    assert j[0] == j[..5][0];
    TrimFixes(j);
    hide Trim, IsSpace;
    var t := j[2..];
    assert t[0] == j[..5][2] && t[1] == j[..5][3] && t[2] == j[..5][4];
    assert "://" <= j[2..];
  }

  lemma {:induction false} JoinedIsKept(links: seq<string>)
    requires links != [] && forall i :: 0 <= i < |links| ==> IsLinkLine(links[i])
    ensures var j := Join(links, '\n'); DecodeBody(Nodes, j) == j && Split(j, '\n') == links
  {
    assert IsLinkLine(links[0]);
    SsLineIsProtocolLink(links[0]);
    LineIsTrimmed(links[0]);
    hide Split, Join, IsProtocolLink, Trim, IsSpace;
    assert forall i :: 0 <= i < |links| ==> '\n' !in links[i] by {
      assert forall i :: 0 <= i < |links| ==> IsLinkLine(links[i]);
    }
    SplitOfJoin(links, '\n');
    JoinedShape(links);
    var j := Join(links, '\n');
    assert IsProtocolLink(Trim(Split(j, '\n')[0]));
    assert HasLinkLine(j);
  }

  /** A subscription of links, whatever their forms, becomes the rows of its servers in order. */
  lemma {:induction false} SubscriptionIsParsed(lib: Library, links: seq<string>, servers: seq<Server>, payloads: seq<string>)
    requires links != [] && AreLinks(links, servers, payloads)
    ensures AreRows(ParseNodes(lib, Join(links, '\n')), servers)
  {
    hide IsLink;
    forall i | 0 <= i < |links| ensures IsLinkLine(links[i]) {
      LinkIsLineOnly(links[i], servers[i], payloads[i]);
    }
    hide IsLinkLine;
    JoinedIsKept(links);
    JoinedShape(links);
    LinesAreParsed(lib, links, servers, payloads);
    hide Split, Join, Trim, DecodeBody, IsObject, ParseLines, AreRows;
  }

  /** And so does the same subscription served as one base64 payload. */
  lemma {:induction false} WrappedSubscriptionIsParsed(
      lib: Library, wrapped: string, links: seq<string>, servers: seq<Server>, payloads: seq<string>)
    requires links != [] && AreLinks(links, servers, payloads)
    requires '\0' !in Join(links, '\n')
    requires IsPayload(wrapped) && IsEncodingOf(wrapped, Encode(Join(links, '\n')))
    ensures AreRows(ParseNodes(lib, wrapped), servers)
  {
    hide IsLink, IsPayload, IsEncodingOf, Encode;
    forall i | 0 <= i < |links| ensures IsLinkLine(links[i]) {
      LinkIsLineOnly(links[i], servers[i], payloads[i]);
    }
    hide IsLinkLine;
    var j := Join(links, '\n');
    JoinedIsKept(links);
    JoinedShape(links);
    assert wrapped != "" by { EncodedNotEmpty(j); EncodingNotEmpty(wrapped, Encode(j)); }
    WrappedBodyIsUnwrapped(Nodes, wrapped, j);
    PayloadShape(wrapped);
    LinesAreParsed(lib, links, servers, payloads);
    hide Split, Join, Trim, DecodeBody, ParseLines, AreRows;
  }

  lemma {:induction false} EncodedNotEmpty(s: string)
    requires s != ""
    ensures Encode(s) != []
  {
  }
}
