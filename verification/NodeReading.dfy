/** What the node list reads from a line and from a whole body, said without the parser's own steps. */
module NodeReading {
  import opened Text
  import opened Utf8
  import opened Base64
  import opened Decimal
  import opened Subscription
  import opened ProxyNodes
  import Percent

  /** The first "://" of a line. */
  ghost predicate IsSeparator(line: string, k: nat) {
    && k <= |line| && "://" <= line[k..]
    && forall j :: 0 <= j < k ==> !("://" <= line[j..])
  }

  lemma {:induction false} SeparatorIsFound(line: string, k: nat)
    requires IsSeparator(line, k)
    ensures IndexOfText(line, "://") == k
  {
    IndexOfTextIsFirst(line, "://", k);
  }

  lemma {:induction false} FoundIsSeparator(line: string)
    requires IndexOfText(line, "://") >= 0
    ensures IsSeparator(line, IndexOfText(line, "://"))
  {
    var k := IndexOfText(line, "://");
    forall j | 0 <= j < k ensures !("://" <= line[j..]) {
      if "://" <= line[j..] { IndexOfTextIsFirst(line, "://", j); }
    }
  }

  /** The scheme is ss, in either case. */
  predicate SaysSs(scheme: string) {
    |scheme| == 2 && (scheme[0] == 's' || scheme[0] == 'S') && (scheme[1] == 's' || scheme[1] == 'S')
  }

  lemma {:induction false} LowerIsSs(scheme: string)
    ensures Lower(scheme) == "ss" <==> SaysSs(scheme)
  {
    if SaysSs(scheme) {
      assert Lower(scheme) == "ss";
    }
  }

  /** The parts of an ss link behind "ss://": what names the server, a query, a fragment. */
  datatype Parts = Parts(server: string, query: string, fragment: string)

  predicate ArePartsOf(parts: Parts, rest: string) {
    && rest == parts.server + parts.query + parts.fragment
    && '#' !in parts.server && '?' !in parts.server
    && (parts.query == "" || (parts.query[0] == '?' && '#' !in parts.query))
    && (parts.fragment == "" || parts.fragment[0] == '#')
  }

  /** The server part as written when it has an '@' or is not base64, otherwise what it encodes. */
  function Plain(server: string): string {
    if '@' in server || TryDecode(1, server) == "" then server else TryDecode(1, server)
  }

  /** Credentials, host and port: at the last '@', and behind it at the last ':'. */
  predicate IsEndpoint(text: string, credentials: string, host: string, port: string) {
    text == credentials + "@" + host + ":" + port && '@' !in host && '@' !in port && ':' !in port
  }

  /** The fragment names the row; without one it is numbered from one. */
  function NameIn(fragment: string, index: nat): string {
    var name := if fragment == "" then "" else Trim(Percent.Decode(fragment[1..]));
    if name == "" then "Shadowsocks #" + Print(index + 1) else name
  }

  /** What an ss link gives: a row for the endpoint it names, or nothing when it names none. */
  ghost predicate SsReads(rest: string, index: nat, f: Option<Fields>) {
    exists parts :: ArePartsOf(parts, rest) && PartsRead(parts, index, f)
  }

  ghost predicate PartsRead(parts: Parts, index: nat, f: Option<Fields>) {
    if f.Some? then
      exists credentials, host, port ::
        && IsEndpoint(Plain(parts.server), credentials, host, port)
        && f.value == Fields(NameIn(parts.fragment, index), "Shadowsocks", host, ToUint16(ToInt(port)))
    else
      forall credentials, host, port :: !IsEndpoint(Plain(parts.server), credentials, host, port)
  }

  /** What one trimmed line gives. */
  ghost predicate Reads(lib: Library, line: string, index: nat, f: Option<Fields>) {
    if exists k: nat :: k > 0 && IsSeparator(line, k) then
      forall k: nat :: IsSeparator(line, k) ==>
        if SaysSs(line[..k]) then SsReads(Trim(line[k + 3..]), index, f) else f == lib.others(line, index)
    else f.None?
  }

  lemma {:induction false} PartsExist(rest: string)
    ensures ArePartsOf(Parts(Before(Before(rest, '#'), '?'),
                             Before(rest, '#')[|Before(Before(rest, '#'), '?')|..],
                             rest[|Before(rest, '#')|..]), rest)
  {
    var b := Before(rest, '#');
    var c := Before(b, '?');
    assert b == c + b[|c|..] && rest == b + rest[|b|..];
    assert rest == c + b[|c|..] + rest[|b|..];
  }

  lemma {:induction false} BeforeCut(a: string, c: char, b: string)
    requires c !in a && (b == "" || b[0] == c)
    ensures Before(a + b, c) == a && After(a + b, c) == if b == "" then "" else b[1..]
  {
    if b == "" {
      assert a + b == a;
    } else {
      IndexOfSplit(a, c, b[1..]);
      assert a + b == a + [c] + b[1..];
    }
  }

  lemma {:induction false} PartsAreCut(parts: Parts, rest: string)
    requires ArePartsOf(parts, rest)
    ensures Before(Before(rest, '#'), '?') == parts.server
    ensures After(rest, '#') == if parts.fragment == "" then "" else parts.fragment[1..]
  {
    BeforeCut(parts.server + parts.query, '#', parts.fragment);
    BeforeCut(parts.server, '?', parts.query);
  }

  lemma {:induction false} EndpointIsRead(text: string, credentials: string, host: string, port: string, name: string)
    requires IsEndpoint(text, credentials, host, port)
    ensures ReadAuthority(text, name) == Some(Fields(name, "Shadowsocks", host, ToUint16(ToInt(port))))
  {
    hide ToInt;
    var tail := host + ":" + port;
    assert text == credentials + ['@'] + tail;
    LastIndexOfSplit(credentials, '@', tail);
    assert text[|credentials| + 1..] == tail;
    assert tail == host + [':'] + port;
    LastIndexOfSplit(host, ':', port);
    assert tail[..|host|] == host && tail[|host| + 1..] == port;
  }

  lemma {:induction false} ReadIsEndpoint(text: string, name: string)
    requires ReadAuthority(text, name).Some?
    ensures exists credentials, host, port :: IsEndpoint(text, credentials, host, port)
  {
    hide ToInt;
    var at := LastIndexOf(text, '@');
    var tail := text[at + 1..];
    var colon := LastIndexOf(tail, ':');
    CutAtLast(text, '@', at);
    CutAtLast(tail, ':', colon);
    hide *;
    EndpointIsCut(text, text[..at], tail, tail[..colon], tail[colon + 1..]);
  }

  lemma {:induction false} EndpointIsCut(text: string, credentials: string, tail: string, host: string, port: string)
    requires text == credentials + ['@'] + tail && '@' !in tail
    requires tail == host + [':'] + port && ':' !in port
    ensures exists credentials, host, port :: IsEndpoint(text, credentials, host, port)
  {
    assert text == credentials + "@" + host + ":" + port;
    assert IsEndpoint(text, credentials, host, port);
  }

  lemma {:induction false} CutAtLast(s: string, c: char, i: nat)
    requires i < |s| && s[i] == c && forall j :: i < j < |s| ==> s[j] != c
    ensures s == s[..i] + [c] + s[i + 1..] && c !in s[i + 1..]
  {
  }

  lemma {:induction false} NameIsRead(fragment: string, index: nat)
    requires fragment == "" || fragment[0] == '#'
    ensures var t := Trim(Percent.Decode(if fragment == "" then "" else fragment[1..]));
            NameIn(fragment, index) == if t == "" then DefaultName(index) else t
  {
    NothingDecodes();
    hide Percent.Decode, Trim, Print;
  }

  lemma {:induction false} NothingDecodes()
    ensures Percent.Decode("") == "" && Trim("") == ""
  {
    assert Encode("") == [];
  }

  lemma {:induction false} PartsAreRead(line: string, k: nat, parts: Parts, index: nat, f: Option<Fields>)
    requires IsSeparator(line, k) && ArePartsOf(parts, Trim(line[k + 3..]))
    ensures IndexOfText(line, "://") == k
    ensures PartsRead(parts, index, f) <==> f == ParseShadowsocks(line, index)
  {
    hide *;
    SeparatorIsFound(line, k);
    LinkIsAuthority(line, k, parts, index);
    PartsReadAuthority(parts, index, f);
  }

  lemma {:induction false} PartsReadAuthority(parts: Parts, index: nat, f: Option<Fields>)
    ensures PartsRead(parts, index, f) <==> f == ReadAuthority(Plain(parts.server), NameIn(parts.fragment, index))
  {
    AuthorityIsRead(Plain(parts.server), NameIn(parts.fragment, index));
    hide Plain, IsEndpoint, ToInt, ToUint16, ReadAuthority, NameIn;
  }

  lemma {:induction false} LinkIsAuthority(line: string, k: nat, parts: Parts, index: nat)
    requires IndexOfText(line, "://") == k && ArePartsOf(parts, Trim(line[k + 3..]))
    ensures ParseShadowsocks(line, index) == ReadAuthority(Plain(parts.server), NameIn(parts.fragment, index))
  {
    hide IndexOfText, Trim, TryDecode, Percent.Decode, ReadAuthority, Before, After, ArePartsOf, NameIn, DefaultName, Body;
    BodyIsRest(line, k);
    PartsAreCut(parts, Body(line));
    FragmentFirst(parts, Body(line));
    NameIsRead(parts.fragment, index);
  }

  lemma {:induction false} BodyIsRest(line: string, k: nat)
    requires IndexOfText(line, "://") == k
    ensures Body(line) == Trim(line[k + 3..])
  {
    hide IndexOfText, Trim;
  }

  lemma {:induction false} FragmentFirst(parts: Parts, rest: string)
    requires ArePartsOf(parts, rest)
    ensures parts.fragment == "" || parts.fragment[0] == '#'
  {
  }

  /** Reading an authority finds its endpoint exactly when it has one. */
  lemma {:induction false} AuthorityIsRead(text: string, name: string)
    ensures ReadAuthority(text, name).None? <==> forall credentials, host, port :: !IsEndpoint(text, credentials, host, port)
    ensures forall credentials, host, port :: IsEndpoint(text, credentials, host, port) ==>
      ReadAuthority(text, name) == Some(Fields(name, "Shadowsocks", host, ToUint16(ToInt(port))))
  {
    forall credentials, host, port | IsEndpoint(text, credentials, host, port)
      ensures ReadAuthority(text, name) == Some(Fields(name, "Shadowsocks", host, ToUint16(ToInt(port))))
    {
      EndpointIsRead(text, credentials, host, port, name);
    }
    if ReadAuthority(text, name).Some? {
      ReadIsEndpoint(text, name);
    }
    hide ReadAuthority, IsEndpoint;
  }

  lemma {:induction false} SsReadsExactly(line: string, k: nat, index: nat, f: Option<Fields>)
    requires IsSeparator(line, k)
    ensures IndexOfText(line, "://") == k
    ensures SsReads(Trim(line[k + 3..]), index, f) <==> f == ParseShadowsocks(line, index)
  {
    hide *;
    SeparatorIsFound(line, k);
    var rest := Trim(line[k + 3..]);
    var some := SomeParts(rest);
    PartsAreRead(line, k, some, index, f);
    if SsReads(rest, index, f) {
      var parts := PartsOf(rest, index, f);
      PartsAreRead(line, k, parts, index, f);
    } else if PartsRead(some, index, f) {
      PartsSuffice(rest, some, index, f);
    }
  }

  lemma {:induction false} SomeParts(rest: string) returns (parts: Parts)
    ensures ArePartsOf(parts, rest)
  {
    PartsExist(rest);
    hide ArePartsOf;
    parts :| ArePartsOf(parts, rest);
  }

  lemma {:induction false} PartsOf(rest: string, index: nat, f: Option<Fields>) returns (parts: Parts)
    requires SsReads(rest, index, f)
    ensures ArePartsOf(parts, rest) && PartsRead(parts, index, f)
  {
    hide ArePartsOf, PartsRead;
    parts :| ArePartsOf(parts, rest) && PartsRead(parts, index, f);
  }

  lemma {:induction false} PartsSuffice(rest: string, parts: Parts, index: nat, f: Option<Fields>)
    requires ArePartsOf(parts, rest) && PartsRead(parts, index, f)
    ensures SsReads(rest, index, f)
  {
    hide ArePartsOf, PartsRead;
  }

  /** A line gives exactly what it says: endpoint links of ss, the library's reading of any other scheme, else nothing. */
  lemma {:induction false} ReadsExactly(lib: Library, line: string, index: nat, f: Option<Fields>)
    ensures Reads(lib, line, index, f) <==> f == ParseLine(lib, line, index)
  {
    hide ParseShadowsocks, SsReads, Trim, Lower, SaysSs, IsSeparator, IndexOfText;
    forall k: nat | IsSeparator(line, k) ensures IndexOfText(line, "://") == k {
      SeparatorIsFound(line, k);
    }
    var k := IndexOfText(line, "://");
    if k > 0 {
      FoundIsSeparator(line);
      LowerIsSs(line[..k]);
      SsReadsExactly(line, k, index, f);
    }
  }

  /** A row shows the fields that were read, under its position, untested. */
  predicate IsRowOf(n: ProxyNode, f: Fields, index: nat) {
    && n.id == "proxy_" + Print(index) && n.delay == -1
    && n.name == f.name && n.kind == f.kind && n.address == f.address && n.port == f.port
  }

  /**
   * The rows of a list of lines: each of the lines listed in `from` gives the row at its place, and every other
   * line is blank or gives nothing at the place it would have had.
   */
  ghost predicate IsListing(lib: Library, lines: seq<string>, from: seq<nat>, nodes: seq<ProxyNode>) {
    && IsIncreasing(from, |lines|) && |from| == |nodes|
    && AllGiven(lib, lines, from, nodes) && NoneMissed(lib, lines, from)
  }

  predicate IsIncreasing(from: seq<nat>, bound: nat) {
    && (forall j, k :: 0 <= j < k < |from| ==> from[j] < from[k])
    && (forall j :: 0 <= j < |from| ==> from[j] < bound)
  }

  ghost predicate AllGiven(lib: Library, lines: seq<string>, from: seq<nat>, nodes: seq<ProxyNode>)
    requires IsIncreasing(from, |lines|) && |from| == |nodes|
  {
    forall j :: 0 <= j < |from| ==> GivesRow(lib, lines[from[j]], j, nodes[j])
  }

  ghost predicate NoneMissed(lib: Library, lines: seq<string>, from: seq<nat>) {
    forall i :: 0 <= i < |lines| && i !in from ==> IsMissing(lib, lines[i], from, i)
  }

  ghost predicate IsMissing(lib: Library, line: string, from: seq<nat>, i: nat) {
    exists j :: IsPlaceOf(from, i, j) && GivesNothing(lib, line, j)
  }

  ghost predicate GivesRow(lib: Library, line: string, j: nat, n: ProxyNode) {
    Trim(line) != "" && exists f :: Reads(lib, Trim(line), j, Some(f)) && IsRowOf(n, f, j)
  }

  ghost predicate GivesNothing(lib: Library, line: string, j: nat) {
    Trim(line) == "" || Reads(lib, Trim(line), j, None)
  }

  predicate IsPlaceOf(from: seq<nat>, i: nat, j: nat) {
    j <= |from| && (j > 0 ==> from[j - 1] < i) && (j < |from| ==> i < from[j])
  }

  lemma {:induction false} LinesAreListed(lib: Library, lines: seq<string>) returns (from: seq<nat>)
    ensures IsListing(lib, lines, from, ParseLines(lib, lines))
  {
    from := [];
    if lines != [] {
      var n := |lines| - 1;
      var before := LinesAreListed(lib, Init(lines));
      var nodes, t := ParseLines(lib, Init(lines)), Trim(lines[n]);
      var f := ParseLine(lib, t, |nodes|);
      ReadsExactly(lib, t, |nodes|, f);
      hide ParseLine, Trim, Reads;
      if t != "" && f.Some? {
        from := before + [n];
        RowIsAdded(lib, lines, before, nodes, f.value);
      } else {
        from := before;
        LineIsSkipped(lib, lines, before, nodes);
      }
    }
  }

  lemma {:induction false} RowIsAdded(lib: Library, lines: seq<string>, from: seq<nat>, nodes: seq<ProxyNode>, f: Fields)
    requires lines != [] && IsListing(lib, Init(lines), from, nodes)
    requires Positional(nodes) && AllUntested(nodes)
    requires Trim(Last(lines)) != "" && Reads(lib, Trim(Last(lines)), |nodes|, Some(f))
    ensures IsListing(lib, lines, from + [|lines| - 1], WithRow(nodes, f))
  {
    hide Trim, Reads, Print, AllGiven, NoneMissed, Positional, AllUntested;
    var n, row := |lines| - 1, Finish(f, |nodes|);
    assert IsRowOf(row, f, |nodes|) && GivesRow(lib, lines[n], |nodes|, row);
    GivenIsExtended(lib, lines, from, nodes, row);
    MissingIsExtended(lib, lines, from);
    hide GivesRow, IsRowOf, Finish;
    assert WithRow(nodes, f) == nodes + [row];
  }

  lemma {:induction false} GivenIsExtended(lib: Library, lines: seq<string>, from: seq<nat>, nodes: seq<ProxyNode>, row: ProxyNode)
    requires lines != [] && IsIncreasing(from, |lines| - 1) && |from| == |nodes| && AllGiven(lib, Init(lines), from, nodes)
    requires GivesRow(lib, Last(lines), |nodes|, row)
    ensures IsIncreasing(from + [|lines| - 1], |lines|)
    ensures AllGiven(lib, lines, from + [|lines| - 1], nodes + [row])
  {
    hide GivesRow;
    var n := |lines| - 1;
    var after, rows := from + [n], nodes + [row];
    forall j | 0 <= j < |after| ensures GivesRow(lib, lines[after[j]], j, rows[j]) {
      if j < |from| {
        assert GivesRow(lib, Init(lines)[from[j]], j, nodes[j]);
      }
    }
  }

  lemma {:induction false} MissingIsExtended(lib: Library, lines: seq<string>, from: seq<nat>)
    requires lines != [] && IsIncreasing(from, |lines| - 1) && NoneMissed(lib, Init(lines), from)
    ensures NoneMissed(lib, lines, from + [|lines| - 1])
  {
    hide IsMissing, IsIncreasing;
    var n := |lines| - 1;
    var after := from + [n];
    forall i | 0 <= i < |lines| && i !in after ensures IsMissing(lib, lines[i], after, i) {
      assert after[|from|] == n;
      assert forall x :: x in from ==> x in after;
      assert IsMissing(lib, Init(lines)[i], from, i);
      PlaceStays(lib, lines[i], from, n, i);
    }
  }

  lemma {:induction false} PlaceStays(lib: Library, line: string, from: seq<nat>, n: nat, i: nat)
    requires IsMissing(lib, line, from, i) && i < n
    ensures IsMissing(lib, line, from + [n], i)
  {
    hide GivesNothing;
    var j :| IsPlaceOf(from, i, j) && GivesNothing(lib, line, j);
    assert IsPlaceOf(from + [n], i, j);
  }

  lemma {:induction false} LineIsSkipped(lib: Library, lines: seq<string>, from: seq<nat>, nodes: seq<ProxyNode>)
    requires lines != [] && IsListing(lib, Init(lines), from, nodes) && GivesNothing(lib, Last(lines), |nodes|)
    ensures IsListing(lib, lines, from, nodes)
  {
    hide GivesNothing, GivesRow, IsMissing;
    var n := |lines| - 1;
    LastIsMissing(lib, lines[n], from, n);
    forall j | 0 <= j < |from| ensures GivesRow(lib, lines[from[j]], j, nodes[j]) {
      assert GivesRow(lib, Init(lines)[from[j]], j, nodes[j]);
    }
    forall i | 0 <= i < |lines| && i !in from ensures IsMissing(lib, lines[i], from, i) {
      if i < n {
        assert IsMissing(lib, Init(lines)[i], from, i);
      }
    }
  }

  lemma {:induction false} LastIsMissing(lib: Library, line: string, from: seq<nat>, n: nat)
    requires IsIncreasing(from, n) && GivesNothing(lib, line, |from|)
    ensures IsMissing(lib, line, from, n)
  {
    hide GivesNothing;
    assert IsPlaceOf(from, n, |from|);
  }

  /** One untested row for each entry, in order, showing its fields. */
  predicate AreRowsOf(nodes: seq<ProxyNode>, fields: seq<Fields>) {
    |nodes| == |fields| && forall i :: 0 <= i < |nodes| ==> IsRowOf(nodes[i], fields[i], i)
  }

  lemma {:induction false} NumberedAreRows(fields: seq<Fields>)
    ensures AreRowsOf(Numbered(fields), fields)
  {
    hide Print;
  }

  /** A plain body: the entries of a configuration, or the readable lines of a list that has a protocol link. */
  lemma {:induction false} ContentIsRead(lib: Library, content: string) returns (from: seq<nat>)
    ensures var t, nodes := Trim(content), ParseNodes(lib, content);
      && (t == "" ==> nodes == [])
      && (t != "" && t[0] == '{' ==> AreRowsOf(nodes, lib.engine(t)))
      && (t != "" && t[0] != '{' && HasLinkLine(t) ==> IsListing(lib, Split(t, '\n'), from, nodes))
  {
    var t := Trim(content);
    TrimIdempotent(content);
    NumberedAreRows(lib.engine(t));
    from := LinesAreListed(lib, Split(t, '\n'));
    hide Trim, Split, HasLinkLine, IsListing, AreRowsOf, Numbered, ParseLines;
    if t != "" && t[0] != '{' && HasLinkLine(t) {
      assert Trim(t) == t;
      ReadableBodyIsTrimmed(Nodes, t);
    }
  }

  /** The same bodies behind base64, in any accepted form. */
  lemma {:induction false} WrappedContentIsRead(lib: Library, wrapped: string, text: string) returns (from: seq<nat>)
    requires IsPayload(wrapped) && IsEncodingOf(wrapped, Encode(text)) && wrapped != ""
    requires Trim(text) != "" && '\0' !in text && !HasBom(text)
    ensures var nodes := ParseNodes(lib, wrapped);
      && (Trim(text)[0] == '{' ==> AreRowsOf(nodes, lib.engine(Trim(text))))
      && (Trim(text)[0] != '{' && Contains(text, "://") ==> IsListing(lib, Split(text, '\n'), from, nodes))
  {
    assert text != "" by { TrimShape(text); assert Trim(text)[0] in Trim(text); }
    WrappedBodyExactly(Nodes, wrapped, text);
    PayloadShape(wrapped);
    NumberedAreRows(lib.engine(Trim(text)));
    from := LinesAreListed(lib, Split(text, '\n'));
    hide Trim, Split, IsListing, AreRowsOf, Numbered, ParseLines, DecodeBody, IsPayload, IsEncodingOf, Encode, Contains;
  }
}
