/** Node lists: Shadowsocks links, line dispatch and positional ids. */
module ProxyNodes {
  import opened Text
  import opened Utf8
  import opened Base64
  import opened Decimal
  import opened Subscription
  import Percent

  /** A row of the node list; -1 is "not tested". */
  datatype ProxyNode = ProxyNode(id: string, name: string, kind: string, address: string, port: nat, delay: int)

  const UNTESTED := -1

  /** What a parser finds before the row gets its id. */
  datatype Fields = Fields(name: string, kind: string, address: string, port: nat)

  /**
   * The parsers that rest on Qt's JSON and URL classes: `others` reads a line of any scheme but ss,
   * `engine` lists the dialable entries of an engine configuration in order.
   */
  datatype Library = Library(others: (string, nat) -> Option<Fields>, engine: string -> seq<Fields>)

  function NodeId(index: nat): string {
    "proxy_" + Print(index)
  }

  function Finish(f: Fields, index: nat): ProxyNode {
    ProxyNode(NodeId(index), f.name, f.kind, f.address, f.port, UNTESTED)
  }

  predicate Positional(nodes: seq<ProxyNode>) {
    forall i :: 0 <= i < |nodes| ==> nodes[i].id == NodeId(i)
  }

  predicate AllUntested(nodes: seq<ProxyNode>) {
    forall i :: 0 <= i < |nodes| ==> nodes[i].delay == UNTESTED
  }

  /** Positional ids are distinct, because decimal printing is injective. */
  lemma {:induction false} PositionalIdsDistinct(nodes: seq<ProxyNode>, i: nat, j: nat)
    requires Positional(nodes) && i < |nodes| && j < |nodes|
    ensures nodes[i].id == nodes[j].id <==> i == j
  {
    hide Print;
    if nodes[i].id == nodes[j].id {
      assert NodeId(i)[6..] == Print(i) && NodeId(j)[6..] == Print(j);
      PrintInjective(i, j);
    }
  }

  /** What stands before and after the first occurrence of `c`. */
  function Before(s: string, c: char): string {
    if IndexOf(s, c) >= 0 then s[..IndexOf(s, c)] else s
  }

  function After(s: string, c: char): string {
    if IndexOf(s, c) >= 0 then s[IndexOf(s, c) + 1..] else ""
  }

  function DefaultName(index: nat): string {
    "Shadowsocks #" + Print(index + 1)
  }

  /** Host and port behind the last '@' and the last ':'. */
  function ReadAuthority(authority: string, name: string): Option<Fields> {
    var at := LastIndexOf(authority, '@');
    if at < 0 then None
    else
      var hostPort := authority[at + 1..];
      var colon := LastIndexOf(hostPort, ':');
      if colon < 0 then None
      else Some(Fields(name, "Shadowsocks", hostPort[..colon], ToUint16(ToInt(hostPort[colon + 1..]))))
  }

  function Body(line: string): string
    requires IndexOfText(line, "://") >= 0
  {
    Trim(line[IndexOfText(line, "://") + 3..])
  }

  /** parseShadowsocksNode. */
  function ParseShadowsocks(line: string, index: nat): Option<Fields>
    requires IndexOfText(line, "://") >= 0
  {
    var rest := Body(line);
    var fragment := Trim(Percent.Decode(After(rest, '#')));
    var raw := Before(Before(rest, '#'), '?');
    var decoded := if '@' in raw then "" else TryDecode(1, raw);
    var authority := if decoded == "" then raw else decoded;
    ReadAuthority(authority, if fragment == "" then DefaultName(index) else fragment)
  }

  function LowerChar(c: char): char {
    if 'A' <= c <= 'Z' then (c as int + 32) as char else if c as int == 0x212A then 'k' else c
  }

  function Lower(s: string): (r: string)
    ensures |r| == |s| && forall i :: 0 <= i < |s| ==> r[i] == LowerChar(s[i])
  {
    seq(|s|, i requires 0 <= i < |s| => LowerChar(s[i]))
  }

  /** parseProxyLine. */
  function ParseLine(lib: Library, line: string, index: nat): Option<Fields> {
    var k := IndexOfText(line, "://");
    if k <= 0 then None
    else if Lower(line[..k]) == "ss" then ParseShadowsocks(line, index)
    else lib.others(line, index)
  }

  function ParseLines(lib: Library, lines: seq<string>): (nodes: seq<ProxyNode>)
    ensures Positional(nodes) && AllUntested(nodes)
  {
    if lines == [] then []
    else
      var before := ParseLines(lib, Init(lines));
      var t := Trim(Last(lines));
      if t == "" then before
      else
        match ParseLine(lib, t, |before|)
        case None => before
        case Some(f) => WithRow(before, f)
  }

  /** One row more, numbered by its position. */
  function WithRow(nodes: seq<ProxyNode>, f: Fields): (r: seq<ProxyNode>)
    requires Positional(nodes) && AllUntested(nodes)
    ensures Positional(r) && AllUntested(r) && nodes <= r && |r| == |nodes| + 1
  {
    nodes + [Finish(f, |nodes|)]
  }

  function Numbered(fields: seq<Fields>): (nodes: seq<ProxyNode>)
    ensures Positional(nodes) && AllUntested(nodes) && |nodes| == |fields|
  {
    seq(|fields|, i requires 0 <= i < |fields| => Finish(fields[i], i))
  }

  predicate IsObject(text: string) {
    text != "" && text[0] == '{'
  }

  /** parseProxyNodes as a function of the stored content. */
  function ParseNodes(lib: Library, content: string): (nodes: seq<ProxyNode>)
    ensures Positional(nodes) && AllUntested(nodes)
  {
    var trimmed := Trim(content);
    if trimmed == "" then []
    else if IsObject(trimmed) then Numbered(lib.engine(trimmed))
    else
      var decoded := DecodeBody(Nodes, trimmed);
      if IsObject(Trim(decoded)) then Numbered(lib.engine(Trim(decoded)))
      else ParseLines(lib, Split(decoded, '\n'))
  }

  /** parseProxyNodes as written: one pass over the lines with a running index. */
  method ParseProxyNodes(lib: Library, content: string) returns (nodes: seq<ProxyNode>)
    ensures nodes == ParseNodes(lib, content)
  {
    hide ParseLine, DecodeBody, Trim, Split;
    var trimmed := Trim(content);
    nodes := [];
    if trimmed == "" {
      return;
    }
    if IsObject(trimmed) {
      return Numbered(lib.engine(trimmed));
    }
    var decoded := DecodeBody(Nodes, trimmed);
    if IsObject(Trim(decoded)) {
      return Numbered(lib.engine(Trim(decoded)));
    }
    var index := 0;
    var lines := Split(decoded, '\n');
    for i := 0 to |lines|
      invariant nodes == ParseLines(lib, lines[..i]) && index == |nodes|
    {
      assert Init(lines[..i + 1]) == lines[..i] && Last(lines[..i + 1]) == lines[i];
      var t := Trim(lines[i]);
      if t == "" {
        continue;
      }
      var node := ParseLine(lib, t, index);
      if node.Some? {
        nodes := nodes + [Finish(node.value, index)];
        index := index + 1;
      }
    }
    assert lines[..|lines|] == lines;
  }
}
