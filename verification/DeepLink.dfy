/** Pulling the subscription URL out of a client deep link. */
module DeepLink {
  import opened Text
  import opened Utf8
  import opened Subscription
  import Percent

  type Params = map<string, string>

  predicate HasPair(pair: string) {
    IndexOf(pair, '=') > 0 && Percent.Decode(pair[..IndexOf(pair, '=')]) != ""
  }

  function Key(pair: string): string
    requires HasPair(pair)
  {
    Percent.Decode(pair[..IndexOf(pair, '=')])
  }

  function Val(pair: string): string
    requires HasPair(pair)
  {
    Percent.Decode(pair[IndexOf(pair, '=') + 1..])
  }

  /** The parameters of a list of pairs; a later pair overrides an earlier one with its key. */
  function Collect(pairs: seq<string>): Params {
    if pairs == [] then map[]
    else
      var last := Last(pairs);
      var before := Collect(Init(pairs));
      if HasPair(last) then before[Key(last) := Val(last)] else before
  }

  lemma {:induction false} CollectNext(pairs: seq<string>, i: nat)
    requires i < |pairs|
    ensures Collect(pairs[..i + 1])
         == if HasPair(pairs[i]) then Collect(pairs[..i])[Key(pairs[i]) := Val(pairs[i])] else Collect(pairs[..i])
  {
    hide HasPair, Key, Val;
    assert Init(pairs[..i + 1]) == pairs[..i];
    assert Last(pairs[..i + 1]) == pairs[i];
  }

  function QueryBody(query: string): string {
    query[IndexOf(query, '?') + 1..]
  }

  function ParamsOf(query: string): Params {
    Collect(Split(QueryBody(query), '&'))
  }

  /** parseQueryParams as written; an empty part has no '=' and so is skipped like any malformed one. */
  method ParseQueryParams(query: string) returns (params: Params)
    ensures params == ParamsOf(query)
  {
    hide Percent.Decode, Split, IndexOf;
    params := map[];
    var body := query;
    var mark := IndexOf(body, '?');
    if mark >= 0 {
      body := body[mark + 1..];
    }
    var pairs := Split(body, '&');
    for i := 0 to |pairs|
      invariant params == Collect(pairs[..i])
    {
      CollectNext(pairs, i);
      var eq := IndexOf(pairs[i], '=');
      if eq <= 0 {
        continue;
      }
      var key := Percent.Decode(pairs[i][..eq]);
      var value := Percent.Decode(pairs[i][eq + 1..]);
      if key != "" {
        params := params[key := value];
      }
    }
    assert pairs[..|pairs|] == pairs;
  }

  function Value(params: Params, key: string): string {
    if key in params then params[key] else ""
  }

  predicate IsLetter(c: char) {
    'A' <= c <= 'Z' || 'a' <= c <= 'z'
  }

  predicate IsSchemeChar(c: char) {
    IsLetter(c) || '0' <= c <= '9' || c == '+' || c == '.' || c == '-'
  }

  predicate IsScheme(s: string) {
    s != "" && IsLetter(s[0]) && forall i :: 0 <= i < |s| ==> IsSchemeChar(s[i])
  }

  /**
   * The length of the match of the scheme pattern, or 0. The scheme ends at the first ':', because no
   * scheme character is a colon.
   */
  function SchemeMatch(s: string): (n: nat)
    ensures n <= |s|
  {
    var k := IndexOf(s, ':');
    if k > 0 && IsScheme(s[..k]) && "://" <= s[k..] then k + 3 else 0
  }

  datatype Result = NotADeepLink | Malformed | Link(url: string, name: string)

  function StripImport(rest: string): string {
    if "import/" <= rest || "import?" <= rest then rest[7..] else rest
  }

  predicate IsHttp(s: string) {
    StartsWithFolded(s, "http://") || StartsWithFolded(s, "https://")
  }

  function Outcome(params: Params): Result {
    var url := Value(params, "url");
    if url == "" then Malformed else Link(url, Value(params, "name"))
  }

  /** subscriptionUrlFromDeepLink. */
  function Parse(input: string): Result {
    var trimmed := Trim(input);
    if IsProtocolLink(trimmed) || IsHttp(trimmed) || SchemeMatch(trimmed) == 0 then NotADeepLink
    else
      Outcome(ParamsOf(StripImport(trimmed[SchemeMatch(trimmed)..])))
  }

  /** A scheme that neither names a protocol nor http(s), in any letter case. */
  predicate IsClientScheme(scheme: string) {
    && IsScheme(scheme)
    && FoldAll(scheme) !in PROTOCOLS
    && FoldAll(scheme) != "http" && FoldAll(scheme) != "https"
  }

  predicate IsPlainName(name: string) {
    forall i :: 0 <= i < |name| ==> 'a' <= name[i] <= 'z' || '0' <= name[i] <= '9'
  }

  /** A link starts with `name://` only if its scheme folds to that name. */
  lemma {:induction false} PrefixFixesScheme(scheme: string, rest: string, name: string)
    requires IsScheme(scheme) && IsPlainName(name)
    requires StartsWithFolded(scheme + "://" + rest, name + "://")
    ensures FoldAll(scheme) == name
  {
    var s, p := scheme + "://" + rest, name + "://";
    var f := FoldAll(s[..|p|]);
    assert f == FoldAll(p);
    assert forall i :: 0 <= i < |p| ==> f[i] == Fold(s[i]) && f[i] == Fold(p[i]);
    assert s[|scheme|] == ':' && p[|name|] == ':';
    assert forall i :: 0 <= i < |name| ==> p[i] == name[i] && s[i] != ':';
    assert forall i :: 0 <= i < |scheme| && i < |p| ==> s[i] == scheme[i] && IsSchemeChar(s[i]) && p[i] != ':';
    forall i | 0 <= i < |name| ensures FoldAll(scheme)[i] == name[i] {
      assert s[i] == scheme[i] && p[i] == name[i];
    }
  }

  lemma {:induction false} ProtocolsArePlain()
    ensures forall i :: 0 <= i < |PROTOCOLS| ==> IsPlainName(PROTOCOLS[i])
    ensures IsPlainName("http") && IsPlainName("https")
  {
  }

  lemma {:induction false} ClientSchemeIsNoProtocol(scheme: string, rest: string)
    requires IsClientScheme(scheme)
    ensures !IsProtocolLink(scheme + "://" + rest) && !IsHttp(scheme + "://" + rest)
  {
    ProtocolsArePlain();
    hide IsPlainName, IsScheme, StartsWithFolded;
    var s := scheme + "://" + rest;
    forall i | 0 <= i < |PROTOCOLS| ensures !StartsWithFolded(s, PROTOCOLS[i] + "://") {
      if StartsWithFolded(s, PROTOCOLS[i] + "://") { PrefixFixesScheme(scheme, rest, PROTOCOLS[i]); }
    }
    assert "http" + "://" == "http://" && "https" + "://" == "https://";
    if StartsWithFolded(s, "http://") { PrefixFixesScheme(scheme, rest, "http"); }
    if StartsWithFolded(s, "https://") { PrefixFixesScheme(scheme, rest, "https"); }
  }

  lemma {:induction false} SchemeIsMatched(scheme: string, rest: string)
    requires IsScheme(scheme)
    ensures SchemeMatch(scheme + "://" + rest) == |scheme| + 3
    ensures (scheme + "://" + rest)[|scheme| + 3..] == rest
  {
    var s := scheme + "://" + rest;
    assert s == scheme + [':'] + ("//" + rest);
    assert ':' !in scheme by {
      assert forall i :: 0 <= i < |scheme| ==> IsSchemeChar(scheme[i]);
    }
    IndexOfSplit(scheme, ':', "//" + rest);
    assert s[..|scheme|] == scheme && s[|scheme|..] == "://" + rest;
  }

  /** A query parameter as a link writer emits it. */
  function Pair(key: string, value: string): string {
    key + "=" + Percent.Encode(value)
  }

  lemma {:induction false} EscapedAvoids(value: string)
    ensures forall c :: c in Percent.Encode(value) ==> c != '&' && c != '?' && !IsSpace(c)
  {
    hide Percent.Encode;
    assert forall c :: Percent.IsUnreserved(c) || c == '%' ==> c != '&' && c != '?' && !IsSpace(c);
  }

  lemma {:induction false} PairShape(key: string, value: string)
    requires key in {"url", "name"}
    ensures var p, e := Pair(key, value), Percent.Encode(value);
            && IndexOf(p, '=') == |key| && p[..|key|] == key && p[|key| + 1..] == e
            && '&' !in p && '?' !in p && !IsSpace(Last(p))
  {
    EscapedAvoids(value);
    var p, e := Pair(key, value), Percent.Encode(value);
    hide Percent.Encode;
    assert p == key + ['='] + e;
    IndexOfSplit(key, '=', e);
    hide IndexOf, IsSpace;
    assert !IsSpace('=') && '=' != '&' && '=' != '?' by { EqualsIsPlain(); }
    assert Last(p) == if e == "" then '=' else Last(e);
    assert '&' !in key && '?' !in key;
  }

  lemma {:induction false} EqualsIsPlain()
    ensures !IsSpace('=')
  {
  }

  lemma {:induction false} PairIsParsed(key: string, value: string)
    requires key in {"url", "name"}
    ensures HasPair(Pair(key, value)) && Key(Pair(key, value)) == key
    ensures Val(Pair(key, value)) == StripBom(value)
  {
    PairShape(key, value);
    Percent.RoundTrip(value);
    PlainKeyDecodes(key);
    hide Percent.Encode, Percent.Decode, Pair, IndexOf;
  }

  lemma {:induction false} PlainKeyDecodes(key: string)
    requires key in {"url", "name"}
    ensures Percent.Decode(key) == key
  {
    PlainKeyEncodes(key);
    Percent.RoundTrip(key);
  }

  lemma {:induction false} PlainKeyEncodes(key: string)
    requires key in {"url", "name"}
    ensures Percent.Encode(key) == key
  {
    EncodeAscii(key);
    var b := Utf8.Encode(key);
    if key == "url" {
      assert b == [0x75, 0x72, 0x6C];
      assert b[1..] == [0x72, 0x6C] && b[2..] == [0x6C] && b[3..] == [];
    } else {
      assert b == [0x6E, 0x61, 0x6D, 0x65];
      assert b[1..] == [0x61, 0x6D, 0x65] && b[2..] == [0x6D, 0x65] && b[3..] == [0x65] && b[4..] == [];
    }
  }

  /** A link in any of the supported shapes: everything before the '?' may name a path. */
  function MakeLink(scheme: string, path: string, query: string): string {
    scheme + "://" + path + "?" + query
  }

  lemma {:induction false} PathIsSkipped(path: string, query: string)
    requires '?' !in path
    ensures QueryBody(path + "?" + query) == query
  {
    var rest := path + "?" + query;
    assert rest == path + ['?'] + query;
    IndexOfSplit(path, '?', query);
    assert rest[|path| + 1..] == query;
  }

  lemma {:induction false} ImportSegment(path: string, query: string)
    requires '?' !in path && "import/" <= path + "?" + query
    ensures |path| >= 7 && StripImport(path + "?" + query) == path[7..] + "?" + query
  {
    var rest := path + "?" + query;
    assert rest[|path|] == '?';
    assert forall i :: 0 <= i < 7 ==> rest[i] == "import/"[i];
    assert rest[7..] == path[7..] + "?" + query;
  }

  lemma {:induction false} ImportAlone(path: string, query: string)
    requires '?' !in path && "import?" <= path + "?" + query
    ensures StripImport(path + "?" + query) == query
  {
    var rest := path + "?" + query;
    assert rest[|path|] == '?';
    assert forall i :: 0 <= i < 7 ==> rest[i] == "import?"[i];
    assert rest[6] == '?' && forall i :: 0 <= i < 6 ==> rest[i] != '?';
    forall i | 0 <= i < |path| ensures rest[i] != '?' {
      assert rest[i] == path[i] && path[i] in path;
    }
    assert |path| == 6;
    assert rest[7..] == query;
  }

  /** Where the query starts does not depend on the optional import segment. */
  lemma {:induction false} QueryIsFound(path: string, query: string)
    requires '?' !in path && '?' !in query
    ensures QueryBody(StripImport(path + "?" + query)) == query
  {
    var rest := path + "?" + query;
    if "import/" <= rest {
      ImportSegment(path, query);
      PathIsSkipped(path[7..], query);
    } else if "import?" <= rest {
      ImportAlone(path, query);
    } else {
      PathIsSkipped(path, query);
    }
  }

  lemma {:induction false} LinkShape(scheme: string, path: string, query: string)
    requires IsScheme(scheme) && query != "" && !IsSpace(Last(query))
    ensures MakeLink(scheme, path, query) == scheme + "://" + (path + "?" + query)
    ensures Trim(MakeLink(scheme, path, query)) == MakeLink(scheme, path, query)
  {
    hide Trim;
    var link := MakeLink(scheme, path, query);
    assert link == scheme + "://" + (path + "?" + query);
    assert link[0] == scheme[0] && Last(link) == Last(query);
    TrimFixes(link);
  }

  lemma {:induction false} LinkIsRead(scheme: string, path: string, query: string)
    requires IsClientScheme(scheme) && '?' !in path
    requires query != "" && '?' !in query && !IsSpace(Last(query))
    ensures Parse(MakeLink(scheme, path, query)) == Outcome(Collect(Split(query, '&')))
  {
    hide Trim, Collect, Split, SchemeMatch, IsProtocolLink, IsHttp, StripImport, QueryBody, IsScheme, MakeLink, IsSpace;
    var rest := path + "?" + query;
    LinkShape(scheme, path, query);
    ClientSchemeIsNoProtocol(scheme, rest);
    SchemeIsMatched(scheme, rest);
    QueryIsFound(path, query);
  }

  lemma {:induction false} TwoPairs(first: string, second: string)
    requires '&' !in first && '&' !in second
    requires HasPair(first) && HasPair(second)
    ensures Collect(Split(first + "&" + second, '&')) == map[Key(first) := Val(first)][Key(second) := Val(second)]
  {
    var q := first + "&" + second;
    assert q == first + ['&'] + second;
    SplitStep(first, '&', second);
    assert Split(second, '&') == [second];
    hide HasPair, Key, Val, Split;
    var pairs := [first, second];
    assert [first] + [second] == pairs;
    assert Init(pairs) == [first] && Init([first]) == [];
    assert Last(pairs) == second && Last([first]) == first;
    assert Collect([first]) == map[Key(first) := Val(first)];
  }

  /**
   * Every deep link that carries a percent-encoded URL and name, in either order and behind any path
   * segment, yields exactly the two, up to a leading byte order mark.
   */
  lemma {:induction false} DeepLinkRoundTrip(scheme: string, path: string, url: string, name: string)
    requires IsClientScheme(scheme) && '?' !in path
    ensures var expected := if StripBom(url) == "" then Malformed else Link(StripBom(url), StripBom(name));
            && Parse(MakeLink(scheme, path, Pair("url", url) + "&" + Pair("name", name))) == expected
            && Parse(MakeLink(scheme, path, Pair("name", name) + "&" + Pair("url", url))) == expected
  {
    var u, n := Pair("url", url), Pair("name", name);
    PairShape("url", url);
    PairShape("name", name);
    PairIsParsed("url", url);
    PairIsParsed("name", name);
    hide Pair, HasPair, Key, Val, IsClientScheme, Parse, Collect, Split, StripBom;
    TwoPairs(u, n);
    TwoPairs(n, u);
    BothOrders(scheme, path, u, n);
  }

  lemma {:induction false} BothOrders(scheme: string, path: string, u: string, n: string)
    requires IsClientScheme(scheme) && '?' !in path
    requires u != "" && n != "" && '?' !in u && '?' !in n && !IsSpace(Last(u)) && !IsSpace(Last(n))
    ensures Parse(MakeLink(scheme, path, u + "&" + n)) == Outcome(Collect(Split(u + "&" + n, '&')))
    ensures Parse(MakeLink(scheme, path, n + "&" + u)) == Outcome(Collect(Split(n + "&" + u, '&')))
  {
    hide IsClientScheme, Parse, MakeLink, Outcome;
    LinkIsRead(scheme, path, u + "&" + n);
    LinkIsRead(scheme, path, n + "&" + u);
  }

  /** The link comes back exactly when neither value starts with a byte order mark. */
  lemma {:induction false} DeepLinkExact(scheme: string, path: string, url: string, name: string)
    requires IsClientScheme(scheme) && '?' !in path && url != ""
    ensures Parse(MakeLink(scheme, path, Pair("url", url) + "&" + Pair("name", name))) == Link(url, name)
       <==> !HasBom(url) && !HasBom(name)
  {
    hide Parse, MakeLink, Pair, IsClientScheme;
    DeepLinkRoundTrip(scheme, path, url, name);
  }

  /** A client link without a URL is malformed rather than ignored. */
  lemma {:induction false} LinkWithoutUrl(scheme: string, path: string, name: string)
    requires IsClientScheme(scheme) && '?' !in path
    ensures Parse(MakeLink(scheme, path, Pair("name", name))) == Malformed
  {
    var n := Pair("name", name);
    PairShape("name", name);
    PairIsParsed("name", name);
    hide Pair, HasPair, Key, Val, IsClientScheme, Parse;
    LinkIsRead(scheme, path, n);
    assert Split(n, '&') == [n];
    assert Init([n]) == [] && Last([n]) == n;
  }

  /** Protocol links and plain http(s) URLs are never taken for deep links, whatever they carry. */
  lemma {:induction false} ConfigsAreNotDeepLinks(input: string)
    requires IsProtocolLink(Trim(input)) || IsHttp(Trim(input)) || ':' !in input
    ensures Parse(input).NotADeepLink?
  {
    TrimShape(input);
    hide IsProtocolLink, IsHttp, Trim;
  }

  /** A part of a query that names a value: a key that is not empty, the first '=', the value; both percent-decoded. */
  ghost predicate Says(pair: string, key: string, value: string) {
    exists k, v :: pair == k + "=" + v && k != "" && '=' !in k
      && Percent.Decode(k) == key && key != "" && Percent.Decode(v) == value
  }

  lemma {:induction false} SaysExactly(pair: string, key: string, value: string)
    ensures Says(pair, key, value) <==> HasPair(pair) && Key(pair) == key && Val(pair) == value
  {
    hide Percent.Decode;
    if Says(pair, key, value) {
      var k, v :| pair == k + "=" + v && k != "" && '=' !in k
        && Percent.Decode(k) == key && key != "" && Percent.Decode(v) == value;
      assert pair == k + ['='] + v;
      IndexOfSplit(k, '=', v);
      assert pair[..|k|] == k && pair[|k| + 1..] == v;
    }
    if HasPair(pair) && Key(pair) == key && Val(pair) == value {
      var i := IndexOf(pair, '=');
      assert pair == pair[..i] + "=" + pair[i + 1..];
      assert '=' !in pair[..i];
    }
  }

  /** The value of a key: that of the last part that names one, or empty. */
  ghost predicate IsValueOf(pairs: seq<string>, key: string, value: string) {
    if exists i, v :: 0 <= i < |pairs| && Says(pairs[i], key, v) then
      exists i :: 0 <= i < |pairs| && Says(pairs[i], key, value)
        && forall j, v :: i < j < |pairs| ==> !Says(pairs[j], key, v)
    else value == ""
  }

  ghost predicate IsSaid(pairs: seq<string>, key: string) {
    exists i, v :: 0 <= i < |pairs| && Says(pairs[i], key, v)
  }

  lemma {:induction false} SaidByMore(pairs: seq<string>, key: string)
    requires pairs != []
    ensures IsSaid(pairs, key) <==> IsSaid(Init(pairs), key) || exists v :: Says(Last(pairs), key, v)
  {
    hide Says;
    var n := |pairs| - 1;
    if IsSaid(pairs, key) {
      var i, v :| 0 <= i < |pairs| && Says(pairs[i], key, v);
      assert i < n ==> Says(Init(pairs)[i], key, v);
      assert i == n ==> Says(Last(pairs), key, v);
    }
    if IsSaid(Init(pairs), key) {
      var i, v :| 0 <= i < n && Says(Init(pairs)[i], key, v);
      assert Says(pairs[i], key, v);
    }
    if exists v :: Says(Last(pairs), key, v) {
      var v :| Says(Last(pairs), key, v);
      assert Says(pairs[n], key, v);
    }
  }

  lemma {:induction false} KeyIsCollected(pairs: seq<string>, key: string)
    requires key != ""
    ensures key in Collect(pairs) <==> IsSaid(pairs, key)
  {
    if pairs != [] {
      KeyIsCollected(Init(pairs), key);
      SaidByMore(pairs, key);
      hide IsSaid, HasPair, Key, Val, Says;
      forall v ensures Says(Last(pairs), key, v) <==> HasPair(Last(pairs)) && Key(Last(pairs)) == key && Val(Last(pairs)) == v {
        SaysExactly(Last(pairs), key, v);
      }
      if HasPair(Last(pairs)) && Key(Last(pairs)) == key {
        assert Says(Last(pairs), key, Val(Last(pairs)));
      }
    }
  }

  /** The parameters are what the parts of the query say, the last one winning. */
  lemma {:induction false} LastPairWins(pairs: seq<string>, key: string)
    requires key != ""
    ensures IsValueOf(pairs, key, Value(Collect(pairs), key))
  {
    KeyIsCollected(pairs, key);
    if key in Collect(pairs) {
      var i := LastSaid(pairs, key);
    }
  }

  lemma {:induction false} LastSaid(pairs: seq<string>, key: string) returns (i: nat)
    requires key in Collect(pairs)
    ensures i < |pairs| && Says(pairs[i], key, Collect(pairs)[key])
    ensures forall j, v :: i < j < |pairs| ==> !Says(pairs[j], key, v)
  {
    hide HasPair, Key, Val, Says;
    var n := |pairs| - 1;
    forall v ensures Says(pairs[n], key, v) <==> HasPair(pairs[n]) && Key(pairs[n]) == key && Val(pairs[n]) == v {
      SaysExactly(pairs[n], key, v);
    }
    if HasPair(pairs[n]) && Key(pairs[n]) == key {
      i := n;
    } else {
      i := LastSaid(Init(pairs), key);
      forall j, v | i < j < |pairs| ensures !Says(pairs[j], key, v) {
        if j < n { assert pairs[j] == Init(pairs)[j]; }
      }
    }
  }

  lemma {:induction false} SaysOne(pair: string, key: string, x: string, y: string)
    requires Says(pair, key, x) && Says(pair, key, y)
    ensures x == y
  {
    SaysExactly(pair, key, x);
    SaysExactly(pair, key, y);
  }

  lemma {:induction false} ValueIsOne(pairs: seq<string>, key: string, v: string, w: string)
    requires IsValueOf(pairs, key, v) && IsValueOf(pairs, key, w)
    ensures v == w
  {
    hide Says;
    if exists i, x :: 0 <= i < |pairs| && Says(pairs[i], key, x) {
      var i :| 0 <= i < |pairs| && Says(pairs[i], key, v) && forall j, x :: i < j < |pairs| ==> !Says(pairs[j], key, x);
      var j :| 0 <= j < |pairs| && Says(pairs[j], key, w) && forall k, x :: j < k < |pairs| ==> !Says(pairs[k], key, x);
      assert i == j;
      SaysOne(pairs[i], key, v, w);
    }
  }

  /** What stands behind the scheme: an optional import segment, then a path and a query, or a query alone. */
  predicate IsLinkBody(rest: string, front: string, path: string, mark: string, query: string) {
    && rest == front + path + mark + query
    && '?' !in path && (mark == "?" || (mark == "" && path == "" && '?' !in query))
    && (front == "import/" || front == "import?" || (front == "" && !("import/" <= rest) && !("import?" <= rest)))
  }

  lemma {:induction false} BodyIsStripped(rest: string, front: string, path: string, mark: string, query: string)
    requires IsLinkBody(rest, front, path, mark, query)
    ensures StripImport(rest) == path + mark + query && QueryBody(StripImport(rest)) == query
  {
    var tail := path + mark + query;
    assert rest == front + tail;
    if front == "" {
      assert rest == tail;
    } else {
      assert |front| == 7 && rest[7..] == tail;
      assert front <= rest;
    }
    if mark == "?" {
      assert tail == path + "?" + query;
      PathIsSkipped(path, query);
    } else {
      assert tail == query;
      assert IndexOf(query, '?') == -1;
    }
  }

  /**
   * Every link of a client scheme, whatever stands behind it: the parts of its query decide. It is malformed
   * without a URL and otherwise gives the last URL and the last name.
   */
  lemma {:induction false} EveryLinkIsRead(scheme: string, rest: string, front: string, path: string, mark: string, query: string,
      url: string, name: string)
    requires IsClientScheme(scheme) && IsLinkBody(rest, front, path, mark, query)
    requires rest != "" && !IsSpace(Last(rest))
    requires IsValueOf(Split(query, '&'), "url", url) && IsValueOf(Split(query, '&'), "name", name)
    ensures Parse(scheme + "://" + rest) == if url == "" then Malformed else Link(url, name)
  {
    var pairs := Split(query, '&');
    BodyIsStripped(rest, front, path, mark, query);
    LastPairWins(pairs, "url");
    LastPairWins(pairs, "name");
    ValueIsOne(pairs, "url", url, Value(Collect(pairs), "url"));
    ValueIsOne(pairs, "name", name, Value(Collect(pairs), "name"));
    hide IsValueOf, Collect, Split, IsLinkBody, StripImport, QueryBody, Value;
    RestIsRead(scheme, rest);
    hide Parse;
    UrlDecides(Collect(pairs), url, name);
  }

  lemma {:induction false} UrlDecides(params: Params, url: string, name: string)
    requires Value(params, "url") == url && Value(params, "name") == name
    ensures Outcome(params) == if url == "" then Malformed else Link(url, name)
  {
  }

  lemma {:induction false} RestIsRead(scheme: string, rest: string)
    requires IsClientScheme(scheme) && rest != "" && !IsSpace(Last(rest))
    ensures Parse(scheme + "://" + rest) == Outcome(Collect(Split(QueryBody(StripImport(rest)), '&')))
  {
    hide Collect, Split, SchemeMatch, IsProtocolLink, IsHttp, StripImport, QueryBody, IsScheme, IsSpace, Trim, Outcome;
    ClientLinkIsTrimmed(scheme, rest);
    ClientSchemeIsNoProtocol(scheme, rest);
    SchemeIsMatched(scheme, rest);
  }

  lemma {:induction false} ClientLinkIsTrimmed(scheme: string, rest: string)
    requires IsClientScheme(scheme) && rest != "" && !IsSpace(Last(rest))
    ensures Trim(scheme + "://" + rest) == scheme + "://" + rest
  {
    var link := scheme + "://" + rest;
    assert link[0] == scheme[0] && Last(link) == Last(rest);
    TrimFixes(link);
  }

  /** A link with a URL and no name. */
  lemma {:induction false} LinkWithoutName(scheme: string, path: string, url: string)
    requires IsClientScheme(scheme) && '?' !in path && StripBom(url) != ""
    ensures Parse(MakeLink(scheme, path, Pair("url", url))) == Link(StripBom(url), "")
  {
    var u := Pair("url", url);
    PairShape("url", url);
    PairIsParsed("url", url);
    hide Pair, HasPair, Key, Val, IsClientScheme, Parse, StripBom;
    LinkIsRead(scheme, path, u);
    assert Split(u, '&') == [u];
    assert Init([u]) == [] && Last([u]) == u;
  }

  /** A letter, then letters, digits, '+', '.' or '-', and "://" at k. */
  predicate IsSchemeUpTo(t: string, k: nat) {
    && 0 < k && k + 3 <= |t| && t[k] == ':' && t[k + 1] == '/' && t[k + 2] == '/'
    && ('A' <= t[0] <= 'Z' || 'a' <= t[0] <= 'z')
    && forall i :: 0 <= i < k ==>
         'A' <= t[i] <= 'Z' || 'a' <= t[i] <= 'z' || '0' <= t[i] <= '9' || t[i] == '+' || t[i] == '.' || t[i] == '-'
  }

  /** What the scheme pattern matches. */
  lemma {:induction false} SchemeExactly(t: string, k: nat)
    ensures IsSchemeUpTo(t, k) ==> SchemeMatch(t) == k + 3
    ensures SchemeMatch(t) == k + 3 ==> IsSchemeUpTo(t, k)
    ensures SchemeMatch(t) == 0 || SchemeMatch(t) > 3
  {
    if IsSchemeUpTo(t, k) {
      var s, rest := t[..k], t[k + 1..];
      assert ':' !in s;
      assert t == s + [':'] + rest;
      IndexOfSplit(s, ':', rest);
      assert forall i :: 0 <= i < |s| ==> IsSchemeChar(s[i]);
      assert t[k..][..3] == "://";
    }
    if SchemeMatch(t) == k + 3 {
      assert t[k..][0] == ':' && t[k..][1] == '/' && t[k..][2] == '/';
      assert forall i :: 0 <= i < k ==> t[i] == t[..k][i] && IsSchemeChar(t[..k][i]);
    }
  }

  /** Text that does not start with a scheme and "://" is no deep link. */
  lemma {:induction false} SchemelessIsIgnored(input: string)
    requires forall k :: !IsSchemeUpTo(Trim(input), k)
    ensures Parse(input).NotADeepLink?
  {
    var t := Trim(input);
    if SchemeMatch(t) > 0 {
      SchemeExactly(t, 0);
      SchemeExactly(t, SchemeMatch(t) - 3);
      assert false;
    }
  }
}
