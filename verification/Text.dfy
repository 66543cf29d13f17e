/** The string operations of the client that the parsers and the log reader share. */
module Text {

  /** QChar::isSpace: ASCII controls 9..13, space, NEL and the Unicode separators. */
  predicate IsSpace(c: char) {
    var u := c as int;
    || u == 0x20 || 0x09 <= u <= 0x0D || u == 0x85 || u == 0xA0 || u == 0x1680
    || 0x2000 <= u <= 0x200A || u == 0x2028 || u == 0x2029 || u == 0x202F || u == 0x205F || u == 0x3000
  }

  /** What `\s` matches in the client's regular expressions: ASCII white space only. */
  predicate IsAsciiSpace(c: char) {
    c as int == 0x20 || 0x09 <= c as int <= 0x0D
  }

  function TrimLeft(s: string): string {
    if s != "" && IsSpace(s[0]) then TrimLeft(s[1..]) else s
  }

  function TrimRight(s: string): string {
    if s != "" && IsSpace(s[|s| - 1]) then TrimRight(s[..|s| - 1]) else s
  }

  function Trim(s: string): string {
    TrimRight(TrimLeft(s))
  }

  predicate IsTrimmed(s: string) {
    s == "" || (!IsSpace(s[0]) && !IsSpace(s[|s| - 1]))
  }

  lemma {:induction false} TrimLeftShape(s: string)
    ensures TrimLeft(s) == "" || !IsSpace(TrimLeft(s)[0])
    ensures forall c :: !IsSpace(c) ==> (c in TrimLeft(s) <==> c in s)
    ensures forall c :: c in TrimLeft(s) ==> c in s
  {
    if s != "" && IsSpace(s[0]) {
      TrimLeftShape(s[1..]);
      assert s == [s[0]] + s[1..];
    }
  }

  lemma {:induction false} TrimRightShape(s: string)
    ensures TrimRight(s) == "" || !IsSpace(TrimRight(s)[|TrimRight(s)| - 1])
    ensures TrimRight(s) <= s
    ensures forall c :: !IsSpace(c) ==> (c in TrimRight(s) <==> c in s)
  {
    if s != "" && IsSpace(s[|s| - 1]) {
      TrimRightShape(s[..|s| - 1]);
      assert s == s[..|s| - 1] + [s[|s| - 1]];
    }
  }

  lemma {:induction false} TrimShape(s: string)
    ensures IsTrimmed(Trim(s))
    ensures forall c :: !IsSpace(c) ==> (c in Trim(s) <==> c in s)
    ensures forall c :: c in Trim(s) ==> c in s
  {
    TrimLeftShape(s);
    TrimRightShape(TrimLeft(s));
  }

  predicate AllSpaces(s: string) {
    forall i :: 0 <= i < |s| ==> IsSpace(s[i])
  }

  lemma {:induction false} TrimLeftCuts(s: string) returns (a: string)
    ensures s == a + TrimLeft(s) && AllSpaces(a)
  {
    if s == "" || !IsSpace(s[0]) {
      a := "";
    } else {
      var rest := TrimLeftCuts(s[1..]);
      a := [s[0]] + rest;
      assert s == [s[0]] + s[1..];
    }
  }

  lemma {:induction false} TrimRightCuts(s: string) returns (b: string)
    ensures s == TrimRight(s) + b && AllSpaces(b)
  {
    if s == "" || !IsSpace(s[|s| - 1]) {
      b := "";
    } else {
      var rest := TrimRightCuts(s[..|s| - 1]);
      b := rest + [s[|s| - 1]];
      assert s == s[..|s| - 1] + [s[|s| - 1]];
    }
  }

  /** Trimming cuts white space off both ends and touches nothing between. */
  lemma {:induction false} TrimCuts(s: string) returns (a: string, b: string)
    ensures s == a + Trim(s) + b && AllSpaces(a) && AllSpaces(b)
  {
    a := TrimLeftCuts(s);
    b := TrimRightCuts(TrimLeft(s));
  }

  lemma {:induction false} TrimFixes(s: string)
    requires IsTrimmed(s)
    ensures Trim(s) == s
  {
  }

  lemma {:induction false} TrimIdempotent(s: string)
    ensures Trim(Trim(s)) == Trim(s)
  {
    TrimShape(s);
    TrimFixes(Trim(s));
  }

  /** QString::indexOf for one character: the first position, or -1. */
  function IndexOf(s: string, c: char): (i: int)
    ensures -1 <= i < |s|
    ensures i >= 0 ==> s[i] == c
    ensures forall j :: 0 <= j < (if i < 0 then |s| else i) ==> s[j] != c
  {
    if s == "" then -1
    else if s[0] == c then 0
    else var r := IndexOf(s[1..], c); if r < 0 then -1 else r + 1
  }

  /** QString::lastIndexOf for one character: the last position, or -1. */
  function LastIndexOf(s: string, c: char): (i: int)
    ensures -1 <= i < |s|
    ensures i >= 0 ==> s[i] == c
    ensures forall j :: i < j < |s| ==> s[j] != c
  {
    if s == "" then -1
    else if s[|s| - 1] == c then |s| - 1
    else LastIndexOf(s[..|s| - 1], c)
  }

  lemma {:induction false} IndexOfSplit(a: string, c: char, b: string)
    requires c !in a
    ensures IndexOf(a + [c] + b, c) == |a|
  {
    var s := a + [c] + b;
    assert s[|a|] == c;
    assert forall j :: 0 <= j < |a| ==> s[j] == a[j];
  }

  lemma {:induction false} LastIndexOfSplit(a: string, c: char, b: string)
    requires c !in b
    ensures LastIndexOf(a + [c] + b, c) == |a|
  {
    var s := a + [c] + b;
    var i := LastIndexOf(s, c);
    assert s[|a|] == c;
    assert s[|a| + 1..] == b;
  }

  /** QString::split on one character, keeping empty parts. */
  function Split(s: string, sep: char): (parts: seq<string>)
    ensures |parts| >= 1
  {
    var i := IndexOf(s, sep);
    if i < 0 then [s] else [s[..i]] + Split(s[i + 1..], sep)
  }

  function Init<T>(s: seq<T>): seq<T>
    requires |s| > 0
  {
    s[..|s| - 1]
  }

  function Last<T>(s: seq<T>): T
    requires |s| > 0
  {
    s[|s| - 1]
  }

  lemma {:induction false} SplitStep(part: string, sep: char, tail: string)
    requires sep !in part
    ensures Split(part + [sep] + tail, sep) == [part] + Split(tail, sep)
  {
    var s := part + [sep] + tail;
    IndexOfSplit(part, sep, tail);
    assert s[..|part|] == part && s[|part| + 1..] == tail;
  }

  /** Splitting a concatenation only re-splits the unterminated last part of the left operand. */
  lemma {:induction false} SplitConcat(a: string, b: string, sep: char)
    ensures Split(a + b, sep) == Init(Split(a, sep)) + Split(Last(Split(a, sep)) + b, sep)
    decreases |a|
  {
    var i := IndexOf(a, sep);
    if i < 0 {
      assert Init([a]) == [] && Last([a]) == a;
      assert [] + Split(a + b, sep) == Split(a + b, sep);
    } else {
      hide *;
      var part, tail := a[..i], a[i + 1..];
      assert a == part + [sep] + tail;
      assert a + b == part + [sep] + (tail + b);
      SplitStep(part, sep, tail);
      SplitStep(part, sep, tail + b);
      SplitConcat(tail, b, sep);
      var t := Split(tail, sep);
      InitLastOfCons(part, t);
      ConsConcat(part, Init(t), Split(Last(t) + b, sep));
    }
  }

  lemma {:induction false} ConsConcat<T>(x: T, s: seq<T>, t: seq<T>)
    ensures [x] + (s + t) == [x] + s + t
  {
  }

  lemma {:induction false} InitLastOfCons<T>(x: T, t: seq<T>)
    requires |t| > 0
    ensures Init([x] + t) == [x] + Init(t) && Last([x] + t) == Last(t)
  {
  }

  /** The last part of a split never contains the separator, so it splits to itself. */
  lemma {:induction false} SplitLast(s: string, sep: char)
    ensures sep !in Last(Split(s, sep))
    ensures Split(Last(Split(s, sep)), sep) == [Last(Split(s, sep))]
  {
    var i := IndexOf(s, sep);
    if i >= 0 {
      SplitLast(s[i + 1..], sep);
      var t := Split(s[i + 1..], sep);
      assert Last([s[..i]] + t) == Last(t);
    }
  }

  /** Qt's case folding, for the only characters that can fold onto ASCII letters. */
  function Fold(c: char): char {
    if 'A' <= c <= 'Z' then (c as int + 32) as char
    else if c as int == 0x017F then 's'
    else if c as int == 0x212A then 'k'
    else c
  }

  function FoldAll(s: string): (r: string)
    ensures |r| == |s|
    ensures forall i :: 0 <= i < |s| ==> r[i] == Fold(s[i])
  {
    seq(|s|, i requires 0 <= i < |s| => Fold(s[i]))
  }

  predicate StartsWithFolded(s: string, prefix: string) {
    |prefix| <= |s| && FoldAll(s[..|prefix|]) == FoldAll(prefix)
  }

  /** True when `pat` occurs somewhere in `s`. */
  predicate Contains(s: string, pat: string) {
    exists i :: 0 <= i <= |s| && pat <= s[i..]
  }

  /** QString::right: the last n characters, or all of them. */
  function Right<T>(s: seq<T>, n: nat): seq<T> {
    if |s| <= n then s else s[|s| - n..]
  }

  lemma {:induction false} RightIsTheEnd<T>(s: seq<T>, n: nat)
    ensures |Right(s, n)| == if |s| < n then |s| else n
    ensures exists front :: s == front + Right(s, n)
  {
    var k := if |s| <= n then 0 else |s| - n;
    assert s == s[..k] + s[k..];
    assert s[0..] == s;
  }

  lemma {:induction false} RightOfConcat<T>(a: seq<T>, b: seq<T>, n: nat)
    ensures Right(Right(a, n) + b, n) == Right(a + b, n)
  {
    if |a| > n {
      var r := a[|a| - n..];
      assert r + b == (a + b)[|a| - n..];
    }
  }

  /** QString::indexOf for a pattern: the first position, or -1. */
  function IndexOfText(s: string, pat: string): (i: int)
    ensures -1 <= i <= |s|
    ensures i >= 0 ==> pat <= s[i..]
  {
    if pat <= s then 0
    else if s == "" then -1
    else var r := IndexOfText(s[1..], pat); if r < 0 then -1 else r + 1
  }

  /** A pattern is found after any text without its first character. */
  lemma {:induction false} IndexOfTextAfter(a: string, pat: string, b: string)
    requires pat != "" && pat[0] !in a
    ensures IndexOfText(a + pat + b, pat) == |a|
  {
    var s := a + pat + b;
    if a == "" {
      assert s == pat + b;
    } else {
      assert s[0] == a[0] && s[1..] == a[1..] + pat + b;
      IndexOfTextAfter(a[1..], pat, b);
    }
  }

  /** There is no earlier occurrence, and none at all when none is found. */
  lemma {:induction false} IndexOfTextIsFirst(s: string, pat: string, j: nat)
    requires pat != "" && j <= |s| && pat <= s[j..]
    ensures 0 <= IndexOfText(s, pat) <= j
  {
    if !(pat <= s) {
      assert s[1..][j - 1..] == s[j..];
      IndexOfTextIsFirst(s[1..], pat, j - 1);
    }
  }

  /** Lines glued with a separator. */
  function Join(parts: seq<string>, sep: char): string
    requires parts != []
  {
    if |parts| == 1 then parts[0] else parts[0] + [sep] + Join(parts[1..], sep)
  }

  lemma {:induction false} SplitOfJoin(parts: seq<string>, sep: char)
    requires parts != [] && forall i :: 0 <= i < |parts| ==> sep !in parts[i]
    ensures Split(Join(parts, sep), sep) == parts
  {
    if |parts| == 1 {
      assert parts == [parts[0]];
    } else {
      hide Split;
      SplitStep(parts[0], sep, Join(parts[1..], sep));
      SplitOfJoin(parts[1..], sep);
      assert parts == [parts[0]] + parts[1..];
    }
  }
}
