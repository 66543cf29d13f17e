/** The engine log viewer: incremental tailing of a growing file into a bounded list. */
module LogTail {
  import opened Text
  import opened Utf8
  import opened Base64

  const MAX_ENTRIES := 500
  const TAIL_BYTES := 256 * 1024

  /** Lines as rows: trimmed, blank ones dropped. */
  function Entries(lines: seq<string>): seq<string> {
    if lines == [] then []
    else
      var before, t := Entries(Init(lines)), Trim(Last(lines));
      if t == "" then before else before + [t]
  }

  /** The rows of the complete lines of a text, and what follows its last line break. */
  function CompleteRows(text: string): seq<string> {
    Entries(Init(Split(text, '\n')))
  }

  function Unfinished(text: string): string {
    Last(Split(text, '\n'))
  }

  lemma {:induction false} EntriesConcat(a: seq<string>, b: seq<string>)
    ensures Entries(a + b) == Entries(a) + Entries(b)
    decreases |b|
  {
    hide Trim;
    if b == [] {
      assert a + b == a;
    } else {
      EntriesConcat(a, Init(b));
      assert Init(a + b) == a + Init(b);
      assert Last(a + b) == Last(b);
    }
  }

  /** The rows that a further piece of text completes. */
  function FreshRows(unfinished: string, piece: string): seq<string> {
    CompleteRows(unfinished + piece)
  }

  lemma {:induction false} InitOfConcat<T>(a: seq<T>, b: seq<T>)
    requires |b| > 0
    ensures Init(a + b) == a + Init(b) && Last(a + b) == Last(b)
  {
  }

  /** Reading a further piece after a text is reading both at once. */
  lemma {:induction false} RowsOfConcat(text: string, piece: string)
    ensures CompleteRows(text + piece) == CompleteRows(text) + FreshRows(Unfinished(text), piece)
    ensures Unfinished(text + piece) == Unfinished(Unfinished(text) + piece)
  {
    hide Split, Entries, Init, Last;
    SplitConcat(text, piece, '\n');
    var a := Init(Split(text, '\n'));
    var b := Split(Unfinished(text) + piece, '\n');
    InitOfConcat(a, b);
    EntriesConcat(a, Init(b));
  }

  lemma {:induction false} NothingRead()
    ensures CompleteRows("") == [] && Unfinished("") == ""
  {
    assert Split("", '\n') == [""];
    assert Init([""]) == [];
  }

  lemma {:induction false} RightEmpty(rows: seq<string>)
    ensures Right(rows, MAX_ENTRIES) == [] <==> rows == []
  {
  }

  /** What the viewer has taken in: all rows since the list was last emptied, the unfinished line, the position. */
  datatype Progress = Progress(rows: seq<string>, unfinished: string, position: nat)

  const NOTHING := Progress([], "", 0)

  /** The log file at the time of a poll. */
  datatype LogFile = Missing | Unreadable(size: nat) | Readable(bytes: seq<Byte>)

  function Size(f: LogFile): nat
    requires !f.Missing?
  {
    if f.Unreadable? then f.size else |f.bytes|
  }

  /** A file that shrank was rotated: start over. */
  function Rewound(p: Progress, f: LogFile): Progress
    requires !f.Missing?
  {
    if Size(f) < p.position then NOTHING else p
  }

  predicate HasNews(p: Progress, f: LogFile) {
    f.Readable? && |f.bytes| != Rewound(p, f).position
  }

  predicate SkipsAhead(p: Progress, f: LogFile)
    requires HasNews(p, f)
  {
    |f.bytes| - Rewound(p, f).position > TAIL_BYTES
  }

  /** The unfinished line that the new chunk continues; skipping ahead forgets it. */
  function Continued(p: Progress, f: LogFile): string
    requires HasNews(p, f)
  {
    if SkipsAhead(p, f) then "" else Rewound(p, f).unfinished
  }

  function Chunk(p: Progress, f: LogFile): string
    requires HasNews(p, f)
  {
    FromUtf8(f.bytes[if SkipsAhead(p, f) then |f.bytes| - TAIL_BYTES else Rewound(p, f).position..])
  }

  function NewRows(p: Progress, f: LogFile): seq<string>
    requires HasNews(p, f)
  {
    FreshRows(Continued(p, f), Chunk(p, f))
  }

  function AfterPoll(p: Progress, f: LogFile): Progress {
    if f.Missing? then
      if p.position != 0 || p.rows != [] then NOTHING else p
    else if !HasNews(p, f) then Rewound(p, f)
    else Progress(Rewound(p, f).rows + NewRows(p, f), Unfinished(Continued(p, f) + Chunk(p, f)), |f.bytes|)
  }

  /** Whether the rows of one poll fit the list: more than 500 at once overrun it. */
  predicate Fits(p: Progress, f: LogFile) {
    HasNews(p, f) ==> |NewRows(p, f)| <= MAX_ENTRIES
  }

  /** The file as it grows: one piece of text is appended before each poll. */
  function Written(pieces: seq<string>): string {
    if pieces == [] then "" else Written(Init(pieces)) + Last(pieces)
  }

  /** What the viewer decodes: each chunk on its own, so each loses a leading byte order mark. */
  function Decoded(pieces: seq<string>): string {
    if pieces == [] then "" else Decoded(Init(pieces)) + StripBom(Last(pieces))
  }

  /** The progress after polling once per appended piece, from a fresh start. */
  function Tailed(pieces: seq<string>): Progress {
    if pieces == [] then NOTHING
    else AfterPoll(Tailed(Init(pieces)), Readable(Encode(Written(pieces))))
  }

  /** What one poll over the whole decoded text gives. */
  function Batch(text: string, position: nat): Progress {
    Progress(CompleteRows(text), Unfinished(text), position)
  }

  lemma {:induction false} EncodeEmpty(s: string)
    ensures Encode(s) == [] <==> s == ""
  {
  }

  lemma {:induction false} PollTakesPiece(text: string, file: string, piece: string)
    requires |Encode(piece)| <= TAIL_BYTES
    ensures AfterPoll(Batch(text, |Encode(file)|), Readable(Encode(file + piece)))
         == Batch(text + StripBom(piece), |Encode(file + piece)|)
  {
    hide Encode, FromUtf8, CompleteRows, Unfinished;
    EncodeConcat(file, piece);
    EncodeEmpty(piece);
    Utf8.RoundTrip(piece);
    RowsOfConcat(text, StripBom(piece));
    var bytes := Encode(file + piece);
    assert bytes[|Encode(file)|..] == Encode(piece);
    if piece == "" {
      assert text + StripBom(piece) == text;
    }
  }

  /**
   * Incremental tailing equals one batch parse: however an append-only file is cut into polls, at
   * character boundaries and at most 256 KiB apart, the rows are the complete lines of the text and the
   * unfinished line is its rest.
   */
  lemma {:induction false} TailingEqualsBatch(pieces: seq<string>)
    requires forall i :: 0 <= i < |pieces| ==> |Encode(pieces[i])| <= TAIL_BYTES
    ensures Tailed(pieces) == Batch(Decoded(pieces), |Encode(Written(pieces))|)
  {
    hide Encode, AfterPoll, CompleteRows, Unfinished;
    if pieces == [] {
      NothingRead();
      EncodeEmpty("");
    } else {
      var before := Init(pieces);
      TailingEqualsBatch(before);
      PollTakesPiece(Decoded(before), Written(before), Last(pieces));
    }
  }

  /** Without a byte order mark at a cut, the decoded text is the written one. */
  lemma {:induction false} DecodedIsWritten(pieces: seq<string>)
    requires forall i :: 0 <= i < |pieces| ==> !HasBom(pieces[i])
    ensures Decoded(pieces) == Written(pieces)
  {
    if pieces != [] {
      DecodedIsWritten(Init(pieces));
    }
  }

  function ShortLines(n: nat): string {
    if n == 0 then "" else ShortLines(n - 1) + "x\n"
  }

  lemma {:induction false} OneShortLine()
    ensures CompleteRows("x\n") == ["x"] && Unfinished("x\n") == ""
  {
    assert "x\n" == "x" + ['\n'] + "";
    SplitStep("x", '\n', "");
    assert Split("", '\n') == [""];
    var parts := ["x", ""];
    assert ["x"] + [""] == parts;
    assert Init(parts) == ["x"] && Init(["x"]) == [] && Last(parts) == "";
    TrimFixes("x");
    assert Entries([]) + ["x"] == ["x"];
  }

  lemma {:induction false} ShortLinesRows(n: nat)
    ensures |CompleteRows(ShortLines(n))| == n && Unfinished(ShortLines(n)) == ""
    ensures |Encode(ShortLines(n))| == 2 * n && !HasBom(ShortLines(n))
  {
    hide CompleteRows, Unfinished;
    if n == 0 {
      NothingRead();
    } else {
      ShortLinesRows(n - 1);
      OneShortLine();
      var t := ShortLines(n - 1);
      RowsOfConcat(t, "x\n");
      assert "" + "x\n" == "x\n";
      EncodeConcat(t, "x\n");
      EncodeAscii("x\n");
    }
  }

  /** The first poll of a log of n one-character lines overruns the list exactly from 501 lines on. */
  lemma {:induction false} FirstPollOverruns(n: nat)
    requires 2 * n <= 262144
    ensures Fits(NOTHING, Readable(Encode(ShortLines(n)))) <==> n <= 500
  {
    var t := ShortLines(n);
    ShortLinesRows(n);
    Utf8.RoundTrip(t);
    hide ShortLines, Encode, FromUtf8, CompleteRows;
    assert Encode(t)[0..] == Encode(t);
    assert "" + t == t;
  }

  /** The rows of some lines, and where they come from: every line that is not blank gives one, trimmed, in order. */
  predicate AreRowsOf(rows: seq<string>, from: seq<nat>, lines: seq<string>) {
    && |from| == |rows|
    && (forall j, k :: 0 <= j < k < |from| ==> from[j] < from[k])
    && (forall j :: 0 <= j < |from| ==> from[j] < |lines| && rows[j] == Trim(lines[from[j]]) && rows[j] != "")
    && (forall i :: 0 <= i < |lines| && Trim(lines[i]) != "" ==> i in from)
  }

  lemma {:induction false} EntriesExactly(lines: seq<string>) returns (from: seq<nat>)
    ensures AreRowsOf(Entries(lines), from, lines)
  {
    hide Trim;
    from := [];
    if lines != [] {
      var n := |lines| - 1;
      var before := EntriesExactly(Init(lines));
      from := before + if Trim(lines[n]) != "" then [n] else [];
      OneMoreLine(Entries(Init(lines)), before, lines);
    }
  }

  lemma {:induction false} OneMoreLine(rows: seq<string>, from: seq<nat>, lines: seq<string>)
    requires lines != [] && AreRowsOf(rows, from, Init(lines))
    ensures var n := |lines| - 1; var t := Trim(lines[n]);
            if t != "" then AreRowsOf(rows + [t], from + [n], lines) else AreRowsOf(rows, from, lines) && from + [] == from
  {
    hide Trim;
    var n := |lines| - 1;
    assert forall i :: 0 <= i < n ==> Init(lines)[i] == lines[i];
    forall i | 0 <= i < n && Trim(lines[i]) != "" ensures i in from {
      assert Trim(Init(lines)[i]) != "";
    }
    assert (from + [n])[|from|] == n;
  }

  /** The rows of a text are those of its complete lines; what follows the last line break is kept back. */
  lemma {:induction false} RowsOfLines(lines: seq<string>, rest: string) returns (from: seq<nat>)
    requires (forall i :: 0 <= i < |lines| ==> '\n' !in lines[i]) && '\n' !in rest
    ensures var text := Join(lines + [rest], '\n');
            AreRowsOf(CompleteRows(text), from, lines) && Unfinished(text) == rest
  {
    var all := lines + [rest];
    SplitOfJoin(all, '\n');
    assert Init(all) == lines && Last(all) == rest;
    hide Join, Split;
    from := EntriesExactly(lines);
  }

  /** A file that shrank was rotated: whatever was shown before, it is read as by a new viewer. */
  lemma {:induction false} RotatedFileIsRead(p: Progress, f: LogFile)
    requires f.Readable? && |f.bytes| < p.position
    ensures AfterPoll(p, f) == AfterPoll(NOTHING, f) && (Fits(p, f) <==> Fits(NOTHING, f))
    ensures |f.bytes| <= 262144 ==> AfterPoll(p, f) == Batch(FromUtf8(f.bytes), |f.bytes|)
  {
    hide FromUtf8, CompleteRows, Unfinished;
    NothingRead();
    assert f.bytes[0..] == f.bytes;
    NothingDecodes();
    assert "" + FromUtf8(f.bytes) == FromUtf8(f.bytes);
  }

  lemma {:induction false} NothingDecodes()
    ensures FromUtf8([]) == ""
  {
  }

  /** What was appended is read behind the unfinished line; nothing new changes nothing. */
  lemma {:induction false} AppendedBytesAreRead(p: Progress, f: LogFile)
    requires f.Readable? && p.position <= |f.bytes| <= p.position + 262144
    ensures |f.bytes| == p.position ==> AfterPoll(p, f) == p
    ensures |f.bytes| > p.position ==>
      var text := p.unfinished + FromUtf8(f.bytes[p.position..]);
      AfterPoll(p, f) == Progress(p.rows + CompleteRows(text), Unfinished(text), |f.bytes|)
  {
    hide FromUtf8, CompleteRows, Unfinished;
  }

  /** More than 256 KiB at once: only the last 256 KiB are read, and the unfinished line is forgotten. */
  lemma {:induction false} LongAppendsAreSkipped(p: Progress, f: LogFile)
    requires f.Readable? && |f.bytes| > p.position + 262144
    ensures var text := FromUtf8(f.bytes[|f.bytes| - 262144..]);
            AfterPoll(p, f) == Progress(p.rows + CompleteRows(text), Unfinished(text), |f.bytes|)
  {
    hide FromUtf8, CompleteRows, Unfinished;
    var text := FromUtf8(f.bytes[|f.bytes| - 262144..]);
    assert "" + text == text;
  }

  /** Without a file there is nothing to show; one that cannot be read changes nothing unless it shrank. */
  lemma {:induction false} NoFileNoRows(p: Progress, size: nat)
    ensures AfterPoll(p, Missing).rows == [] && AfterPoll(p, Missing).position == 0
    ensures AfterPoll(p, Unreadable(size)) == if size < p.position then NOTHING else p
  {
  }

  class LogsModel {
    var paused: bool
    var logs: seq<string>
    var readPosition: nat
    var partialLine: string
    /** Every row taken in since the list was last emptied. */
    ghost var rows: seq<string>

    ghost predicate Valid()
      reads this
    {
      logs == Right(rows, MAX_ENTRIES)
    }

    ghost function State(): Progress
      reads this
    {
      Progress(rows, partialLine, readPosition)
    }

    constructor ()
      ensures Valid() && State() == NOTHING && !paused
    {
      paused, logs, readPosition, partialLine, rows := false, [], 0, "", [];
    }

    /** Emptying the list keeps the unfinished line, so its rest still joins it. */
    method ClearLogs()
      requires Valid()
      modifies this`logs, this`rows
      ensures Valid() && logs == [] && State() == old(State()).(rows := [])
    {
      logs, rows := [], [];
    }

    /**
     * Appends the rows of `lines`. `inRange` is false when the list is asked to drop more rows than it
     * has, which the container does not define; nothing is promised then.
     */
    method AppendLines(lines: seq<string>) returns (inRange: bool)
      requires Valid()
      modifies this`logs, this`rows
      ensures inRange <==> |Entries(lines)| <= MAX_ENTRIES
      ensures inRange ==> Valid() && rows == old(rows) + Entries(lines)
    {
      hide Trim;
      var added: seq<string> := [];
      for i := 0 to |lines|
        invariant added == Entries(lines[..i])
      {
        assert Init(lines[..i + 1]) == lines[..i] && Last(lines[..i + 1]) == lines[i];
        var line := Trim(lines[i]);
        if line != "" {
          added := added + [line];
        }
      }
      assert lines[..|lines|] == lines;
      if added == [] {
        assert rows + [] == rows;
        return true;
      }
      RightOfConcat(rows, added, MAX_ENTRIES);
      var overflow := |logs| + |added| - MAX_ENTRIES;
      if overflow > 0 {
        if overflow > |logs| {
          return false;
        }
        assert (logs + added)[overflow..] == logs[overflow..] + added;
        logs := logs[overflow..];
      }
      logs := logs + added;
      rows := rows + added;
      return true;
    }

    method Poll(file: LogFile) returns (inRange: bool)
      requires Valid()
      modifies this`logs, this`rows, this`readPosition, this`partialLine
      ensures inRange <==> paused || Fits(old(State()), file)
      ensures inRange ==> Valid()
      ensures inRange ==> State() == if paused then old(State()) else AfterPoll(old(State()), file)
    {
      hide Split, Entries, FromUtf8, Right;
      if paused {
        return true;
      }
      if file.Missing? {
        RightEmpty(rows);
        if readPosition != 0 || logs != [] {
          readPosition, partialLine := 0, "";
          ClearLogs();
        }
        return true;
      }
      var size := Size(file);
      if size < readPosition {
        readPosition, partialLine := 0, "";
        ClearLogs();
      }
      if size == readPosition || file.Unreadable? {
        return true;
      }
      var from := readPosition;
      if size - from > TAIL_BYTES {
        from := size - TAIL_BYTES;
        partialLine := "";
      }
      var chunk := FromUtf8(file.bytes[from..]);
      readPosition := size;
      var lines := Split(partialLine + chunk, '\n');
      // The last part is the unfinished line; it is empty when the text ends in a line break.
      partialLine := Last(lines);
      inRange := AppendLines(Init(lines));
    }
  }

  /** The log after its first n pieces were written. */
  function FileAfter(pieces: seq<string>, n: nat): LogFile
    requires n <= |pieces|
  {
    Readable(Encode(Written(pieces[..n])))
  }

  predicate AllFit(pieces: seq<string>, n: nat)
    requires n <= |pieces|
  {
    forall i :: 0 <= i < n ==> Fits(Tailed(pieces[..i]), FileAfter(pieces, i + 1))
  }

  /**
   * The viewer over a whole run: one poll after each appended piece, cut between characters and at most 256 KiB
   * apart. Exactly when no poll meets more than 500 fresh rows it stays in range, and then it shows the last
   * 500 rows of the text and keeps its unfinished line.
   */
  method Watch(pieces: seq<string>) returns (model: LogsModel, inRange: bool)
    requires forall i :: 0 <= i < |pieces| ==> |Encode(pieces[i])| <= TAIL_BYTES
    ensures fresh(model)
    ensures inRange <==> AllFit(pieces, |pieces|)
    ensures inRange ==>
      && model.logs == Right(CompleteRows(Decoded(pieces)), 500)
      && model.partialLine == Unfinished(Decoded(pieces))
      && model.readPosition == |Encode(Written(pieces))|
  {
    hide Fits, AfterPoll, Encode, CompleteRows, Unfinished, Right;
    model := new LogsModel();
    assert pieces[..0] == [];
    for n := 0 to |pieces|
      invariant fresh(model) && model.Valid() && !model.paused
      invariant model.State() == Tailed(pieces[..n]) && AllFit(pieces, n)
    {
      assert Init(pieces[..n + 1]) == pieces[..n];
      inRange := model.Poll(Readable(Encode(Written(pieces[..n + 1]))));
      if !inRange {
        return;
      }
    }
    inRange := true;
    assert pieces[..|pieces|] == pieces;
    TailingEqualsBatch(pieces);
  }
}
