/**
 Event-stream framing: what the server writes for one event, how the client cuts the stream it
 receives into blocks, and how it reads an id and a data field from a block. The format is the one
 of the WHATWG HTML Living Standard, sections 9.2.5 and 9.2.6.
 */
module SseFraming {

  import opened Prelude
  import opened TextSplit
  import opened Whitespace

  // ---------------------------------------------------------------- patterns

  /** `/\r?\n/` */
  function LineBreak(s: string, i: nat): (n: nat)
  {
    if i < |s| && s[i] == '\n' then 1
    else if i + 1 < |s| && s[i] == '\r' && s[i + 1] == '\n' then 2
    else 0
  }

  /** `/\r?\n\r?\n/` */
  function BlankLine(s: string, i: nat): (n: nat)
  {
    var first := LineBreak(s, i);
    var second := LineBreak(s, i + first);
    if first == 0 || second == 0 then 0 else first + second
  }

  lemma PatternsAreLawful()
    ensures Lawful(LineBreak) && Lawful(BlankLine)
  {
    forall a: string, b: string, k: nat, j: nat | k <= j && LineBreak(a, j) > 0
      ensures LineBreak(a + b, k) == LineBreak(a, k)
    {
      assert forall x :: 0 <= x < |a| ==> (a + b)[x] == a[x];
    }
    forall a: string, b: string, k: nat, j: nat | k <= j && BlankLine(a, j) > 0
      ensures BlankLine(a + b, k) == BlankLine(a, k)
    {
      assert forall x :: 0 <= x < |a| ==> (a + b)[x] == a[x];
    }
  }

  // ---------------------------------------------------------------- one block

  predicate StartsWith(s: string, prefix: string)
  {
    |prefix| <= |s| && s[..|prefix|] == prefix
  }

  function Lines(block: string): seq<string>
  {
    var cut := Split(LineBreak, block);
    cut.parts + [cut.rest]
  }

  datatype Fields = Fields(id: Option<string>, dataLines: seq<string>)

  function ReadLine(fields: Fields, rawLine: string): Fields
  {
    var line := TrimEnd(rawLine);
    if line == "" || line[0] == ':' then fields
    else if StartsWith(line, "id:") then fields.(id := Some(Trim(line[3..])))
    else if StartsWith(line, "data:") then fields.(dataLines := fields.dataLines + [Trim(line[5..])])
    else fields
  }

  function ReadLines(lines: seq<string>): Fields
  {
    if lines == [] then Fields(None, [])
    else ReadLine(ReadLines(lines[..|lines| - 1]), lines[|lines| - 1])
  }

  function JoinLines(lines: seq<string>): string
  {
    if lines == [] then ""
    else if |lines| == 1 then lines[0]
    else lines[0] + "\n" + JoinLines(lines[1..])
  }

  datatype Block = Block(id: Option<string>, data: Option<string>)

  function ParsedBlock(block: string): Block
  {
    var fields := ReadLines(Lines(block));
    Block(fields.id, if fields.dataLines == [] then None else Some(JoinLines(fields.dataLines)))
  }

  method ParseSseBlock(block: string) returns (parsed: Block)
    ensures parsed == ParsedBlock(block)
  {
    var id: Option<string> := None;
    var dataLines: seq<string> := [];
    var lines := Lines(block);
    for i := 0 to |lines|
      invariant ReadLines(lines[..i]) == Fields(id, dataLines)
    {
      assert lines[..i + 1][..i] == lines[..i];
      var line := TrimEnd(lines[i]);
      if line == "" || line[0] == ':' { continue; }
      if StartsWith(line, "id:") {
        id := Some(Trim(line[3..]));
      } else if StartsWith(line, "data:") {
        dataLines := dataLines + [Trim(line[5..])];
      }
    }
    assert lines[..|lines|] == lines;
    parsed := Block(id, if dataLines == [] then None else Some(JoinLines(dataLines)));
  }

  // ---------------------------------------------------------------- one frame

  /** What one event puts on the wire: its cursor and its JSON text. */
  datatype Frame = Frame(id: string, data: string)

  function FrameLines(f: Frame): seq<string>
  {
    ["id: " + f.id, "event: jea.client", "data: " + f.data]
  }

  function FormatFrame(f: Frame): string
  {
    "id: " + f.id + "\nevent: jea.client\ndata: " + f.data + "\n\n"
  }

  /** Decimal digits and JSON text are such strings. */
  predicate Plain(s: string)
  {
    s != "" && !IsSpace(s[0]) && !IsSpace(s[|s| - 1]) && '\n' !in s
  }

  predicate PlainFrame(f: Frame)
  {
    Plain(f.id) && Plain(f.data)
  }

  lemma FrameIsJoinedLines(f: Frame)
    ensures FormatFrame(f) == JoinLines(FrameLines(f)) + "\n\n"
  {
    var ls := FrameLines(f);
    assert ls[1..] == ["event: jea.client", "data: " + f.data];
    assert ls[1..][1..] == ["data: " + f.data];
    assert JoinLines(ls[1..]) == ls[1] + "\n" + JoinLines(ls[1..][1..]);
  }

  /** A line that starts and ends with a visible character: no break falls into it or at its end. */
  lemma PlainHasNoBreak(line: string, rest: string, k: nat)
    requires Plain(line) && k < |line|
    ensures LineBreak(line + rest, k) == 0
  {
    var s := line + rest;
    assert s[k] == line[k];
    if s[k] == '\r' && k + 1 < |s| {
      assert k != |line| - 1;
      assert s[k + 1] == line[k + 1];
    }
  }

  lemma PlainStartsVisibly(line: string)
    requires Plain(line)
    ensures line != "" && line[0] != '\n' && line[0] != '\r'
  {
  }

  lemma LinesOfOne(line: string)
    requires Plain(line)
    ensures Lines(line) == [line]
  {
    forall k | 0 <= k < |line| ensures LineBreak(line, k) == 0 {
      PlainHasNoBreak(line, "", k);
      assert line + "" == line;
    }
    FindIs(LineBreak, line, 0, |line|);
  }

  lemma LinesOfMore(line: string, tail: string)
    requires Plain(line)
    ensures Lines(line + ("\n" + tail)) == [line] + Lines(tail)
  {
    var s, n := line + ("\n" + tail), |line|;
    forall k | 0 <= k < n ensures LineBreak(s, k) == 0 {
      PlainHasNoBreak(line, "\n" + tail, k);
    }
    assert LineBreak(s, n) == 1;
    FindIs(LineBreak, s, 0, n);
    assert s[n + 1..] == tail && s[..n] == line;
    SplitHead(LineBreak, s, n, 1, tail);
  }

  lemma {:induction false} LinesOfJoined(ls: seq<string>)
    requires ls != [] && forall l | l in ls :: Plain(l)
    ensures Lines(JoinLines(ls)) == ls
  {
    hide Plain, Lines;
    assert ls[0] in ls;
    if |ls| == 1 {
      LinesOfOne(ls[0]);
    } else {
      var tail := JoinLines(ls[1..]);
      assert JoinLines(ls) == ls[0] + ("\n" + tail);
      LinesOfMore(ls[0], tail);
      LinesOfJoined(ls[1..]);
      assert ls == [ls[0]] + ls[1..];
    }
  }

  // Behind lines that are not blank, the first blank line is the one that ends them.

  lemma NoBlankLineInLine(line: string, tail: string, k: nat)
    requires Plain(line) && k < |line|
    ensures BlankLine(line + tail, k) == 0
  {
    PlainHasNoBreak(line, tail, k);
  }

  lemma NoBlankLineAfterLine(line: string, tail: string)
    requires tail != "" && tail[0] != '\n' && tail[0] != '\r'
    ensures BlankLine(line + ("\n" + tail), |line|) == 0
  {
    var s := line + ("\n" + tail);
    assert s[|line|] == '\n' && s[|line| + 1] == tail[0];
  }

  lemma NoBlankLineBehindLine(line: string, tail: string, k: nat)
    requires BlankLine(tail, k) == 0
    ensures BlankLine(line + ("\n" + tail), |line| + 1 + k) == 0
  {
    var s := line + ("\n" + tail);
    assert s[|line| + 1..] == tail;
    ShiftedBlankLine(s, |line| + 1, k);
  }

  lemma {:induction false} NoBlankLineInside(ls: seq<string>, rest: string, k: nat)
    requires ls != [] && forall l | l in ls :: Plain(l)
    requires k < |JoinLines(ls)|
    ensures BlankLine(JoinLines(ls) + ("\n\n" + rest), k) == 0
  {
    hide Plain, BlankLine;
    var end := "\n\n" + rest;
    var n := |ls[0]|;
    if |ls| == 1 {
      NoBlankLineInLine(ls[0], end, k);
    } else {
      var tail := JoinLines(ls[1..]) + end;
      assert JoinLines(ls) + end == ls[0] + ("\n" + tail);
      if k < n {
        NoBlankLineInLine(ls[0], "\n" + tail, k);
      } else if k == n {
        assert ls[1] in ls;
        PlainStartsVisibly(ls[1]);
        FirstCharacter(ls[1..]);
        NoBlankLineAfterLine(ls[0], tail);
      } else {
        NoBlankLineInside(ls[1..], rest, k - n - 1);
        NoBlankLineBehindLine(ls[0], tail, k - n - 1);
      }
    }
  }

  lemma FirstCharacter(ls: seq<string>)
    requires ls != [] && ls[0] != ""
    ensures JoinLines(ls) != "" && JoinLines(ls)[0] == ls[0][0]
  {
  }

  lemma ShiftedBlankLine(s: string, n: nat, k: nat)
    requires n <= |s|
    ensures BlankLine(s[n..], k) == BlankLine(s, n + k)
  {
    assert forall x :: 0 <= x < |s| - n ==> s[n..][x] == s[n + x];
  }

  function RecordOf(f: Frame): Record
  {
    Record(JoinLines(FrameLines(f)), "\n\n")
  }

  lemma FramesAreFramed(f: Frame)
    requires PlainFrame(f)
    ensures RecordOf(f).Text() == FormatFrame(f)
    ensures Framed(BlankLine, RecordOf(f))
  {
    FrameIsJoinedLines(f);
    var r := RecordOf(f);
    forall rest: string
      ensures Find(BlankLine, r.Text() + rest, 0) == |r.body|
      ensures BlankLine(r.Text() + rest, |r.body|) == 2
    {
      var s := r.Text() + rest;
      assert s == r.body + ("\n\n" + rest);
      forall k | 0 <= k < |r.body| ensures BlankLine(s, k) == 0 {
        NoBlankLineInside(FrameLines(f), rest, k);
      }
      FindIs(BlankLine, s, 0, |r.body|);
    }
  }

  // ---------------------------------------------------------------- the round trip

  lemma {:induction false} TrimEndPlain(s: string)
    requires s != "" && !IsSpace(s[|s| - 1])
    ensures TrimEnd(s) == s
  {
  }

  lemma TrimField(value: string)
    requires Plain(value)
    ensures Trim(" " + value) == value
  {
    assert (" " + value)[1..] == value;
    assert TrimStart(" " + value) == TrimStart(value);
  }

  lemma ReadIdLine(fields: Fields, value: string)
    requires Plain(value)
    ensures ReadLine(fields, "id: " + value) == fields.(id := Some(value))
  {
    var line := "id: " + value;
    TrimEndPlain(line);
    assert line[..3] == "id:" && line[3..] == " " + value;
    TrimField(value);
  }

  lemma ReadDataLine(fields: Fields, value: string)
    requires Plain(value)
    ensures ReadLine(fields, "data: " + value) == fields.(dataLines := fields.dataLines + [value])
  {
    var line := "data: " + value;
    TrimEndPlain(line);
    assert line[..5] == "data:" && line[5..] == " " + value;
    assert line[0] == 'd';
    TrimField(value);
  }

  lemma ReadEventLine(fields: Fields)
    ensures ReadLine(fields, "event: jea.client") == fields
  {
    var line := "event: jea.client";
    TrimEndPlain(line);
    assert line[0] == 'e';
  }

  /** The client reads from a frame's block what the server wrote into it. */
  lemma BlockReadsBack(f: Frame)
    requires PlainFrame(f)
    ensures ParsedBlock(RecordOf(f).body) == Block(Some(f.id), Some(f.data))
  {
    var ls := FrameLines(f);
    LinesOfJoined(ls);
    assert ls[..2] == ["id: " + f.id, "event: jea.client"];
    assert ls[..2][..1] == ["id: " + f.id];
    ReadIdLine(ReadLines([]), f.id);
    ReadEventLine(ReadLines(ls[..2][..1]));
    ReadDataLine(ReadLines(ls[..2]), f.data);
  }

  function Records(frames: seq<Frame>): (rs: seq<Record>)
    ensures |rs| == |frames| && forall i :: 0 <= i < |frames| ==> rs[i] == RecordOf(frames[i])
  {
    seq(|frames|, i requires 0 <= i < |frames| => RecordOf(frames[i]))
  }

  /** Everything written to one connection. */
  function Wire(frames: seq<Frame>): string
  {
    if frames == [] then "" else FormatFrame(frames[0]) + Wire(frames[1..])
  }

  lemma {:induction false} WireIsStream(frames: seq<Frame>)
    requires forall f | f in frames :: PlainFrame(f)
    ensures Wire(frames) == Stream(Records(frames))
  {
    if frames != [] {
      FramesAreFramed(frames[0]);
      WireIsStream(frames[1..]);
      assert Records(frames)[1..] == Records(frames[1..]);
    }
  }

  /**
   The whole reader: however the frames' text is cut into chunks, and wherever it stops, the client
   has one block for each frame that arrived whole, in order, each block reads back as the id and
   the data the server formatted, and the buffer holds a part of the next frame only.
   */
  lemma StreamReadsBack(frames: seq<Frame>, chunks: seq<string>, lost: string)
    requires forall f | f in frames :: PlainFrame(f)
    requires Concat(chunks) + lost == Wire(frames)
    ensures var got := FeedAll(BlankLine, chunks);
            var k := |got.parts|;
            && k <= |frames|
            && (forall i | 0 <= i < k ::
                  ParsedBlock(got.parts[i]) == Block(Some(frames[i].id), Some(frames[i].data)))
            && got.rest + lost == Wire(frames[k..])
            && (k < |frames| ==> |got.rest| < |FormatFrame(frames[k])|)
  {
    var rs := Records(frames);
    var got := FeedAll(BlankLine, chunks);
    PatternsAreLawful();
    WireIsStream(frames);
    forall i | 0 <= i < |frames|
      ensures Framed(BlankLine, rs[i]) && rs[i].Text() == FormatFrame(frames[i])
      ensures ParsedBlock(rs[i].body) == Block(Some(frames[i].id), Some(frames[i].data))
    {
      FramesAreFramed(frames[i]);
      BlockReadsBack(frames[i]);
    }
    ChunksReadBack(BlankLine, rs, chunks, lost);
    var k := Whole(rs, |Concat(chunks)|);
    WireIsStream(frames[k..]);
    assert Records(frames[k..]) == rs[k..];
  }
}
