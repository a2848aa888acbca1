/** Reading back what was written, however the byte stream is cut into chunks. */
module FramingTheorems {
  import opened Common
  import opened Framing

  function Concat(chunks: seq<string>): string {
    if chunks == [] then "" else chunks[0] + Concat(chunks[1..])
  }

  // ---------------------------------------------------------------------------------------
  // Round trip
  // ---------------------------------------------------------------------------------------

  ghost predicate Sendable(ms: seq<Message>, texts: seq<string>) {
    Encodes(texts, ms) && forall m :: m in ms ==> Clean(m.name)
  }

  lemma {:induction false} SendableTail(ms: seq<Message>, texts: seq<string>)
    requires Sendable(ms, texts) && ms != []
    ensures Sendable(ms[1..], texts[1..])
    ensures Clean(ms[0].name) && EraseNewlines(texts[0]) == Encode(ms[0].bytes)
  {
    assert ms[0] in ms;
  }

  /** What has arrived of a stream of frames is drained to the messages that are complete; the rest
      is the beginning of the next frame. */
  lemma {:induction false} DrainFrames(x: string, y: string, ms: seq<Message>, texts: seq<string>) returns (k: nat)
    requires Sendable(ms, texts) && x + y == Frames(ms, texts)
    ensures k <= |ms| && Drain(x).0 == ms[..k] && '\n' !in Drain(x).1
    ensures Sendable(ms[k..], texts[k..]) && Drain(x).1 + y == Frames(ms[k..], texts[k..])
    decreases |ms|
  {
    hide Frame, Handle, Frames, Drain, Clean, Encode, EraseNewlines;
    if '\n' !in x {
      k := 0;
      DrainNothing(x);
      assert ms[0..] == ms && texts[0..] == texts && ms[..0] == [];
    } else {
      SomeFrameLeft(x, y, ms, texts);
      var x1 := DrainFrame(x, y, ms, texts);
      var j := DrainFrames(x1, y, ms[1..], texts[1..]);
      k := j + 1;
      assert ms[..k] == [ms[0]] + ms[1..][..j];
      assert ms[1..][j..] == ms[k..] && texts[1..][j..] == texts[k..];
    }
  }

  lemma {:induction false} DrainNothing(x: string)
    requires '\n' !in x
    ensures Drain(x) == ([], x)
  {
  }

  lemma {:induction false} SomeFrameLeft(x: string, y: string, ms: seq<Message>, texts: seq<string>)
    requires '\n' in x && |texts| == |ms| && x + y == Frames(ms, texts)
    ensures ms != []
  {
    assert Frames([], []) == [];
    assert |x + y| > 0;
  }

  /** The first frame has arrived: it is handled, and the rest of the stream is left. */
  lemma {:induction false} DrainFrame(x: string, y: string, ms: seq<Message>, texts: seq<string>) returns (x1: string)
    requires Sendable(ms, texts) && x + y == Frames(ms, texts) && '\n' in x && ms != []
    ensures Drain(x) == ([ms[0]] + Drain(x1).0, Drain(x1).1)
    ensures Sendable(ms[1..], texts[1..]) && x1 + y == Frames(ms[1..], texts[1..])
  {
    hide Frame, Handle, Clean, Encode, EraseNewlines;
    SendableTail(ms, texts);
    var f := Frame(ms[0].name, texts[0]);
    FrameIsOneLine(ms[0], texts[0]);
    FirstLineArrived(x, y, f, Frames(ms[1..], texts[1..]));
    x1 := x[|f|..];
    HandleFrame(ms[0], texts[0], x1);
  }

  lemma {:induction false} FirstLineArrived(x: string, y: string, f: string, rest: string)
    requires x + y == f + rest && '\n' in x
    requires |f| > 0 && f[|f| - 1] == '\n' && '\n' !in f[..|f| - 1]
    ensures |f| <= |x| && x == f + x[|f|..] && x[|f|..] + y == rest
  {
    forall j | 0 <= j < |f| - 1
      ensures (f + rest)[j] != '\n'
    {
      assert (f + rest)[j] == f[..|f| - 1][j];
    }
    var i :| 0 <= i < |x| && x[i] == '\n';
    assert (x + y)[i] == x[i];
    assert x[..|f|] == (x + y)[..|f|] == f;
    assert x == x[..|f|] + x[|f|..];
    assert (x + y)[|f|..] == x[|f|..] + y;
    assert (f + rest)[|f|..] == rest;
  }

  lemma {:induction false} FramesHoldNewline(ms: seq<Message>, texts: seq<string>)
    requires |texts| == |ms| && ms != []
    ensures '\n' in Frames(ms, texts)
  {
    var f := Frame(ms[0].name, texts[0]);
    assert Frames(ms, texts)[|f| - 1] == f[|f| - 1] == '\n';
  }

  lemma {:induction false} NothingOutstanding(buffer: string, ms: seq<Message>, texts: seq<string>)
    requires Sendable(ms, texts) && '\n' !in buffer && buffer + Concat([]) == Frames(ms, texts)
    ensures ms == [] && buffer == ""
  {
    assert buffer == Frames(ms, texts);
    if ms != [] {
      FramesHoldNewline(ms, texts);
    }
  }

  lemma {:induction false} ReceiveFrames(buffer: string, chunks: seq<string>, ms: seq<Message>, texts: seq<string>)
    requires Sendable(ms, texts) && '\n' !in buffer && buffer + Concat(chunks) == Frames(ms, texts)
    ensures Receive(buffer, chunks) == (ms, "")
    decreases |chunks|
  {
    hide Frames, Drain, Frame;
    if chunks == [] {
      NothingOutstanding(buffer, ms, texts);
    } else {
      var x, y := buffer + chunks[0], Concat(chunks[1..]);
      assert x + y == buffer + Concat(chunks);
      var k := DrainFrames(x, y, ms, texts);
      ReceiveFrames(Drain(x).1, chunks[1..], ms[k..], texts[k..]);
      assert ms[..k] + ms[k..] == ms;
    }
  }

  /** Any list of messages whose names hold neither delimiter nor newline is read back as it was
      written: the same names and the same bytes, for every way the encoder breaks its text into
      lines and every way the stream is cut into chunks, with nothing left over. */
  lemma {:induction false} RoundTrip(ms: seq<Message>, texts: seq<string>, chunks: seq<string>)
    requires Sendable(ms, texts) && Concat(chunks) == Frames(ms, texts)
    ensures Receive("", chunks) == (ms, "")
  {
    assert "" + Concat(chunks) == Concat(chunks);
    ReceiveFrames("", chunks, ms, texts);
  }

  // ---------------------------------------------------------------------------------------
  // Arbitrary streams: when chunking matters
  // ---------------------------------------------------------------------------------------

  function Count(s: string, c: char): nat {
    if s == [] then 0 else (if s[0] == c then 1 else 0) + Count(s[1..], c)
  }

  lemma {:induction false} CountConcat(a: string, b: string, c: char)
    ensures Count(a + b, c) == Count(a, c) + Count(b, c)
  {
    if a == [] {
      assert a + b == b;
    } else {
      assert (a + b)[1..] == a[1..] + b;
      CountConcat(a[1..], b, c);
    }
  }

  lemma {:induction false} CountZero(s: string, c: char)
    ensures Count(s, c) == 0 <==> c !in s
  {
    if s != [] {
      CountZero(s[1..], c);
    }
  }

  /** Every line that something follows has its two delimiters. */
  predicate WellDelimited(s: string)
    decreases |s|
  {
    var (line, rest) := GetLine(s, '\n');
    '\n' !in s || rest == "" || (Count(line, '|') >= 2 && WellDelimited(rest))
  }

  /** Each line handled on its own, and what follows the last newline. */
  function ByLine(s: string): (seq<Message>, string)
    decreases |s|
  {
    if '\n' !in s then ([], s)
    else
      var (line, rest) := GetLine(s, '\n');
      var (ms, tail) := ByLine(rest);
      ([Handle(line + "\n").0] + ms, tail)
  }

  lemma {:induction false} GetLineParts(s: string, delim: char)
    ensures var (a, b) := GetLine(s, delim);
      delim !in a && s == if delim in s then a + [delim] + b else a
    ensures delim !in s ==> GetLine(s, delim).1 == ""
  {
    if s != [] && s[0] != delim {
      GetLineParts(s[1..], delim);
      var (a, b) := GetLine(s[1..], delim);
      PrependToLine(s[0], a, delim, b, s[1..]);
      assert s == [s[0]] + s[1..];
    } else if s != [] {
      assert s == [] + [delim] + s[1..];
    }
  }

  lemma {:induction false} PrependToLine(c: char, a: string, delim: char, b: string, rest: string)
    requires c != delim && delim !in a && rest == if delim in rest then a + [delim] + b else a
    ensures delim !in [c] + a && (delim in [c] + rest <==> delim in rest)
    ensures [c] + rest == if delim in rest then [c] + a + [delim] + b else [c] + a
  {
    if delim in rest {
      assert [c] + (a + [delim] + b) == [c] + a + [delim] + b;
    }
  }

  /** A line with both delimiters is handled the same whatever follows it. */
  lemma {:induction false} HandleGoodLine(line: string, rest: string)
    requires '\n' !in line && Count(line, '|') >= 2
    ensures Handle(line + "\n" + rest) == (Handle(line + "\n").0, rest)
    ensures Handle(line + "\n").1 == ""
  {
    var (a, r) := GetLine(line, '|');
    GetLineParts(line, '|');
    CountZero(line, '|');
    CountConcat(a + ['|'], r, '|');
    CountConcat(a, ['|'], '|');
    CountZero(a, '|');
    CountZero(r, '|');
    assert Count(['|'], '|') == 1;
    var (b, d) := GetLine(r, '|');
    GetLineParts(r, '|');
    assert line == a + ['|'] + (b + ['|'] + d);
    HandleThreeTokens(a, b, d, rest);
    HandleThreeTokens(a, b, d, "");
    assert line + "\n" + "" == line + "\n";
  }

  lemma {:induction false} HandleThreeTokens(a: string, b: string, d: string, rest: string)
    requires '|' !in a && '|' !in b && '\n' !in d
    ensures Handle(a + ['|'] + (b + ['|'] + d) + "\n" + rest) == (Message(b, Decode(d)), rest)
  {
    var r2 := d + ['\n'] + rest;
    var r1 := b + ['|'] + r2;
    assert a + ['|'] + (b + ['|'] + d) + "\n" + rest == a + ['|'] + r1;
    GetLineAt(a, '|', r1);
    GetLineAt(b, '|', r2);
    GetLineAt(d, '\n', rest);
  }

  /** A last line takes the handler to the end of the buffer. */
  lemma {:induction false} HandleLastLine(line: string)
    requires '\n' !in line
    ensures Handle(line + "\n").1 == ""
  {
    var s := line + "\n";
    if Count(line, '|') >= 2 {
      HandleGoodLine(line, "");
    } else {
      HandleBadLine(line, "");
    }
  }

  /** A line that lacks a delimiter takes the handler on into what follows, up to a later newline
      or to the end. */
  lemma {:induction false} HandleBadLine(line: string, rest: string)
    requires '\n' !in line && Count(line, '|') < 2
    ensures var left := Handle(line + "\n" + rest).1;
      left == "" || Count(left, '\n') < Count(rest, '\n')
    ensures rest == "" ==> Handle(line + "\n").1 == ""
  {
    var s := line + "\n" + rest;
    var r1 := GetLine(s, '|').1;
    var r2 := GetLine(r1, '|').1;
    var r3 := GetLine(r2, '\n').1;
    TwoTokensPassTheLine(line, rest);
    GetLineParts(r2, '\n');
    if '\n' in r2 {
      var d := GetLine(r2, '\n').0;
      CountConcat(d + ['\n'], r3, '\n');
      CountConcat(d, ['\n'], '\n');
    }
    if rest == "" {
      assert line + "\n" + "" == line + "\n";
    }
  }

  lemma {:induction false} TwoTokensPassTheLine(line: string, rest: string)
    requires '\n' !in line && Count(line, '|') < 2
    ensures var r2 := GetLine(GetLine(line + "\n" + rest, '|').1, '|').1;
      Count(r2, '\n') <= Count(rest, '\n') && (rest == "" ==> r2 == "")
  {
    var s := line + "\n" + rest;
    if '|' in line {
      var (a, r) := GetLine(line, '|');
      GetLineParts(line, '|');
      CountConcat(a + ['|'], r, '|');
      CountConcat(a, ['|'], '|');
      CountZero(r, '|');
      assert s == a + ['|'] + (r + "\n" + rest);
      GetLineAt(a, '|', r + "\n" + rest);
      assert '|' !in r;
      OneTokenPassesTheLine(r, rest);
    } else {
      OneTokenPassesTheLine(line, rest);
      GetLineLosesNothing(GetLine(s, '|').1);
    }
  }

  lemma {:induction false} GetLineLosesNothing(s: string)
    ensures Count(GetLine(s, '|').1, '\n') <= Count(s, '\n')
    ensures s == "" ==> GetLine(s, '|').1 == ""
  {
    var (a, b) := GetLine(s, '|');
    GetLineParts(s, '|');
    if '|' in s {
      CountConcat(a + ['|'], b, '\n');
    }
  }

  lemma {:induction false} OneTokenPassesTheLine(line: string, rest: string)
    requires '|' !in line
    ensures var r := GetLine(line + "\n" + rest, '|').1;
      Count(r, '\n') <= Count(rest, '\n') && (rest == "" ==> r == "")
  {
    var s := line + "\n" + rest;
    if '|' in rest {
      var (a, b) := GetLine(rest, '|');
      GetLineParts(rest, '|');
      assert s == (line + "\n" + a) + ['|'] + b;
      GetLineAt(line + "\n" + a, '|', b);
      CountConcat(a + ['|'], b, '\n');
    } else {
      GetLineParts(s, '|');
    }
  }

  lemma {:induction false} OneLineAlone(line: string)
    requires '\n' !in line
    ensures Drain(line + "\n") == ByLine(line + "\n") == ([Handle(line + "\n").0], "")
  {
    var x := line + "\n";
    HandleLastLine(line);
    assert x[|line|] == '\n';
    GetLineAt(line, '\n', "");
    assert line + ['\n'] + "" == x;
    assert Drain("") == ([], "") && ByLine("") == ([], "");
    assert [Handle(x).0] + [] == [Handle(x).0];
  }

  lemma {:induction false} ReceiveOne(s: string)
    ensures Receive("", [s]) == Drain(s)
  {
    assert "" + s == s;
    assert [s][1..] == [];
    assert Drain(s).0 + [] == Drain(s).0;
  }

  /** Draining part of a well delimited stream handles its complete lines, each on its own. */
  lemma {:induction false} DrainLines(x: string, y: string)
    requires WellDelimited(x + y)
    ensures var (ms, left) := Drain(x);
      && '\n' !in left && WellDelimited(left + y)
      && ByLine(x + y) == (ms + ByLine(left + y).0, ByLine(left + y).1)
    decreases |x|
  {
    hide Handle, GetLine, Drain, ByLine, WellDelimited, Count;
    if '\n' !in x {
      NoLineYet(x, y);
    } else {
      var line, x1 := CutLine(x);
      FirstLine(line, x1 + y);
      ConcatAssoc(line + "\n", x1, y);
      if x1 + y == "" {
        assert x1 == "" && y == "" && line + "\n" + "" == line + "\n";
        OneLineAlone(line);
        NoLineYet("", "");
        assert Drain(x).0 + [] == Drain(x).0;
      } else {
        DrainGoodLine(line, x1);
        DrainLines(x1, y);
        ConcatAssoc([Handle(line + "\n").0], Drain(x1).0, ByLine(Drain(x1).1 + y).0);
      }
    }
  }

  lemma {:induction false} NoLineYet(x: string, y: string)
    requires '\n' !in x
    ensures Drain(x) == ([], x) && [] + ByLine(x + y).0 == ByLine(x + y).0 && ByLine("") == ([], "")
      && WellDelimited("")
  {
  }

  lemma {:induction false} CutLine(x: string) returns (line: string, rest: string)
    requires '\n' in x
    ensures x == line + "\n" + rest && '\n' !in line && |rest| < |x|
  {
    line, rest := GetLine(x, '\n').0, GetLine(x, '\n').1;
    GetLineParts(x, '\n');
  }

  lemma {:induction false} FirstLine(line: string, rest: string)
    requires '\n' !in line
    ensures ByLine(line + "\n" + rest) == ([Handle(line + "\n").0] + ByLine(rest).0, ByLine(rest).1)
    ensures WellDelimited(line + "\n" + rest) <==> rest == "" || (Count(line, '|') >= 2 && WellDelimited(rest))
  {
    hide Handle, Count;
    GetLineAt(line, '\n', rest);
    assert (line + "\n" + rest)[|line|] == '\n';
  }

  lemma {:induction false} DrainGoodLine(line: string, rest: string)
    requires '\n' !in line && Count(line, '|') >= 2
    ensures Drain(line + "\n" + rest) == ([Handle(line + "\n").0] + Drain(rest).0, Drain(rest).1)
  {
    hide Handle, Count;
    HandleGoodLine(line, rest);
    assert (line + "\n" + rest)[|line|] == '\n';
  }

  lemma {:induction false} ReceiveLines(buffer: string, chunks: seq<string>)
    requires WellDelimited(buffer + Concat(chunks)) && '\n' !in buffer
    ensures Receive(buffer, chunks) == ByLine(buffer + Concat(chunks))
    decreases |chunks|
  {
    if chunks == [] {
      assert buffer + "" == buffer;
    } else {
      var x, y := buffer + chunks[0], Concat(chunks[1..]);
      assert x + y == buffer + Concat(chunks);
      DrainLines(x, y);
      ReceiveLines(Drain(x).1, chunks[1..]);
    }
  }

  /** The stream cut after every newline. */
  function Lines(s: string): seq<string>
    decreases |s|
  {
    if '\n' !in s then [s]
    else
      var (line, rest) := GetLine(s, '\n');
      [line + "\n"] + Lines(rest)
  }

  lemma {:induction false} LinesReceived(s: string)
    ensures Concat(Lines(s)) == s && Receive("", Lines(s)) == ByLine(s)
    decreases |s|
  {
    if '\n' !in s {
      ReceiveOne(s);
      assert Lines(s) == [s] && Concat([s]) == s + "" == s;
    } else {
      var (line, rest) := GetLine(s, '\n');
      GetLineParts(s, '\n');
      LinesReceived(rest);
      assert Lines(s)[1..] == Lines(rest);
      assert s == (line + "\n") + rest;
      OneLineAlone(line);
      var x := line + "\n";
      assert "" + x == x;
    }
  }

  lemma {:induction false} ByLineCounts(s: string)
    ensures |ByLine(s).0| == Count(s, '\n')
    ensures s != "" && '\n' !in s ==> ByLine(s).1 != ""
    decreases |s|
  {
    CountZero(s, '\n');
    if '\n' in s {
      var (line, rest) := GetLine(s, '\n');
      GetLineParts(s, '\n');
      ByLineCounts(rest);
      CountConcat(line + ['\n'], rest, '\n');
      CountConcat(line, ['\n'], '\n');
      CountZero(line, '\n');
      assert Count(['\n'], '\n') == 1;
    }
  }

  lemma {:induction false} DrainCounts(s: string)
    ensures |Drain(s).0| <= Count(s, '\n')
    decreases |s|
  {
    CountZero(s, '\n');
    if '\n' in s {
      var (line, rest) := GetLine(s, '\n');
      GetLineParts(s, '\n');
      assert s == line + "\n" + rest;
      CountConcat(line + ['\n'], rest, '\n');
      CountConcat(line, ['\n'], '\n');
      assert Count(['\n'], '\n') == 1;
      var left := Handle(s).1;
      if Count(line, '|') >= 2 {
        HandleGoodLine(line, rest);
      } else {
        HandleBadLine(line, rest);
      }
      DrainCounts(left);
    }
  }

  /** In one piece, a stream with a line that lacks a delimiter and is followed by something yields
      fewer messages than it has lines, or swallows what follows its last newline. */
  lemma {:induction false} OnePieceDiffers(s: string)
    requires !WellDelimited(s)
    ensures Drain(s) != ByLine(s)
    decreases |s|
  {
    var (line, rest) := GetLine(s, '\n');
    GetLineParts(s, '\n');
    assert s == line + "\n" + rest;
    ByLineCounts(s);
    ByLineCounts(rest);
    var left := Handle(s).1;
    if Count(line, '|') >= 2 {
      HandleGoodLine(line, rest);
      OnePieceDiffers(rest);
      assert Drain(s).0[1..] == Drain(rest).0;
      assert ByLine(s).0[1..] == ByLine(rest).0;
    } else {
      HandleBadLine(line, rest);
      DrainCounts(left);
      CountZero(rest, '\n');
      assert |ByLine(s).0| == 1 + |ByLine(rest).0|;
      assert |Drain(s).0| == 1 + |Drain(left).0|;
      if '\n' !in rest {
        assert Drain(s).1 == "";
      }
    }
  }

  /** What is delivered is independent of the chunking exactly for well delimited streams. */
  lemma {:induction false} ChunkingMattersIff(s: string)
    ensures (forall cs, ds :: Concat(cs) == s && Concat(ds) == s ==> Receive("", cs) == Receive("", ds))
       <==> WellDelimited(s)
  {
    if WellDelimited(s) {
      forall cs, ds | Concat(cs) == s && Concat(ds) == s
        ensures Receive("", cs) == Receive("", ds)
      {
        assert "" + s == s;
        ReceiveLines("", cs);
        ReceiveLines("", ds);
      }
    } else {
      OnePieceDiffers(s);
      LinesReceived(s);
      ReceiveOne(s);
      assert Concat([s]) == s + Concat([s][1..]) == s;
    }
  }

  /** A stream read two ways: a line without delimiters is a message of its own when it arrives
      alone, and part of the next line otherwise. */
  lemma {:induction false} OneStreamTwoReadings()
    ensures Concat(["a\n", "b|c|\n"]) == "a\nb|c|\n" == Concat(["a\nb|c|\n"])
    ensures |Receive("", ["a\n", "b|c|\n"]).0| == 2 && |Receive("", ["a\nb|c|\n"]).0| == 1
  {
    hide Drain, Handle, GetLine, ByLine, Receive;
    ConcatTwo("a\n", "b|c|\n");
    assert "a" + "\n" == "a\n" && "b|c|" + "\n" == "b|c|\n" && "a\n" + "b|c|\n" == "a\nb|c|\n";
    ReadApart("a", "b|c|");
    ReadTogether();
  }

  lemma {:induction false} ConcatTwo(x: string, y: string)
    ensures Concat([x, y]) == x + y == Concat([x + y])
  {
    assert [x, y][1..] == [y] && [y][1..] == [] && [x + y][1..] == [];
    assert Concat([y]) == y + Concat([]) == y;
    assert Concat([x + y]) == x + y + Concat([]) == x + y;
  }

  lemma {:induction false} ReadApart(a: string, b: string)
    requires '\n' !in a && '\n' !in b
    ensures |Receive("", [a + "\n", b + "\n"]).0| == 2
  {
    hide Drain, Handle, GetLine, ByLine;
    OneLineAlone(a);
    OneLineAlone(b);
    var x, y := a + "\n", b + "\n";
    assert [x, y][1..] == [y] && [y][1..] == [];
    assert "" + x == x && "" + y == y;
    assert |Receive("", [y]).0| == 1;
  }

  lemma {:induction false} ReadTogether()
    ensures |Receive("", ["a\nb|c|\n"]).0| == 1
  {
    var s := "a\nb|c|\n";
    GetLineAt("a\nb", '|', "c|\n");
    assert s == "a\nb" + ['|'] + "c|\n";
    GetLineAt("c", '|', "\n");
    assert "c|\n" == "c" + ['|'] + "\n";
    GetLineAt("", '\n', "");
    assert "\n" == "" + ['\n'] + "";
    assert s[1] == '\n' && Handle(s).1 == "";
    assert Drain("") == ([], "");
    assert |Drain(s).0| == 1;
    ReceiveOne(s);
  }
}
