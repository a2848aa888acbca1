/** The framing of messages on a TCP stream: NETSIM|name|data in base64, one message a line. */
module Framing {
  import opened Common

  type Byte = b: int | 0 <= b < 256

  // ---------------------------------------------------------------------------------------
  // Base64 (section 4 of RFC 4648)
  // ---------------------------------------------------------------------------------------

  /** Table 1 of that section. */
  function Digit(n: int): char
    requires 0 <= n < 64
  {
    if n < 26 then ('A' as int + n) as char
    else if n < 52 then ('a' as int + n - 26) as char
    else if n < 62 then ('0' as int + n - 52) as char
    else if n == 62 then '+'
    else '/'
  }

  /** The value of a digit, or -1. */
  function Value(c: char): (v: int)
    ensures -1 <= v < 64
  {
    if 'A' <= c <= 'Z' then c as int - 'A' as int
    else if 'a' <= c <= 'z' then c as int - 'a' as int + 26
    else if '0' <= c <= '9' then c as int - '0' as int + 52
    else if c == '+' then 62
    else if c == '/' then 63
    else -1
  }

  lemma {:induction false} ValueOfDigit(n: int)
    requires 0 <= n < 64
    ensures Value(Digit(n)) == n
    ensures Digit(n) !in {'\n', '|'}
  {
  }

  /** Three bytes as four digits. */
  function Group(a: Byte, b: Byte, c: Byte): (g: string)
    ensures |g| == 4
  {
    [Digit(a / 4), Digit(a % 4 * 16 + b / 16), Digit(b % 16 * 4 + c / 64), Digit(c % 64)]
  }

  function Encode(bs: seq<Byte>): string {
    if |bs| == 0 then ""
    else if |bs| == 1 then Group(bs[0], 0, 0)[..2] + "=="
    else if |bs| == 2 then Group(bs[0], bs[1], 0)[..3] + "="
    else Group(bs[0], bs[1], bs[2]) + Encode(bs[3..])
  }

  /** Decodes groups of four characters; anything that is not such a group ends the data. */
  function Decode(s: string): seq<Byte> {
    if |s| < 4 || Value(s[0]) < 0 || Value(s[1]) < 0 then []
    else
      var v, w := Value(s[0]), Value(s[1]);
      var first := v * 4 + w / 16;
      if Value(s[2]) < 0 then [first]
      else
        var x := Value(s[2]);
        var second := w % 16 * 16 + x / 4;
        if Value(s[3]) < 0 then [first, second]
        else [first, second, x % 4 * 64 + Value(s[3])] + Decode(s[4..])
  }

  lemma {:induction false} GroupValues(a: Byte, b: Byte, c: Byte)
    ensures var g := Group(a, b, c);
      && Value(g[0]) == a / 4 && Value(g[1]) == a % 4 * 16 + b / 16
      && Value(g[2]) == b % 16 * 4 + c / 64 && Value(g[3]) == c % 64
      && (forall k :: 0 <= k < 4 ==> g[k] !in {'\n', '|'})
  {
    ValueOfDigit(a / 4);
    ValueOfDigit(a % 4 * 16 + b / 16);
    ValueOfDigit(b % 16 * 4 + c / 64);
    ValueOfDigit(c % 64);
  }

  lemma {:induction false} DecodeEncode(bs: seq<Byte>)
    ensures Decode(Encode(bs)) == bs
  {
    if |bs| == 1 {
      DecodeEncodeOne(bs);
    } else if |bs| == 2 {
      DecodeEncodeTwo(bs);
    } else if |bs| >= 3 {
      DecodeEncode(bs[3..]);
      DecodeGroup(bs[0], bs[1], bs[2], Encode(bs[3..]));
    }
  }

  lemma {:induction false} DecodeGroup(a: Byte, b: Byte, c: Byte, rest: string)
    ensures Decode(Group(a, b, c) + rest) == [a, b, c] + Decode(rest)
  {
    GroupValues(a, b, c);
    var g := Group(a, b, c);
    assert (g + rest)[4..] == rest;
    assert g[0] == (g + rest)[0] && g[1] == (g + rest)[1] && g[2] == (g + rest)[2] && g[3] == (g + rest)[3];
    SixBitsRejoin(a, b, c);
  }

  lemma {:induction false} SixBitsRejoin(a: Byte, b: Byte, c: Byte)
    ensures a / 4 * 4 + (a % 4 * 16 + b / 16) / 16 == a
    ensures (a % 4 * 16 + b / 16) % 16 * 16 + (b % 16 * 4 + c / 64) / 4 == b
    ensures (b % 16 * 4 + c / 64) % 4 * 64 + c % 64 == c
  {
  }

  lemma {:induction false} DecodeEncodeOne(bs: seq<Byte>)
    requires |bs| == 1
    ensures Decode(Encode(bs)) == bs
  {
    hide Value, Digit, Decode;
    var g := Group(bs[0], 0, 0);
    assert Encode(bs) == [g[0], g[1], '=', '='];
    GroupValues(bs[0], 0, 0);
    DecodeOneByte(g[0], g[1]);
    SixBitsRejoin(bs[0], 0, 0);
  }

  lemma {:induction false} DecodeOneByte(c0: char, c1: char)
    requires Value(c0) >= 0 && Value(c1) >= 0
    ensures Decode([c0, c1, '=', '=']) == [Value(c0) * 4 + Value(c1) / 16]
  {
  }

  lemma {:induction false} DecodeEncodeTwo(bs: seq<Byte>)
    requires |bs| == 2
    ensures Decode(Encode(bs)) == bs
  {
    hide Value, Digit, Decode;
    var g := Group(bs[0], bs[1], 0);
    assert Encode(bs) == [g[0], g[1], g[2], '='];
    GroupValues(bs[0], bs[1], 0);
    DecodeTwoBytes(g[0], g[1], g[2]);
    SixBitsRejoin(bs[0], bs[1], 0);
  }

  lemma {:induction false} DecodeTwoBytes(c0: char, c1: char, c2: char)
    requires Value(c0) >= 0 && Value(c1) >= 0 && Value(c2) >= 0
    ensures Decode([c0, c1, c2, '=']) == [Value(c0) * 4 + Value(c1) / 16, Value(c1) % 16 * 16 + Value(c2) / 4]
  {
  }

  // ---------------------------------------------------------------------------------------
  // Frames
  // ---------------------------------------------------------------------------------------

  datatype Message = Message(name: string, bytes: seq<Byte>)

  const PREAMBLE := "NETSIM"

  function EraseNewlines(s: string): string {
    if s == [] then [] else if s[0] == '\n' then EraseNewlines(s[1..]) else [s[0]] + EraseNewlines(s[1..])
  }

  /** The frame of a message, given the encoder's text, which may be broken into lines. */
  function Frame(name: string, encoded: string): string {
    PREAMBLE + "|" + name + "|" + EraseNewlines(encoded) + "\n"
  }

  predicate Clean(s: string) {
    '|' !in s && '\n' !in s
  }

  lemma {:induction false} EncodedIsClean(bs: seq<Byte>)
    ensures Clean(Encode(bs))
  {
    if |bs| == 1 {
      GroupValues(bs[0], 0, 0);
    } else if |bs| == 2 {
      GroupValues(bs[0], bs[1], 0);
    } else if |bs| >= 3 {
      GroupValues(bs[0], bs[1], bs[2]);
      EncodedIsClean(bs[3..]);
    }
  }

  // ---------------------------------------------------------------------------------------
  // The reader
  // ---------------------------------------------------------------------------------------

  /** What std::getline extracts from a stream, and what it leaves: without the delimiter, all of
      it; from an exhausted stream, nothing. */
  function GetLine(s: string, delim: char): (r: (string, string))
    ensures |r.1| <= |s| && (delim in s ==> |r.1| < |s|)
  {
    if s == [] then ([], [])
    else if s[0] == delim then ([], s[1..])
    else
      var (token, rest) := GetLine(s[1..], delim);
      ([s[0]] + token, rest)
  }

  /** The completion handler takes three tokens from the buffer, whatever lines they span. */
  function Handle(buffer: string): (r: (Message, string))
    ensures '\n' in buffer ==> |r.1| < |buffer|
  {
    var (preamble, r1) := GetLine(buffer, '|');
    var (name, r2) := GetLine(r1, '|');
    var (data, r3) := GetLine(r2, '\n');
    HandleShrinks(buffer);
    (Message(name, Decode(data)), r3)
  }

  lemma {:induction false} HandleShrinks(buffer: string)
    ensures '\n' in buffer ==> |GetLine(GetLine(GetLine(buffer, '|').1, '|').1, '\n').1| < |buffer|
  {
    var r1 := GetLine(buffer, '|').1;
    var r2 := GetLine(r1, '|').1;
    if '|' !in buffer && '\n' in buffer {
      GetLineAll(buffer, '|');
    }
    if '|' !in r1 && r1 != [] {
      GetLineAll(r1, '|');
    }
  }

  lemma {:induction false} GetLineAll(s: string, delim: char)
    requires delim !in s
    ensures GetLine(s, delim) == (s, [])
  {
    if s != [] {
      GetLineAll(s[1..], delim);
      assert [s[0]] + s[1..] == s;
    }
  }

  lemma {:induction false} GetLineAt(a: string, delim: char, b: string)
    requires delim !in a
    ensures GetLine(a + [delim] + b, delim) == (a, b)
  {
    if a == [] {
      assert a + [delim] + b == [delim] + b;
    } else {
      assert (a + [delim] + b)[1..] == a[1..] + [delim] + b;
      GetLineAt(a[1..], delim, b);
      assert [a[0]] + a[1..] == a;
    }
  }

  /** While a line is complete, the handler runs and is armed again. */
  function Drain(buffer: string): (seq<Message>, string)
    decreases |buffer|
  {
    if '\n' !in buffer then ([], buffer)
    else
      var (m, rest) := Handle(buffer);
      var (ms, left) := Drain(rest);
      ([m] + ms, left)
  }

  /** Everything delivered from a stream that arrives in these chunks after what is buffered. */
  function Receive(buffer: string, chunks: seq<string>): (seq<Message>, string)
    decreases |chunks|
  {
    if chunks == [] then ([], buffer)
    else
      var (ms, left) := Drain(buffer + chunks[0]);
      var (more, last) := Receive(left, chunks[1..]);
      (ms + more, last)
  }

  class TcpSession {
    var buffer: string
    var delivered: seq<Message>
    var sent: string

    constructor ()
      ensures buffer == "" && delivered == [] && sent == ""
    {
      buffer, delivered, sent := "", [], "";
    }

    method Write(name: string, encoded: string)
      modifies this`sent
      ensures sent == old(sent) + Frame(name, encoded)
    {
      sent := sent + (PREAMBLE + "|" + name + "|" + EraseNewlines(encoded) + "\n");
    }

    method Arrive(chunk: string)
      modifies this`buffer, this`delivered
      ensures (delivered, buffer) == (old(delivered) + Drain(old(buffer) + chunk).0, Drain(old(buffer) + chunk).1)
    {
      buffer := buffer + chunk;
      ghost var whole := Drain(buffer);
      while '\n' in buffer
        invariant old(delivered) + whole.0 == delivered + Drain(buffer).0 && whole.1 == Drain(buffer).1
        decreases |buffer|
      {
        ghost var later := Drain(Handle(buffer).1).0;
        var (preamble, r1) := GetLine(buffer, '|');
        var (name, r2) := GetLine(r1, '|');
        var (data, r3) := GetLine(r2, '\n');
        HandleShrinks(buffer);
        ConcatAssoc(delivered, [Message(name, Decode(data))], later);
        delivered, buffer := delivered + [Message(name, Decode(data))], r3;
      }
      assert delivered + [] == delivered;
    }
  }

  // ---------------------------------------------------------------------------------------
  // Round trip
  // ---------------------------------------------------------------------------------------

  /** The encoder's text for each message: its base64, broken into lines in any way. */
  ghost predicate Encodes(texts: seq<string>, ms: seq<Message>) {
    |texts| == |ms| && forall i :: 0 <= i < |ms| ==> EraseNewlines(texts[i]) == Encode(ms[i].bytes)
  }

  function Frames(ms: seq<Message>, texts: seq<string>): string
    requires |texts| == |ms|
  {
    if ms == [] then "" else Frame(ms[0].name, texts[0]) + Frames(ms[1..], texts[1..])
  }

  lemma {:induction false} HandleFrame(m: Message, text: string, rest: string)
    requires Clean(m.name) && EraseNewlines(text) == Encode(m.bytes)
    ensures Handle(Frame(m.name, text) + rest) == (m, rest)
  {
    var e := Encode(m.bytes);
    EncodedIsClean(m.bytes);
    DecodeEncode(m.bytes);
    var s := Frame(m.name, text) + rest;
    var r2 := e + ['\n'] + rest;
    var r1 := m.name + ['|'] + r2;
    assert s == PREAMBLE + ['|'] + r1;
    GetLineAt(PREAMBLE, '|', r1);
    GetLineAt(m.name, '|', r2);
    GetLineAt(e, '\n', rest);
  }

  /** A frame ends with its only newline. */
  lemma {:induction false} FrameIsOneLine(m: Message, text: string)
    requires Clean(m.name) && EraseNewlines(text) == Encode(m.bytes)
    ensures var f := Frame(m.name, text);
      |f| > 0 && f[|f| - 1] == '\n' && '\n' !in f[..|f| - 1]
  {
    EncodedIsClean(m.bytes);
    var f := Frame(m.name, text);
    assert f[..|f| - 1] == PREAMBLE + "|" + m.name + "|" + Encode(m.bytes);
  }

  // ---------------------------------------------------------------------------------------
  // The alphabet and the layout of the code, and of the frame
  // ---------------------------------------------------------------------------------------

  /** The digits are those of table 1 of RFC 4648, in that order: the upper-case letters, the
      lower-case letters, the decimal digits, plus and slash. */
  lemma {:induction false} AlphabetIsStandard(n: int)
    requires 0 <= n < 64
    ensures Digit(n) == 'A' <==> n == 0
    ensures Digit(25) == 'Z' && Digit(26) == 'a' && Digit(51) == 'z' && Digit(52) == '0' && Digit(61) == '9'
    ensures Digit(62) == '+' && Digit(63) == '/'
    ensures n != 25 && n != 51 && n < 61 ==> Digit(n + 1) as int == Digit(n) as int + 1
  {
  }

  /** Three bytes and their four digits stand for the same 24-bit number, first byte first. */
  lemma {:induction false} GroupIsTheNumber(a: Byte, b: Byte, c: Byte)
    ensures var g := Group(a, b, c);
      ((Value(g[0]) * 64 + Value(g[1])) * 64 + Value(g[2])) * 64 + Value(g[3]) == (a * 256 + b) * 256 + c
  {
    ValueOfDigit(a / 4);
    ValueOfDigit(a % 4 * 16 + b / 16);
    ValueOfDigit(b % 16 * 4 + c / 64);
    ValueOfDigit(c % 64);
  }

  /** The examples of section 10 of RFC 4648 for one, two and three bytes. */
  lemma {:induction false} StandardExamples()
    ensures Encode([102]) == "Zg==" && Encode([102, 111]) == "Zm8=" && Encode([102, 111, 111]) == "Zm9v"
  {
    assert [102, 111, 111][3..] == [];
    assert Group(102, 0, 0) == "ZgAA" && Group(102, 111, 0) == "Zm8A" && Group(102, 111, 111) == "Zm9v";
    assert Encode([]) == "";
  }

  /** Erasing drops the newlines and nothing else. */
  lemma {:induction false} EraseDropsNewlines(s: string, t: string, c: char)
    ensures EraseNewlines("") == "" && EraseNewlines([c]) == if c == '\n' then "" else [c]
    ensures EraseNewlines(s + t) == EraseNewlines(s) + EraseNewlines(t)
    ensures '\n' !in EraseNewlines(s)
  {
    assert [c][1..] == [] && EraseNewlines([]) == [];
    if s == [] {
      assert s + t == t;
    } else {
      assert (s + t)[1..] == s[1..] + t;
      EraseDropsNewlines(s[1..], t, c);
    }
  }

  /** A frame is the preamble, the name and the text on one line, delimited by bars. */
  lemma {:induction false} FrameIs(name: string, encoded: string)
    ensures Frame(name, encoded) == "NETSIM|" + name + "|" + EraseNewlines(encoded) + "\n"
  {
    assert PREAMBLE + "|" == "NETSIM|";
  }
}
