/**
  JSON-RPC messages on a byte stream: frames with a Content-Length header, or one message a
  line, told apart by the reader.  JSON encoding is a codec of which only the facts in
  `CodecFacts` are used.
*/
module Framing {
  import opened Options
  import opened Text
  import Decimal

  type Byte = b: nat | b < 256

  const LF: Byte := 10
  const CR: Byte := 13
  const COLON: Byte := 58
  const OPEN: Byte := 123
  const CLOSE: Byte := 125
  const MAX_INT := 0x7FFF_FFFF_FFFF_FFFF

  // The white space that trimming removes, as far as it is ASCII.
  predicate IsBlank(b: Byte) { 9 <= b <= 13 || b == 32 }

  predicate EndsLine(b: Byte) { b == LF || b == CR }

  function Bytes(s: string): seq<Byte> { seq(|s|, i requires 0 <= i < |s| => (s[i] as int) % 256) }

  function LowerByte(b: Byte): Byte { if 65 <= b <= 90 then b + 32 else b }

  predicate SameFolded(a: seq<Byte>, b: seq<Byte>) {
    |a| == |b| && forall i :: 0 <= i < |a| ==> LowerByte(a[i]) == LowerByte(b[i])
  }

  const LENGTH_NAME := Bytes("Content-Length")

  // ------------------------------------------------------------------------- numbers

  predicate IsDigit(b: Byte) { 48 <= b <= 57 }

  predicate AllDigits(s: seq<Byte>) { forall i :: 0 <= i < |s| ==> IsDigit(s[i]) }

  function Print(n: nat): seq<Byte> {
    seq(|Decimal.Digits(n)|, i requires 0 <= i < |Decimal.Digits(n)| => 48 + (Decimal.Digits(n)[i] as int))
  }

  function DigitsOf(s: seq<Byte>): (r: seq<Decimal.Digit>)
    requires AllDigits(s)
    ensures |r| == |s| && forall i :: 0 <= i < |s| ==> s[i] == 48 + (r[i] as int)
  {
    if s == [] then []
    else
      assert IsDigit(s[|s| - 1]);
      var d: Decimal.Digit := (s[|s| - 1] as int) - 48;
      DigitsOf(s[..|s| - 1]) + [d]
  }

  // A decimal integer with an optional sign, within 64 bits.
  function Atoi(s: seq<Byte>): Option<int> {
    var signed := s != [] && (s[0] == 43 || s[0] == 45);
    var digits := if signed then s[1..] else s;
    if digits == [] || !AllDigits(digits) then None
    else
      var v: int := Decimal.Value(DigitsOf(digits));
      var n := if signed && s[0] == 45 then -v else v;
      if -MAX_INT - 1 <= n <= MAX_INT then Some(n) else None
  }

  /** Printing a length and reading it gives the length back. */
  lemma AtoiPrint(n: nat)
    requires n <= MAX_INT
    ensures Atoi(Print(n)) == Some(n)
  {
    hide Decimal.Value, Decimal.Digits, DigitsOf;
    var s, ds := Print(n), Decimal.Digits(n);
    assert forall i :: 0 <= i < |s| ==> s[i] == 48 + (ds[i] as int);
    assert DigitsOf(s) == ds;
    Decimal.ValueOfDigits(n);
  }

  // --------------------------------------------------------------------------- reading

  datatype Codec<!M> = Codec(encode: M -> seq<Byte>, decode: seq<Byte> -> Option<M>)

  ghost predicate CodecFacts<M(!new)>(c: Codec<M>) {
    forall m: M :: c.decode(c.encode(m)) == Some(m) && IsBody(c.encode(m)) && |c.encode(m)| <= MAX_INT
  }

  predicate IsBody(body: seq<Byte>) { |body| >= 2 && body[0] == OPEN && body[|body| - 1] == CLOSE && LF !in body }

  datatype Error = EndOfInput | CutShort | BadHeader | BadLength | NoLength | BadMessage

  // What a reader has left to read, whether it has settled for lines, and whether it has seen a message start.
  datatype Stream = Stream(rest: seq<Byte>, jsonl: bool, seen: bool)

  // The next line with its line feed; everything is consumed when there is none.
  function NextLine(rest: seq<Byte>): (r: (Option<seq<Byte>>, seq<Byte>))
    ensures r.0.Some? ==> rest == r.0.value + r.1 && r.0.value != []
  {
    var i := IndexOf(rest, LF);
    if i < |rest| then assert rest == rest[..i + 1] + rest[i + 1..]; (Some(rest[..i + 1]), rest[i + 1..]) else (None, [])
  }

  function Decode<M>(c: Codec<M>, body: seq<Byte>): Result<M, Error> {
    if c.decode(body).Some? then Ok(c.decode(body).value) else Err(BadMessage)
  }

  function ReadJSONL<M>(c: Codec<M>, s: Stream): (Result<M, Error>, Stream)
    decreases |s.rest|
  {
    var (line, rest) := NextLine(s.rest);
    var t := s.(rest := rest);
    if line.None? then (Err(EndOfInput), t)
    else
      var trimmed := Trim(line.value, IsBlank);
      if trimmed == [] then ReadJSONL(c, t) else (Decode(c, trimmed), t)
  }

  // A header line sets the length, says something else, or is malformed.
  function ParseHeader(line: seq<Byte>, length: int): Result<int, Error> {
    var (name, value, ok) := Cut(TrimRight(line, EndsLine), COLON);
    if !ok then Err(BadHeader)
    else if SameFolded(Trim(name, IsBlank), LENGTH_NAME) then
      var n := Atoi(Trim(value, IsBlank));
      if n.Some? then Ok(n.value) else Err(BadLength)
    else Ok(length)
  }

  // The header lines up to the empty one.
  function ReadHeader(rest: seq<Byte>, length: int): (Result<int, Error>, seq<Byte>)
    decreases |rest|
  {
    var (line, after) := NextLine(rest);
    if line.None? then (Err(EndOfInput), after)
    else if TrimRight(line.value, EndsLine) == [] then (Ok(length), after)
    else
      var n := ParseHeader(TrimRight(line.value, EndsLine), length);
      if n.Ok? then ReadHeader(after, n.value) else (n, after)
  }

  function ReadBody<M>(c: Codec<M>, rest: seq<Byte>, length: int): (Result<M, Error>, seq<Byte>) {
    if length < 0 then (Err(NoLength), rest)
    else if length > |rest| then (Err(if rest == [] then EndOfInput else CutShort), [])
    else (Decode(c, rest[..length]), rest[length..])
  }

  function ReadFrame<M>(c: Codec<M>, first: seq<Byte>, s: Stream): (Result<M, Error>, Stream) {
    var n := ParseHeader(first, -1);
    if n.Err? then (Err(n.error), s)
    else
      var (length, rest) := ReadHeader(s.rest, n.value);
      if length.Err? then (Err(length.error), s.(rest := rest))
      else
        var (m, left) := ReadBody(c, rest, length.value);
        (m, s.(rest := left))
  }

  function ReadAuto<M>(c: Codec<M>, s: Stream): (Result<M, Error>, Stream)
    decreases |s.rest|
  {
    var (line, rest) := NextLine(s.rest);
    var t := s.(rest := rest);
    if line.None? then (Err(EndOfInput), t)
    else
      var trimmed := Trim(line.value, IsBlank);
      if trimmed == [] then ReadAuto(c, t)
      else if trimmed[0] == OPEN then (Decode(c, trimmed), t.(jsonl := true, seen := true))
      else ReadFrame(c, line.value, t.(seen := true))
  }

  function ReadOne<M>(c: Codec<M>, s: Stream): (Result<M, Error>, Stream) {
    if s.jsonl then ReadJSONL(c, s) else ReadAuto(c, s)
  }

  class Reader<M> {
    const codec: Codec<M>
    var rest: seq<Byte>
    var jsonl: bool
    var seen: bool

    ghost function Value(): Stream
      reads this
    {
      Stream(rest, jsonl, seen)
    }

    // A reader that detects the framing, or one that expects lines.
    constructor (codec: Codec<M>, input: seq<Byte>, lines: bool)
      ensures this.codec == codec && Value() == Stream(input, lines, lines)
    {
      this.codec, rest, jsonl, seen := codec, input, lines, lines;
    }

    method ReadLine() returns (line: Option<seq<Byte>>)
      modifies this`rest
      ensures (line, rest) == NextLine(old(rest))
    {
      var i := 0;
      while i < |rest| && rest[i] != LF
        invariant i <= |rest| && IndexOf(rest, LF) == i + IndexOf(rest[i..], LF)
      {
        assert rest[i..][1..] == rest[i + 1..];
        i := i + 1;
      }
      if i == |rest| {
        rest := [];
        return None;
      }
      line, rest := Some(rest[..i + 1]), rest[i + 1..];
    }

    method Read() returns (r: Result<M, Error>)
      modifies this
      ensures (r, Value()) == ReadOne(codec, old(Value()))
    {
      if jsonl {
        r := ReadLines();
      } else {
        r := Detect();
      }
    }

    method ReadLines() returns (r: Result<M, Error>)
      modifies this`rest
      ensures (r, Value()) == ReadJSONL(codec, old(Value()))
    {
      while true
        invariant ReadJSONL(codec, Value()) == ReadJSONL(codec, old(Value()))
        decreases |rest|
      {
        var line := ReadLine();
        if line.None? {
          return Err(EndOfInput);
        }
        var trimmed := Trim(line.value, IsBlank);
        if trimmed != [] {
          return Decode(codec, trimmed);
        }
      }
    }

    method Detect() returns (r: Result<M, Error>)
      modifies this
      ensures (r, Value()) == ReadAuto(codec, old(Value()))
    {
      while true
        invariant ReadAuto(codec, Value()) == ReadAuto(codec, old(Value()))
        decreases |rest|
      {
        var line := ReadLine();
        if line.None? {
          return Err(EndOfInput);
        }
        var trimmed := Trim(line.value, IsBlank);
        if trimmed != [] {
          seen := true;
          if trimmed[0] == OPEN {
            jsonl := true;
            return Decode(codec, trimmed);
          }
          r := ReadAfterFirstLine(line.value);
          return;
        }
      }
    }

    method ReadAfterFirstLine(first: seq<Byte>) returns (r: Result<M, Error>)
      modifies this`rest
      ensures (r, Value()) == ReadFrame(codec, first, old(Value()))
    {
      var n := ParseHeader(first, -1);
      if n.Err? {
        return Err(n.error);
      }
      var length := n.value;
      while true
        invariant ReadHeader(rest, length) == ReadHeader(old(rest), n.value)
        decreases |rest|
      {
        var line := ReadLine();
        if line.None? {
          return Err(EndOfInput);
        }
        var header := TrimRight(line.value, EndsLine);
        if header == [] {
          break;
        }
        var next := ParseHeader(header, length);
        if next.Err? {
          return Err(next.error);
        }
        length := next.value;
      }
      if length < 0 {
        return Err(NoLength);
      }
      if length > |rest| {
        r, rest := Err(if rest == [] then EndOfInput else CutShort), [];
      } else {
        r, rest := Decode(codec, rest[..length]), rest[length..];
      }
    }
  }

  // --------------------------------------------------------------------------- writing

  function Line(body: seq<Byte>): seq<Byte> { body + [LF] }

  function Frame(body: seq<Byte>): seq<Byte> {
    Bytes("Content-Length: ") + Print(|body|) + [CR, LF, CR, LF] + body
  }

  class Writer {
    var out: seq<Byte>
    const jsonl: bool

    constructor (jsonl: bool)
      ensures out == [] && this.jsonl == jsonl
    {
      out, this.jsonl := [], jsonl;
    }

    method WriteRaw(body: seq<Byte>)
      modifies this
      ensures out == old(out) + if jsonl then Line(body) else Frame(body)
    {
      if jsonl {
        out := out + (body + [LF]);
        return;
      }
      var frame := Bytes("Content-Length: ") + Print(|body|) + [CR, LF, CR, LF];
      frame := frame + body;
      out := out + frame;
    }
  }

  // --------------------------------------------------------------------- the round trip

  function Frames<M>(c: Codec<M>, ms: seq<M>): seq<Byte> {
    if ms == [] then [] else Frame(c.encode(ms[0])) + Frames(c, ms[1..])
  }

  function Lines<M>(c: Codec<M>, ms: seq<M>): seq<Byte> {
    if ms == [] then [] else Line(c.encode(ms[0])) + Lines(c, ms[1..])
  }

  // What n reads return, and what is left then.
  function ReadMany<M>(c: Codec<M>, s: Stream, n: nat): (seq<Result<M, Error>>, Stream)
    decreases n
  {
    if n == 0 then ([], s)
    else
      var (r, t) := ReadOne(c, s);
      var (rs, u) := ReadMany(c, t, n - 1);
      ([r] + rs, u)
  }

  function Oks<M>(ms: seq<M>): (r: seq<Result<M, Error>>)
    ensures |r| == |ms|
  {
    seq(|ms|, i requires 0 <= i < |ms| => Ok(ms[i]))
  }

  lemma NextLineIs(line: seq<Byte>, rest: seq<Byte>)
    requires LF !in line
    ensures NextLine(line + [LF] + rest) == (Some(line + [LF]), rest)
  {
    IndexOfFirst(line, LF, rest);
    var s := line + [LF] + rest;
    assert s[..|line| + 1] == line + [LF] && s[|line| + 1..] == rest;
  }

  lemma TrimBody(body: seq<Byte>)
    requires IsBody(body)
    ensures Trim(body + [LF], IsBlank) == body
  {
    assert [] + body + [LF] == body + [LF];
    TrimPadded([], body, [LF], IsBlank);
  }

  lemma ReadLineOne<M(!new)>(c: Codec<M>, m: M, rest: seq<Byte>, jsonl: bool, seen: bool)
    requires CodecFacts(c) && (jsonl ==> seen)
    ensures ReadOne(c, Stream(Line(c.encode(m)) + rest, jsonl, seen)) == (Ok(m), Stream(rest, true, true))
  {
    NextLineIs(c.encode(m), rest);
    TrimBody(c.encode(m));
  }

  // The header of a frame, without its line end.
  function Header(n: nat): seq<Byte> { Bytes("Content-Length: ") + Print(n) }

  lemma ParseLength(n: nat)
    requires n <= MAX_INT
    ensures ParseHeader(Header(n) + [CR, LF], -1) == Ok(n) && LF !in Header(n)
  {
    hide Print, Atoi;
    var line, digits := Header(n), Print(n);
    PrintsDigits(n);
    LengthName();
    TrimRightDrop(line, [CR, LF], EndsLine);
    assert line == LENGTH_NAME + [COLON] + ([32] + digits);
    hide Bytes;
    CutFirst(LENGTH_NAME, COLON, [32] + digits);
    TrimFixed(LENGTH_NAME, IsBlank);
    assert [32] + digits + [] == [32] + digits;
    TrimPadded([32], digits, [], IsBlank);
    AtoiPrint(n);
  }

  lemma PrintsDigits(n: nat)
    ensures Print(n) != [] && AllDigits(Print(n))
  {
  }

  lemma LengthName()
    ensures Bytes("Content-Length: ") == LENGTH_NAME + [COLON] + [32]
    ensures LENGTH_NAME[0] == 67 && LENGTH_NAME[|LENGTH_NAME| - 1] == 104 && COLON !in LENGTH_NAME && LF !in LENGTH_NAME
  {
  }

  function LineEnd(crlf: bool): seq<Byte> { if crlf then [CR, LF] else [LF] }

  lemma OnlyLineEnd(crlf: bool)
    ensures TrimRight(LineEnd(crlf), EndsLine) == []
  {
    assert [] + LineEnd(crlf) == LineEnd(crlf);
    TrimRightDrop([], LineEnd(crlf), EndsLine);
  }

  lemma EmptyLineNext(crlf: bool, rest: seq<Byte>)
    ensures NextLine(LineEnd(crlf) + rest) == (Some(LineEnd(crlf)), rest)
  {
    var text: seq<Byte> := if crlf then [CR] else [];
    assert LineEnd(crlf) == text + [LF];
    hide NextLine;
    NextLineIs(text, rest);
  }

  lemma EmptyLineEnds(crlf: bool, rest: seq<Byte>, length: int)
    ensures ReadHeader(LineEnd(crlf) + rest, length) == (Ok(length), rest)
  {
    hide NextLine, TrimRight, ParseHeader, LineEnd;
    EmptyLineNext(crlf, rest);
    OnlyLineEnd(crlf);
  }

  lemma FrameStarts<M>(c: Codec<M>, header: seq<Byte>, after: seq<Byte>, seen: bool)
    requires header != [] && header[0] == 67 && LF !in header
    ensures ReadOne(c, Stream(header + [CR, LF] + after, false, seen))
         == ReadFrame(c, header + [CR, LF], Stream(after, false, true))
  {
    hide NextLine, Trim, ReadFrame;
    assert header + [CR, LF] == header + [CR] + [LF];
    NextLineIs(header + [CR], after);
    NotBlankLine(header);
  }

  lemma FrameParts(body: seq<Byte>, rest: seq<Byte>)
    ensures Frame(body) + rest == Header(|body|) + [CR, LF] + (LineEnd(true) + (body + rest))
  {
    hide Print, Bytes;
  }

  lemma BodyRead<M>(c: Codec<M>, body: seq<Byte>, rest: seq<Byte>)
    ensures ReadBody(c, body + rest, |body|) == (Decode(c, body), rest)
  {
    assert (body + rest)[..|body|] == body && (body + rest)[|body|..] == rest;
  }

  lemma ReadFrameOne<M(!new)>(c: Codec<M>, m: M, rest: seq<Byte>, seen: bool)
    requires CodecFacts(c)
    ensures ReadOne(c, Stream(Frame(c.encode(m)) + rest, false, seen)) == (Ok(m), Stream(rest, false, true))
  {
    hide Header, ParseHeader, ReadHeader, ReadBody, ReadOne, LineEnd, Frame;
    var body := c.encode(m);
    var header, input := Header(|body|), body + rest;
    HeaderStarts(|body|);
    ParseLength(|body|);
    FrameParts(body, rest);
    FrameStarts(c, header, LineEnd(true) + input, seen);
    EmptyLineEnds(true, input, |body|);
    BodyRead(c, body, rest);
  }

  lemma HeaderStarts(n: nat)
    ensures Header(n) != [] && Header(n)[0] == 67
  {
    LengthName();
  }

  lemma NotBlankLine(header: seq<Byte>)
    requires |header| > 0 && !IsBlank(header[0]) && header[0] != OPEN
    ensures var t := Trim(header + [CR, LF], IsBlank); t != [] && t[0] == header[0]
  {
    var s := header + [CR, LF];
    var tail := TrimRightSplit(s, IsBlank);
    assert TrimLeft(s, IsBlank) == s;
    assert TrimRight(s, IsBlank) == [] ==> s == tail;
  }

  lemma {:induction false} ReadLinesMany<M(!new)>(c: Codec<M>, ms: seq<M>, s: Stream)
    requires CodecFacts(c) && s.rest == Lines(c, ms) && (s.jsonl ==> s.seen)
    ensures ReadMany(c, s, |ms| + 1)
         == (Oks(ms) + [Err(EndOfInput)], if ms == [] then s.(rest := []) else Stream([], true, true))
  {
    hide ReadOne, Line;
    if ms == [] {
      EndOne(c, s);
      var end: seq<Result<M, Error>> := [Err(EndOfInput)];
      assert end + [] == end && Oks(ms) + end == end;
      assert ReadMany(c, s, 1) == (end + [], s);
    } else {
      ReadLineOne(c, ms[0], Lines(c, ms[1..]), s.jsonl, s.seen);
      ReadLinesMany(c, ms[1..], Stream(Lines(c, ms[1..]), true, true));
      assert [Ok(ms[0])] + (Oks(ms[1..]) + [Err(EndOfInput)]) == Oks(ms) + [Err(EndOfInput)];
    }
  }

  lemma EndOne<M>(c: Codec<M>, s: Stream)
    requires s.rest == []
    ensures ReadOne(c, s) == (Err(EndOfInput), s)
  {
  }

  /**
    Messages written with header framing and then messages written as lines are read back by one
    detecting reader, in order and followed by the end of the input; every byte is consumed.
  */
  lemma {:induction false} RoundTrip<M(!new)>(c: Codec<M>, framed: seq<M>, lined: seq<M>, seen: bool)
    requires CodecFacts(c)
    ensures ReadMany(c, Stream(Frames(c, framed) + Lines(c, lined), false, seen), |framed| + |lined| + 1)
         == (Oks(framed) + Oks(lined) + [Err(EndOfInput)],
             Stream([], lined != [], seen || framed != [] || lined != []))
  {
    hide ReadOne, Frame;
    if framed == [] {
      assert Frames(c, framed) + Lines(c, lined) == Lines(c, lined);
      ReadLinesMany(c, lined, Stream(Lines(c, lined), false, seen));
      assert Oks(framed) + Oks(lined) == Oks(lined);
    } else {
      var rest := Frames(c, framed[1..]) + Lines(c, lined);
      assert Frames(c, framed) + Lines(c, lined) == Frame(c.encode(framed[0])) + rest;
      ReadFrameOne(c, framed[0], rest, seen);
      RoundTrip(c, framed[1..], lined, true);
      assert [Ok(framed[0])] + (Oks(framed[1..]) + Oks(lined) + [Err(EndOfInput)])
          == Oks(framed) + Oks(lined) + [Err(EndOfInput)];
    }
  }
}
