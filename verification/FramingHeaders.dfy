/**
  Frames as other programs write them: any number of header lines, in any order and with either line
  end, of which those named Content-Length announce the length of the body.
*/
module FramingHeaders {
  import opened Options
  import opened Text
  import Decimal
  import opened Framing

  datatype Header = Header(name: seq<Byte>, value: seq<Byte>, crlf: bool)

  function HeaderText(h: Header): seq<Byte> { h.name + [COLON] + h.value }

  function HeaderLine(h: Header): seq<Byte> { HeaderText(h) + LineEnd(h.crlf) }

  function Wire(hs: seq<Header>): seq<Byte> { if hs == [] then [] else HeaderLine(hs[0]) + Wire(hs[1..]) }

  // The name ends at the first colon, the value at the end of the line.
  predicate IsHeader(h: Header) { COLON !in h.name && LF !in h.name && LF !in h.value }

  predicate Headers(hs: seq<Header>) { forall i :: 0 <= i < |hs| ==> IsHeader(hs[i]) }

  // The first header line does not look like the start of a message.
  predicate Leads(h: Header) {
    var name := TrimLeft(h.name, IsBlank);
    name != [] ==> name[0] != OPEN
  }

  // ------------------------------------------------------------------------------ numbers

  function Ascii(ds: seq<Decimal.Digit>): (r: seq<Byte>)
    ensures |r| == |ds| && AllDigits(r)
  {
    seq(|ds|, i requires 0 <= i < |ds| => 48 + (ds[i] as int))
  }

  /** A sign and digits, also with leading zeros, are read as their value if it has 64 bits. */
  lemma AtoiReads(sign: seq<Byte>, ds: seq<Decimal.Digit>)
    requires sign in [[], [43], [45]] && ds != []
    ensures var v: int := if sign == [45] then -(Decimal.Value(ds) as int) else Decimal.Value(ds);
            Atoi(sign + Ascii(ds)) == if -MAX_INT - 1 <= v <= MAX_INT then Some(v) else None
  {
    hide Decimal.Value, DigitsOf;
    var s, digits := sign + Ascii(ds), Ascii(ds);
    assert sign != [] ==> s[0] == sign[0] && s[1..] == digits;
    assert sign == [] ==> s == digits && IsDigit(s[0]);
    assert DigitsOf(digits) == ds;
  }

  /** Anything else is refused. */
  lemma AtoiRefuses(s: seq<Byte>, i: nat)
    requires s == [] || (i < |s| && !IsDigit(s[i]) && (i > 0 || |s| == 1 || s[0] !in [43, 45]))
    ensures Atoi(s) == None
  {
    if s != [] && (s[0] == 43 || s[0] == 45) {
      if i > 0 {
        assert s[1..][i - 1] == s[i];
        assert !IsDigit(s[1..][i - 1]);
      }
    } else if s != [] {
      assert !IsDigit(s[i]);
    }
  }

  // ------------------------------------------------------------------------------- names

  predicate IsLetter(b: Byte) { 65 <= b <= 90 || 97 <= b <= 122 }

  // The same letter in the other case.
  predicate OtherCase(a: Byte, b: Byte) { IsLetter(a) && IsLetter(b) && (a == b + 32 || b == a + 32) }

  predicate Spells(a: seq<Byte>, b: seq<Byte>) {
    |a| == |b| && forall i :: 0 <= i < |a| ==> a[i] == b[i] || OtherCase(a[i], b[i])
  }

  // A line named Content-Length, in any case and with white space around the name.
  ghost predicate IsLength(h: Header) {
    exists lead: seq<Byte>, name: seq<Byte>, tail: seq<Byte> ::
      h.name == lead + name + tail && AllCut(lead, IsBlank) && AllCut(tail, IsBlank) && Spells(name, LENGTH_NAME)
  }

  lemma SpellsFolded(a: seq<Byte>, b: seq<Byte>)
    ensures Spells(a, b) <==> SameFolded(a, b)
  {
    if SameFolded(a, b) {
      forall i | 0 <= i < |a| ensures a[i] == b[i] || OtherCase(a[i], b[i]) {
        assert LowerByte(a[i]) == LowerByte(b[i]);
      }
    }
  }

  lemma LengthFolded(h: Header)
    ensures IsLength(h) <==> SameFolded(Trim(h.name, IsBlank), LENGTH_NAME)
  {
    LengthName();
    hide Spells, SameFolded, Trim;
    if IsLength(h) {
      var lead: seq<Byte>, name: seq<Byte>, tail: seq<Byte> :|
        h.name == lead + name + tail && AllCut(lead, IsBlank) && AllCut(tail, IsBlank) && Spells(name, LENGTH_NAME);
      SpelledTrimmed(name);
      TrimPadded(lead, name, tail, IsBlank);
      SpellsFolded(name, LENGTH_NAME);
    }
    var lead, tail := TrimSplit(h.name, IsBlank);
    SpellsFolded(Trim(h.name, IsBlank), LENGTH_NAME);
  }

  lemma SpelledTrimmed(name: seq<Byte>)
    requires Spells(name, LENGTH_NAME)
    ensures Trimmed(name, IsBlank)
  {
    LengthName();
    assert name[0] == 67 || OtherCase(name[0], 67);
    assert name[|name| - 1] == 104 || OtherCase(name[|name| - 1], 104);
  }

  // What such a line announces.
  function Announced(h: Header): Option<int> { Atoi(Trim(h.value, IsBlank)) }

  // --------------------------------------------------------------------------- one line

  // The value without the line end, which trimming does not see.
  lemma EndTrimmed(h: Header)
    ensures TrimRight(HeaderLine(h), EndsLine) == h.name + [COLON] + TrimRight(h.value, EndsLine)
    ensures Trim(TrimRight(h.value, EndsLine), IsBlank) == Trim(h.value, IsBlank)
  {
    hide TrimRight, Trim, LineEnd;
    var tail := TrimRightSplit(h.value, EndsLine);
    var value := TrimRight(h.value, EndsLine);
    CutBehind(h.name + [COLON] + value, tail, h.crlf);
    assert HeaderLine(h) == h.name + [COLON] + value + (tail + LineEnd(h.crlf));
    TrimBehind(value, tail, IsBlank);
  }

  lemma CutBehind(text: seq<Byte>, tail: seq<Byte>, crlf: bool)
    requires AllCut(tail, EndsLine) && text != [] && !EndsLine(text[|text| - 1])
    ensures TrimRight(text + (tail + LineEnd(crlf)), EndsLine) == text
  {
    hide TrimRight;
    TrimRightDrop(text, tail + LineEnd(crlf), EndsLine);
  }

  lemma CutAgain(s: seq<Byte>)
    ensures TrimRight(TrimRight(s, EndsLine), EndsLine) == TrimRight(s, EndsLine)
  {
    var tail := TrimRightSplit(s, EndsLine);
    assert TrimRight(s, EndsLine) + [] == TrimRight(s, EndsLine);
    TrimRightDrop(TrimRight(s, EndsLine), [], EndsLine);
  }

  // A header line sets the length, or fails to, or changes nothing.
  lemma HeaderParsed(h: Header, length: int)
    requires IsHeader(h)
    ensures var r := if !IsLength(h) then Ok(length) else if Announced(h).Some? then Ok(Announced(h).value) else Err(BadLength);
            ParseHeader(HeaderLine(h), length) == r == ParseHeader(TrimRight(HeaderLine(h), EndsLine), length)
    ensures TrimRight(HeaderLine(h), EndsLine) != []
  {
    hide Trim, TrimRight, Atoi, SameFolded, HeaderLine, IsLength, Cut;
    EndTrimmed(h);
    CutAgain(HeaderLine(h));
    LengthFolded(h);
    CutFirst(h.name, COLON, TrimRight(h.value, EndsLine));
  }

  lemma HeaderNext(h: Header, rest: seq<Byte>)
    requires IsHeader(h)
    ensures NextLine(HeaderLine(h) + rest) == (Some(HeaderLine(h)), rest)
  {
    hide NextLine;
    var text := if h.crlf then HeaderText(h) + [CR] else HeaderText(h);
    assert HeaderLine(h) == text + [LF];
    NextLineIs(text, rest);
  }

  lemma TrimRightStart(s: seq<Byte>)
    requires s != [] && !IsBlank(s[0])
    ensures TrimRight(s, IsBlank) != [] && TrimRight(s, IsBlank)[0] == s[0]
  {
    var tail := TrimRightSplit(s, IsBlank);
    assert TrimRight(s, IsBlank) == [] ==> s == tail;
  }

  // White space before a text is all that is cut off its start.
  lemma StartKept(name: seq<Byte>, rest: seq<Byte>)
    requires rest != [] && !IsBlank(rest[0])
    ensures var s, kept := Trim(name + rest, IsBlank), TrimLeft(name, IsBlank);
            s != [] && s[0] == if kept == [] then rest[0] else kept[0]
  {
    hide TrimLeft, TrimRight;
    var lead := TrimLeftSplit(name, IsBlank);
    var s := TrimLeft(name, IsBlank) + rest;
    assert name + rest == lead + s;
    TrimLeftDrop(lead, s, IsBlank);
    TrimRightStart(s);
  }

  lemma LeadTrimmed(h: Header)
    requires Leads(h)
    ensures Trim(HeaderLine(h), IsBlank) != [] && Trim(HeaderLine(h), IsBlank)[0] != OPEN
  {
    hide Trim, TrimLeft, LineEnd;
    var rest := [COLON] + (h.value + LineEnd(h.crlf));
    assert HeaderLine(h) == h.name + rest;
    StartKept(h.name, rest);
  }

  lemma FirstLine<M>(c: Codec<M>, h: Header, rest: seq<Byte>, seen: bool)
    requires IsHeader(h) && Leads(h)
    ensures ReadOne(c, Stream(HeaderLine(h) + rest, false, seen)) == ReadFrame(c, HeaderLine(h), Stream(rest, false, true))
  {
    hide NextLine, Trim, ReadFrame, HeaderLine, Leads, IsHeader;
    HeaderNext(h, rest);
    LeadTrimmed(h);
  }

  // -------------------------------------------------------------------------- many lines

  // The lengths in the lines can be read.
  ghost predicate Readable(hs: seq<Header>) {
    forall i :: 0 <= i < |hs| && IsLength(hs[i]) ==> Announced(hs[i]).Some?
  }

  // What is announced after the lines: by the last one that announces a length.
  ghost function LengthAfter(hs: seq<Header>, length: int): int
    requires Readable(hs)
  {
    if hs == [] then length else LengthAfter(hs[1..], if IsLength(hs[0]) then Announced(hs[0]).value else length)
  }

  lemma {:induction false} LengthNone(hs: seq<Header>, length: int)
    requires Readable(hs) && forall i :: 0 <= i < |hs| ==> !IsLength(hs[i])
    ensures LengthAfter(hs, length) == length
  {
    if hs != [] {
      LengthNone(hs[1..], length);
    }
  }

  lemma {:induction false} LengthLast(hs: seq<Header>, k: nat, length: int)
    requires Readable(hs) && k < |hs| && IsLength(hs[k]) && forall i :: k < i < |hs| ==> !IsLength(hs[i])
    ensures LengthAfter(hs, length) == Announced(hs[k]).value
  {
    hide IsLength, Announced;
    if k == 0 {
      LengthNone(hs[1..], Announced(hs[0]).value);
    } else {
      LengthLast(hs[1..], k - 1, if IsLength(hs[0]) then Announced(hs[0]).value else length);
    }
  }

  lemma {:induction false} HeadersPassed(hs: seq<Header>, rest: seq<Byte>, length: int)
    requires Headers(hs) && Readable(hs)
    ensures ReadHeader(Wire(hs) + rest, length) == ReadHeader(rest, LengthAfter(hs, length))
  {
    hide IsLength, Announced, ParseHeader, NextLine, TrimRight, HeaderLine, IsHeader;
    if hs == [] {
      assert Wire(hs) + rest == rest;
    } else {
      var more := Wire(hs[1..]) + rest;
      assert Wire(hs) + rest == HeaderLine(hs[0]) + more;
      HeaderNext(hs[0], more);
      HeaderParsed(hs[0], length);
      HeadersPassed(hs[1..], rest, if IsLength(hs[0]) then Announced(hs[0]).value else length);
    }
  }

  // The first line is read like the others.
  lemma FramePassed<M>(c: Codec<M>, hs: seq<Header>, rest: seq<Byte>, seen: bool)
    requires Headers(hs) && Readable(hs) && hs != [] && Leads(hs[0])
    ensures ReadOne(c, Stream(Wire(hs) + rest, false, seen))
         == var (length, left) := ReadHeader(rest, LengthAfter(hs, -1));
            if length.Err? then (Err(length.error), Stream(left, false, true))
            else (ReadBody(c, left, length.value).0, Stream(ReadBody(c, left, length.value).1, false, true))
  {
    hide IsLength, Announced, ParseHeader, HeaderLine, IsHeader, ReadHeader, ReadBody, ReadOne, Leads;
    var more := Wire(hs[1..]) + rest;
    assert Wire(hs) + rest == HeaderLine(hs[0]) + more;
    FirstLine(c, hs[0], more, seen);
    HeaderParsed(hs[0], -1);
    HeadersPassed(hs[1..], rest, if IsLength(hs[0]) then Announced(hs[0]).value else -1);
  }

  /**
    Whatever the header lines are, in any order and with either line end, the last length they announce
    is how much of the input the body takes.
  */
  lemma FrameRead<M>(c: Codec<M>, hs: seq<Header>, k: nat, crlf: bool, input: seq<Byte>, seen: bool)
    requires Headers(hs) && Readable(hs) && hs != [] && Leads(hs[0])
    requires k < |hs| && IsLength(hs[k]) && forall i :: k < i < |hs| ==> !IsLength(hs[i])
    ensures var n := Announced(hs[k]).value;
         ReadOne(c, Stream(Wire(hs) + LineEnd(crlf) + input, false, seen))
         == (if n < 0 then (Err(NoLength), Stream(input, false, true))
             else if n <= |input| then
               (if c.decode(input[..n]).Some? then Ok(c.decode(input[..n]).value) else Err(BadMessage), Stream(input[n..], false, true))
             else (Err(if input == [] then EndOfInput else CutShort), Stream([], false, true)))
  {
    hide IsLength, Announced, ReadHeader, ReadOne, Headers, Leads, Wire, LineEnd, LengthAfter;
    assert Wire(hs) + LineEnd(crlf) + input == Wire(hs) + (LineEnd(crlf) + input);
    FramePassed(c, hs, LineEnd(crlf) + input, seen);
    LengthLast(hs, k, -1);
    EmptyLineEnds(crlf, input, LengthAfter(hs, -1));
  }

  // A line that announces the length as a decimal numeral.
  predicate AnnouncesWith(h: Header, lead: seq<Byte>, n: nat, tail: seq<Byte>) {
    h.value == lead + Print(n) + tail && AllCut(lead, IsBlank) && AllCut(tail, IsBlank)
  }

  lemma PrintedAnnounced(h: Header, lead: seq<Byte>, n: nat, tail: seq<Byte>)
    requires AnnouncesWith(h, lead, n, tail) && n <= MAX_INT
    ensures Announced(h) == Some(n)
  {
    hide Print, Atoi;
    PrintsDigits(n);
    TrimPadded(lead, Print(n), tail, IsBlank);
    AtoiPrint(n);
  }

  /**
    A message is read from a frame with one length line among any others, and exactly what follows the
    body is left.
  */
  lemma MessageRead<M>(c: Codec<M>, hs: seq<Header>, k: nat, lead: seq<Byte>, tail: seq<Byte>, crlf: bool,
                       body: seq<Byte>, rest: seq<Byte>, m: M, seen: bool)
    requires Headers(hs) && hs != [] && Leads(hs[0]) && k < |hs| && |body| <= MAX_INT
    requires IsLength(hs[k]) && AnnouncesWith(hs[k], lead, |body|, tail)
    requires forall i :: 0 <= i < |hs| && i != k ==> !IsLength(hs[i])
    requires c.decode(body) == Some(m)
    ensures ReadOne(c, Stream(Wire(hs) + LineEnd(crlf) + body + rest, false, seen)) == (Ok(m), Stream(rest, false, true))
  {
    hide IsLength, Announced, ReadOne, Headers, Leads, Wire, AnnouncesWith;
    PrintedAnnounced(hs[k], lead, |body|, tail);
    var input := body + rest;
    assert Wire(hs) + LineEnd(crlf) + body + rest == Wire(hs) + LineEnd(crlf) + input;
    FrameRead(c, hs, k, crlf, input, seen);
    assert input[..|body|] == body && input[|body|..] == rest;
  }

  /** Without a length line a frame is refused after its empty line. */
  lemma LengthMissing<M>(c: Codec<M>, hs: seq<Header>, crlf: bool, input: seq<Byte>, seen: bool)
    requires Headers(hs) && hs != [] && Leads(hs[0]) && forall i :: 0 <= i < |hs| ==> !IsLength(hs[i])
    ensures ReadOne(c, Stream(Wire(hs) + LineEnd(crlf) + input, false, seen)) == (Err(NoLength), Stream(input, false, true))
  {
    hide IsLength, Announced, ReadHeader, ReadOne, Headers, Leads, Wire, LineEnd, LengthAfter;
    assert Wire(hs) + LineEnd(crlf) + input == Wire(hs) + (LineEnd(crlf) + input);
    FramePassed(c, hs, LineEnd(crlf) + input, seen);
    LengthNone(hs, -1);
    EmptyLineEnds(crlf, input, -1);
  }

  /** The first length that can not be read is refused, and what follows its line is left. */
  lemma LengthUnreadable<M>(c: Codec<M>, hs: seq<Header>, h: Header, rest: seq<Byte>, seen: bool)
    requires Headers(hs) && Readable(hs) && IsHeader(h) && IsLength(h) && Announced(h).None?
    requires Leads(if hs == [] then h else hs[0])
    ensures ReadOne(c, Stream(Wire(hs) + HeaderLine(h) + rest, false, seen)) == (Err(BadLength), Stream(rest, false, true))
  {
    hide IsLength, Announced, ReadOne, Headers, Leads, HeaderLine, ParseHeader, TrimRight, NextLine, IsHeader;
    HeaderParsed(h, -1);
    if hs == [] {
      assert Wire(hs) + HeaderLine(h) + rest == HeaderLine(h) + rest;
      FirstLine(c, h, rest, seen);
    } else {
      assert Wire(hs) + HeaderLine(h) + rest == Wire(hs) + (HeaderLine(h) + rest);
      FramePassed(c, hs, HeaderLine(h) + rest, seen);
      HeaderParsed(h, LengthAfter(hs, -1));
      HeaderNext(h, rest);
    }
  }

  // A line that is not empty and has no colon.
  predicate NoHeader(text: seq<Byte>) { LF !in text && COLON !in text && TrimRight(text, EndsLine) != [] }

  lemma NoHeaderParsed(text: seq<Byte>, crlf: bool, length: int)
    requires NoHeader(text)
    ensures var line := text + LineEnd(crlf);
            && TrimRight(line, EndsLine) != []
            && ParseHeader(line, length) == ParseHeader(TrimRight(line, EndsLine), length) == Err(BadHeader)
  {
    var tail := TrimRightSplit(text, EndsLine);
    var body := TrimRight(text, EndsLine);
    assert text + LineEnd(crlf) == body + (tail + LineEnd(crlf));
    TrimRightDrop(body, tail + LineEnd(crlf), EndsLine);
    assert body + [] == body;
    TrimRightDrop(body, [], EndsLine);
    assert forall b :: b in body ==> b in text;
    hide Cut, TrimRight, Trim;
  }

  lemma NoHeaderNext(text: seq<Byte>, crlf: bool, rest: seq<Byte>)
    requires NoHeader(text)
    ensures NextLine(text + LineEnd(crlf) + rest) == (Some(text + LineEnd(crlf)), rest)
  {
    hide NextLine, TrimRight;
    var line := if crlf then text + [CR] else text;
    assert text + LineEnd(crlf) == line + [LF];
    NextLineIs(line, rest);
  }

  /** A line without a colon is refused, as the first one or after others, and what follows it is left. */
  lemma ColonMissing<M>(c: Codec<M>, hs: seq<Header>, text: seq<Byte>, crlf: bool, rest: seq<Byte>, seen: bool)
    requires Headers(hs) && Readable(hs) && NoHeader(text)
    requires if hs == [] then Trim(text, IsBlank) != [] && Trim(text, IsBlank)[0] != OPEN else Leads(hs[0])
    ensures ReadOne(c, Stream(Wire(hs) + (text + LineEnd(crlf)) + rest, false, seen)) == (Err(BadHeader), Stream(rest, false, true))
  {
    hide IsLength, Announced, Headers, Leads, ParseHeader, TrimRight, Trim, NextLine, NoHeader;
    var line := text + LineEnd(crlf);
    NoHeaderNext(text, crlf, rest);
    if hs == [] {
      assert Wire(hs) + line + rest == line + rest;
      NoHeaderParsed(text, crlf, -1);
      TrimBehind(text, LineEnd(crlf), IsBlank);
    } else {
      hide ReadOne;
      assert Wire(hs) + line + rest == Wire(hs) + (line + rest);
      FramePassed(c, hs, line + rest, seen);
      NoHeaderParsed(text, crlf, LengthAfter(hs, -1));
    }
  }

  /** An input that ends within the header lines is the end of the input. */
  lemma HeadersCutOff<M>(c: Codec<M>, hs: seq<Header>, rest: seq<Byte>, seen: bool)
    requires Headers(hs) && Readable(hs) && hs != [] && Leads(hs[0]) && LF !in rest
    ensures ReadOne(c, Stream(Wire(hs) + rest, false, seen)) == (Err(EndOfInput), Stream([], false, true))
  {
    hide IsLength, Announced, ReadOne, Headers, Leads, ParseHeader, TrimRight;
    FramePassed(c, hs, rest, seen);
  }

  // ----------------------------------------------------------------- messages as lines

  // Lines of nothing but white space.
  predicate BlankLines(lines: seq<seq<Byte>>) { forall i :: 0 <= i < |lines| ==> AllCut(lines[i], IsBlank) && LF !in lines[i] }

  function LinesOf(lines: seq<seq<Byte>>): seq<Byte> { if lines == [] then [] else lines[0] + [LF] + LinesOf(lines[1..]) }

  lemma BlankTrimmed(line: seq<Byte>)
    requires AllCut(line, IsBlank)
    ensures Trim(line + [LF], IsBlank) == []
  {
    assert (line + [LF]) + [] + [] == line + [LF];
    TrimPadded(line + [LF], [], [], IsBlank);
  }

  /** Blank lines before a message are passed over, whether the reader has settled for lines or not. */
  lemma {:induction false} BlankLinesPassed<M>(c: Codec<M>, lines: seq<seq<Byte>>, rest: seq<Byte>, jsonl: bool, seen: bool)
    requires BlankLines(lines)
    ensures ReadOne(c, Stream(LinesOf(lines) + rest, jsonl, seen)) == ReadOne(c, Stream(rest, jsonl, seen))
  {
    hide NextLine, Trim, ReadFrame;
    if lines == [] {
      assert LinesOf(lines) + rest == rest;
    } else {
      var more := LinesOf(lines[1..]) + rest;
      assert LinesOf(lines) + rest == lines[0] + [LF] + more;
      NextLineIs(lines[0], more);
      BlankTrimmed(lines[0]);
      BlankLinesPassed(c, lines[1..], rest, jsonl, seen);
    }
  }

  /**
    A line is decoded without the white space around it, also when it ends in CRLF, by a reader of lines
    and, if it starts with a brace, by a detecting reader, which then reads lines only.
  */
  lemma PaddedLineRead<M>(c: Codec<M>, lead: seq<Byte>, body: seq<Byte>, tail: seq<Byte>, rest: seq<Byte>, jsonl: bool, seen: bool)
    requires AllCut(lead, IsBlank) && AllCut(tail, IsBlank) && Trimmed(body, IsBlank) && body != []
    requires LF !in lead && LF !in body && LF !in tail && (!jsonl ==> body[0] == OPEN)
    ensures ReadOne(c, Stream(lead + body + tail + [LF] + rest, jsonl, seen))
         == (if c.decode(body).Some? then Ok(c.decode(body).value) else Err(BadMessage), Stream(rest, true, jsonl ==> seen))
  {
    hide NextLine, Trim, ReadFrame;
    NextLineIs(lead + body + tail, rest);
    assert lead + body + tail + [LF] == lead + body + (tail + [LF]);
    TrimPadded(lead, body, tail + [LF], IsBlank);
  }

  /** A last line without a line feed is lost: the input ends. */
  lemma LastLineLost<M>(c: Codec<M>, rest: seq<Byte>, jsonl: bool, seen: bool)
    requires LF !in rest
    ensures ReadOne(c, Stream(rest, jsonl, seen)) == (Err(EndOfInput), Stream([], jsonl, seen))
  {
  }
}
