/**
  Server-sent events: the reader of an HTTP backend, the writer of the HTTP server, and the
  event stream of WHATWG HTML, section 9.2.6, to compare the reader with.
*/
module Sse {
  import opened Options
  import opened Text
  import opened Lines

  const CR := '\r'

  datatype Event = Event(name: string, data: string)

  predicate EndsLine(c: char) { c == CR || c == LF }

  // The next line without its end, and what follows; None if there is no line feed.
  function NextLine(s: string): (r: Option<(string, string)>)
    ensures r.Some? ==> |r.value.1| < |s|
  {
    var i := IndexOf(s, LF);
    if i < |s| then Some((TrimRight(s[..i + 1], EndsLine), s[i + 1..])) else None
  }

  // A field of a line: the name before the first colon, the value after it but one space.
  function FieldOf(line: string): Option<(string, string)> {
    var (name, value, ok) := Cut(line, ':');
    if line == "" || line[0] == ':' || !ok then None
    else Some((name, if value != "" && value[0] == ' ' then value[1..] else value))
  }

  // An event read so far.
  datatype Draft = Draft(name: string, data: seq<string>)

  function Take(d: Draft, line: string): Draft {
    var f := FieldOf(line);
    if f.None? then d
    else if f.value.0 == "event" then d.(name := f.value.1)
    else if f.value.0 == "data" then d.(data := d.data + [f.value.1])
    else d
  }

  predicate NoEvent(d: Draft) { d.name == "" && d.data == [] }

  // The next event, and what is left to read.
  function ReadEvent(s: string, d: Draft): (r: (Option<Event>, string))
    ensures r.0.Some? ==> |r.1| < |s|
    decreases |s|
  {
    var next := NextLine(s);
    if next.None? then (None, "")
    else
      var (line, rest) := next.value;
      if line != "" then ReadEvent(rest, Take(d, line))
      else if NoEvent(d) then ReadEvent(rest, d)
      else (Some(Event(d.name, Join(d.data))), rest)
  }

  function ReadAll(s: string): seq<Event>
    decreases |s|
  {
    var (e, rest) := ReadEvent(s, Draft("", []));
    if e.None? then [] else [e.value] + ReadAll(rest)
  }

  class Reader {
    var rest: string

    constructor (input: string)
      ensures rest == input
    {
      rest := input;
    }

    method ReadString() returns (line: Option<string>)
      modifies this
      ensures NextLine(old(rest)) == if line.None? then None else Some((TrimRight(line.value, EndsLine), rest))
      ensures line.None? ==> rest == ""
    {
      var i := 0;
      while i < |rest| && rest[i] != LF
        invariant i <= |rest| && IndexOf(rest, LF) == i + IndexOf(rest[i..], LF)
      {
        assert rest[i..][1..] == rest[i + 1..];
        i := i + 1;
      }
      if i == |rest| {
        rest := "";
        return None;
      }
      line, rest := Some(rest[..i + 1]), rest[i + 1..];
    }

    /** The loop that gathers the lines of an event. */
    method Read() returns (e: Option<Event>)
      modifies this
      ensures (e, rest) == ReadEvent(old(rest), Draft("", []))
    {
      var name, data: seq<string> := "", [];
      while true
        invariant ReadEvent(old(rest), Draft("", [])) == ReadEvent(rest, Draft(name, data))
        decreases |rest|
      {
        var raw := ReadString();
        if raw.None? {
          return None;
        }
        var line := TrimRight(raw.value, EndsLine);
        if line == "" {
          if name == "" && |data| == 0 {
            continue;
          }
          return Some(Event(name, Join(data)));
        }
        if line[0] == ':' {
          continue;
        }
        var (field, value, ok) := Cut(line, ':');
        if !ok {
          continue;
        }
        if value != "" && value[0] == ' ' {
          value := value[1..];
        }
        match field {
          case "event" => name := value;
          case "data" => data := data + [value];
          case _ =>
        }
      }
    }
  }

  // --------------------------------------------------------------------------- the writer

  // Every line feed is followed by the field name again.
  function Prefixed(text: string, field: string): string {
    if text == "" then "" else (if text[0] == LF then [LF] + field else [text[0]]) + Prefixed(text[1..], field)
  }

  function WriteEvent(text: string): string { "event: message\ndata: " + Prefixed(text, "data: ") + "\n\n" }

  // The response stream of a session; every event is flushed before the next one is written.
  class Writer {
    var out: string

    constructor ()
      ensures out == ""
    {
      out := "";
    }

    method Write(text: string)
      modifies this
      ensures out == old(out) + WriteEvent(text)
    {
      var data := "";
      assert "" + Prefixed(text[0..], "data: ") == Prefixed(text, "data: ") && text[0..] == text;
      for i := 0 to |text|
        invariant Prefixed(text, "data: ") == data + Prefixed(text[i..], "data: ")
      {
        var c := if text[i] == LF then [LF] + "data: " else [text[i]];
        assert text[i..][1..] == text[i + 1..];
        assert data + (c + Prefixed(text[i + 1..], "data: ")) == data + c + Prefixed(text[i + 1..], "data: ");
        data := data + c;
      }
      assert data + "" == data;
      out := out + ("event: message\ndata: " + data + "\n\n");
    }
  }

  function WriteAll(texts: seq<string>): string {
    if texts == [] then "" else WriteEvent(texts[0]) + WriteAll(texts[1..])
  }

  // ------------------------------------------------------------------------ the round trip

  // What the reader makes of a text: carriage returns at the ends of its lines are lost.
  function WithoutCR(lines: seq<string>): seq<string> {
    seq(|lines|, i requires 0 <= i < |lines| => TrimRight(lines[i], EndsLine))
  }

  function Received(text: string): string { Join(WithoutCR(Split(text))) }

  predicate EndsInCR(line: string) { line != "" && line[|line| - 1] == CR }

  // The data lines of an event, each with its field name.
  function DataLines(lines: seq<string>, field: string): string {
    if lines == [] then "" else field + lines[0] + [LF] + DataLines(lines[1..], field)
  }

  lemma {:induction false} PrefixedLines(text: string, field: string)
    ensures field + Prefixed(text, field) + [LF] == DataLines(Split(text), field)
    decreases |text|
  {
    hide Prefixed, DataLines, Split;
    var i := IndexOf(text, LF);
    if i < |text| {
      var first, rest := text[..i], text[i + 1..];
      FirstLine(text, i, field);
      PrefixedLines(rest, field);
      var more := Prefixed(rest, field);
      assert field + (first + ([LF] + field + more)) + [LF] == field + first + [LF] + (field + more + [LF]);
    } else {
      LastLine(text, field);
    }
  }

  lemma FirstLine(text: string, i: nat, field: string)
    requires i == IndexOf(text, LF) < |text|
    ensures Prefixed(text, field) == text[..i] + ([LF] + field + Prefixed(text[i + 1..], field))
    ensures DataLines(Split(text), field) == field + text[..i] + [LF] + DataLines(Split(text[i + 1..]), field)
  {
    hide IndexOf;
    PrefixedPlain(text, i, field);
    assert text[i..][1..] == text[i + 1..];
    assert Split(text)[1..] == Split(text[i + 1..]);
  }

  lemma LastLine(text: string, field: string)
    requires LF !in text
    ensures field + Prefixed(text, field) + [LF] == DataLines(Split(text), field)
  {
    PrefixedPlain(text, |text|, field);
    assert text[|text|..] == "" && text[..|text|] == text;
    assert Split(text) == [text] && Split(text)[1..] == [];
  }

  lemma {:induction false} PrefixedPlain(text: string, i: nat, field: string)
    requires i <= |text| && LF !in text[..i]
    ensures Prefixed(text, field) == text[..i] + Prefixed(text[i..], field)
  {
    if i == 0 {
      assert text[0..] == text;
    } else {
      assert text[..i][0] == text[0] && text[1..][..i - 1] == text[..i][1..] && text[1..][i - 1..] == text[i..];
      PrefixedPlain(text[1..], i - 1, field);
      assert text[..i] == [text[0]] + text[..i][1..];
    }
  }

  lemma NextLineIs(line: string, rest: string)
    requires LF !in line
    ensures NextLine(line + [LF] + rest) == Some((TrimRight(line, EndsLine), rest))
  {
    IndexOfFirst(line, LF, rest);
    var s := line + [LF] + rest;
    assert s[..|line| + 1] == line + [LF] && s[|line| + 1..] == rest;
    assert (line + [LF])[..|line|] == line;
  }

  lemma TrimmedTail(front: string, line: string)
    requires front != "" && !EndsLine(front[|front| - 1])
    ensures TrimRight(front + line, EndsLine) == front + TrimRight(line, EndsLine)
  {
    var tail := TrimRightSplit(line, EndsLine);
    var kept := TrimRight(line, EndsLine);
    assert front + line == (front + kept) + tail;
    TrimRightDrop(front + kept, tail, EndsLine);
  }

  lemma {:induction false} ReadData(lines: seq<string>, field: string, rest: string, d: Draft)
    requires NoBreaks(lines)
    requires field == "data: "
    ensures ReadEvent(DataLines(lines, field) + rest, d) == ReadEvent(rest, d.(data := d.data + WithoutCR(lines)))
  {
    if lines == [] {
      assert DataLines(lines, field) + rest == rest && d.data + WithoutCR(lines) == d.data;
    } else {
      hide TrimRight, ReadEvent;
      var more := DataLines(lines[1..], field) + rest;
      assert DataLines(lines, field) + rest == field + lines[0] + [LF] + more;
      ReadDataLine(lines[0], field, more, d);
      var value := TrimRight(lines[0], EndsLine);
      ReadData(lines[1..], field, rest, d.(data := d.data + [value]));
      assert d.data + [value] + WithoutCR(lines[1..]) == d.data + WithoutCR(lines);
    }
  }

  lemma ReadDataLine(line: string, field: string, more: string, d: Draft)
    requires LF !in line && field == "data: "
    ensures ReadEvent(field + line + [LF] + more, d) == ReadEvent(more, d.(data := d.data + [TrimRight(line, EndsLine)]))
  {
    hide TrimRight, FieldOf, NextLine, Join;
    NextLineIs(field + line, more);
    TrimmedTail(field, line);
    DataField(TrimRight(line, EndsLine));
  }

  lemma DataField(value: string)
    ensures FieldOf("data: " + value) == Some(("data", value)) && "data: " + value != ""
  {
    assert "data: " + value == "data" + [':'] + (" " + value);
    CutFirst("data", ':', " " + value);
  }

  lemma EventField()
    ensures FieldOf("event: message") == Some(("event", "message")) && TrimRight("event: message", EndsLine) == "event: message"
  {
    hide TrimRight, Cut;
    assert "event: message" == "event" + [':'] + " message";
    CutFirst("event", ':', " message");
    TrimRightDrop("event: message", "", EndsLine);
    assert "event: message" + "" == "event: message";
  }

  lemma ReadWritten(text: string, rest: string)
    ensures ReadEvent(WriteEvent(text) + rest, Draft("", [])) == (Some(Event("message", Received(text))), rest)
  {
    hide FieldOf, TrimRight, Prefixed, DataLines, NextLine, Join;
    var field := "data: ";
    var data := DataLines(Split(text), field);
    PrefixedLines(text, field);
    SplitNoBreaks(text);
    assert WriteEvent(text) + rest == "event: message" + [LF] + (data + ([LF] + rest));
    NextLineIs("event: message", data + ([LF] + rest));
    EventField();
    ReadData(Split(text), field, [LF] + rest, Draft("message", []));
    NextLineIs("", rest);
    assert "" + [LF] + rest == [LF] + rest;
    assert [] + WithoutCR(Split(text)) == WithoutCR(Split(text));
    assert TrimRight("", EndsLine) == "" by { TrimRightDrop("", "", EndsLine); assert "" + "" == ""; }
  }

  function Messages(texts: seq<string>): seq<Event> {
    seq(|texts|, i requires 0 <= i < |texts| => Event("message", Received(texts[i])))
  }

  /** Reading what was written gives an event for each text, in order, and then the end of the stream. */
  lemma {:induction false} ReadAllWritten(texts: seq<string>)
    ensures ReadAll(WriteAll(texts)) == Messages(texts)
  {
    if texts == [] {
      assert NextLine("").None?;
    } else {
      hide ReadEvent, WriteEvent, Messages;
      ReadWritten(texts[0], WriteAll(texts[1..]));
      ReadAllWritten(texts[1..]);
      MessagesMore(texts);
    }
  }

  lemma MessagesMore(texts: seq<string>)
    requires texts != []
    ensures Messages(texts) == [Event("message", Received(texts[0]))] + Messages(texts[1..])
  {
  }

  lemma TrimKeeps(line: string)
    requires LF !in line
    ensures TrimRight(line, EndsLine) == line <==> !EndsInCR(line)
  {
    if EndsInCR(line) {
      TrimShorter(line[..|line| - 1]);
    }
  }

  lemma {:induction false} TrimShorter(line: string)
    ensures |TrimRight(line, EndsLine)| <= |line|
  {
    if line != "" && EndsLine(line[|line| - 1]) {
      TrimShorter(line[..|line| - 1]);
    }
  }

  /** A text is received unchanged exactly if none of its lines ends in a carriage return. */
  lemma ReceivedIff(text: string)
    ensures Received(text) == text <==> forall i :: 0 <= i < |Split(text)| ==> !EndsInCR(Split(text)[i])
  {
    hide TrimRight, Split, Join;
    var lines := Split(text);
    var kept := WithoutCR(lines);
    JoinSplit(text);
    SplitNoBreaks(text);
    forall i | 0 <= i < |lines| ensures kept[i] == lines[i] <==> !EndsInCR(lines[i]) {
      TrimKeeps(lines[i]);
    }
    forall i | 0 <= i < |kept| ensures LF !in kept[i] {
      var tail := TrimRightSplit(lines[i], EndsLine);
      assert forall c :: c in kept[i] ==> c in kept[i] + tail;
    }
    if Received(text) == text {
      SplitJoin(kept);
    } else {
      assert kept != lines;
    }
  }

  // ------------------------------------------------------------- waiting for a response

  datatype Kind = Request | Notification | Response(id: string)

  datatype Outcome = Answer(text: string) | Malformed | StreamEnded

  // An event ends the wait: its data is no message, or the response waited for.
  predicate Ends(kind: string -> Option<Kind>, want: string, e: Event) {
    TrimSpace(e.data) != "" && (kind(e.data).None? || kind(e.data).value == Response(want))
  }

  // How many events are passed over.
  function Passed(kind: string -> Option<Kind>, want: string, events: seq<Event>): (n: nat)
    ensures n <= |events| && (n < |events| ==> Ends(kind, want, events[n]))
    ensures forall i :: 0 <= i < n ==> !Ends(kind, want, events[i])
  {
    if events == [] || Ends(kind, want, events[0]) then 0 else 1 + Passed(kind, want, events[1..])
  }

  // The notifications, in order.
  function Notes(kind: string -> Option<Kind>, events: seq<Event>): seq<string> {
    if events == [] then []
    else
      var e := events[|events| - 1];
      Notes(kind, events[..|events| - 1])
      + if TrimSpace(e.data) != "" && kind(e.data) == Some(Notification) then [e.data] else []
  }

  // An event that carries a notification.
  predicate Carries(kind: string -> Option<Kind>, e: Event) {
    (exists i :: 0 <= i < |e.data| && !IsSpace(e.data[i])) && kind(e.data) == Some(Notification)
  }

  lemma BlankIff(s: string)
    ensures TrimSpace(s) == "" <==> AllCut(s, IsSpace)
  {
    var lead, tail := TrimSplit(s, IsSpace);
    if AllCut(s, IsSpace) {
      assert s + "" + "" == s;
      TrimPadded(s, "", "", IsSpace);
    }
  }

  lemma CarriesIff(kind: string -> Option<Kind>, e: Event)
    ensures Carries(kind, e) <==> TrimSpace(e.data) != "" && kind(e.data) == Some(Notification)
  {
    hide TrimSpace;
    BlankIff(e.data);
  }

  // The positions of the events that carry the notes.
  predicate NotedAt(kind: string -> Option<Kind>, events: seq<Event>, notes: seq<string>, at: seq<nat>) {
    && |at| == |notes|
    && (forall k :: 0 <= k < |at| ==> at[k] < |events| && Carries(kind, events[at[k]]) && notes[k] == events[at[k]].data)
    && (forall k, m :: 0 <= k < m < |at| ==> at[k] < at[m])
    && (forall i :: 0 <= i < |events| && Carries(kind, events[i]) ==> exists k :: 0 <= k < |at| && at[k] == i)
  }

  lemma NotedMore(kind: string -> Option<Kind>, events: seq<Event>, e: Event, notes: seq<string>, at: seq<nat>)
    requires NotedAt(kind, events, notes, at)
    ensures !Carries(kind, e) ==> NotedAt(kind, events + [e], notes, at)
    ensures Carries(kind, e) ==> NotedAt(kind, events + [e], notes + [e.data], at + [|events|])
  {
    hide Carries;
    forall i | 0 <= i < |events| && Carries(kind, events[i]) ensures exists k :: 0 <= k < |at| && at[k] == i && (at + [|events|])[k] == i {
      var k :| 0 <= k < |at| && at[k] == i;
      assert (at + [|events|])[k] == i;
    }
    assert (at + [|events|])[|at|] == |events|;
  }

  /** The notes are the data of exactly the events that carry notifications, in their order. */
  lemma {:induction false} NotesAt(kind: string -> Option<Kind>, events: seq<Event>) returns (at: seq<nat>)
    ensures NotedAt(kind, events, Notes(kind, events), at)
  {
    at := [];
    if events != [] {
      hide TrimSpace, Carries, NotedAt;
      var n := |events| - 1;
      CarriesIff(kind, events[n]);
      var before := NotesAt(kind, events[..n]);
      NotedMore(kind, events[..n], events[n], Notes(kind, events[..n]), before);
      assert events[..n] + [events[n]] == events;
      assert Notes(kind, events[..n]) + [] == Notes(kind, events[..n]);
      at := if Carries(kind, events[n]) then before + [n] else before;
    }
  }

  /** What a waiting caller passes on: the notifications before the event that ends the wait, and nothing else. */
  lemma NotesAre(kind: string -> Option<Kind>, want: string, events: seq<Event>, text: string)
    ensures var n := Passed(kind, want, events);
            text in Notes(kind, events[..n]) <==> exists i :: 0 <= i < n && Carries(kind, events[i]) && events[i].data == text
  {
    hide Passed, Carries;
    var before := events[..Passed(kind, want, events)];
    var at := NotesAt(kind, before);
    if text in Notes(kind, before) {
      var k :| 0 <= k < |at| && Notes(kind, before)[k] == text;
      assert before[at[k]] == events[at[k]];
    }
    if i :| 0 <= i < |before| && Carries(kind, events[i]) && events[i].data == text {
      assert before[i] == events[i];
      var k :| 0 <= k < |at| && at[k] == i;
      assert Notes(kind, before)[k] == text;
    }
  }

  function OutcomeOf(kind: string -> Option<Kind>, want: string, events: seq<Event>): Outcome {
    var n := Passed(kind, want, events);
    if n == |events| then StreamEnded else if kind(events[n].data).None? then Malformed else Answer(events[n].data)
  }

  // An event that a caller passes over: no data but white space, or a message that is not the response waited for.
  predicate PassedOver(kind: string -> Option<Kind>, want: string, e: Event) {
    AllCut(e.data, IsSpace) || (kind(e.data).Some? && kind(e.data) != Some(Response(want)))
  }

  /** Waiting ends with the response if and only if nothing but events to pass over comes before it, and fails likewise at data that is no message. */
  lemma OutcomeIff(kind: string -> Option<Kind>, want: string, events: seq<Event>)
    ensures forall text :: OutcomeOf(kind, want, events) == Answer(text) <==>
              exists i :: 0 <= i < |events| && events[i].data == text && !AllCut(text, IsSpace) && kind(text) == Some(Response(want))
                          && forall j :: 0 <= j < i ==> PassedOver(kind, want, events[j])
    ensures OutcomeOf(kind, want, events) == Malformed <==>
              exists i :: 0 <= i < |events| && !AllCut(events[i].data, IsSpace) && kind(events[i].data).None?
                          && forall j :: 0 <= j < i ==> PassedOver(kind, want, events[j])
    ensures OutcomeOf(kind, want, events) == StreamEnded <==> forall j :: 0 <= j < |events| ==> PassedOver(kind, want, events[j])
  {
    hide TrimSpace, AllCut;
    forall e: Event ensures Ends(kind, want, e) <==> !PassedOver(kind, want, e) {
      BlankIff(e.data);
    }
    var n := Passed(kind, want, events);
    hide Ends, PassedOver, Passed;
    if n < |events| {
      BlankIff(events[n].data);
      EndsAs(kind, want, events[n]);
    }
  }

  lemma EndsAs(kind: string -> Option<Kind>, want: string, e: Event)
    requires Ends(kind, want, e)
    ensures TrimSpace(e.data) != "" && (kind(e.data).None? || kind(e.data) == Some(Response(want)))
  {
  }

  lemma NextOf(s: string)
    ensures var (e, rest) := ReadEvent(s, Draft("", []));
            ReadAll(s) == if e.None? then [] else [e.value] + ReadAll(rest)
  {
  }

  /**
    Waiting on a response stream returns the first response with the wanted id, after passing on
    the notifications before it, in order, and nothing else.
  */
  method AwaitResponse(reader: Reader, kind: string -> Option<Kind>, want: string) returns (outcome: Outcome, notes: seq<string>)
    modifies reader
    ensures outcome == OutcomeOf(kind, want, ReadAll(old(reader.rest)))
    ensures notes == Notes(kind, ReadAll(old(reader.rest))[..Passed(kind, want, ReadAll(old(reader.rest)))])
    ensures outcome.Answer? ==> kind(outcome.text) == Some(Response(want))
  {
    hide TrimSpace;
    ghost var all := ReadAll(reader.rest);
    ghost var n := 0;
    notes := [];
    while true
      invariant n <= |all| && all[n..] == ReadAll(reader.rest)
      invariant forall i :: 0 <= i < n ==> !Ends(kind, want, all[i])
      invariant notes == Notes(kind, all[..n])
      decreases |reader.rest|
    {
      NextOf(reader.rest);
      var event := reader.Read();
      if event.None? {
        StopsAt(kind, want, all, n);
        return StreamEnded, notes;
      }
      assert all[n] == all[n..][0] == event.value && all[n..][1..] == all[n + 1..];
      assert all[..n + 1][..n] == all[..n];
      if TrimSpace(event.value.data) != "" {
        var message := kind(event.value.data);
        if message.None? {
          StopsAt(kind, want, all, n);
          return Malformed, notes;
        }
        match message.value {
          case Request =>
          case Notification => notes := notes + [event.value.data];
          case Response(id) =>
            if id == want {
              StopsAt(kind, want, all, n);
              return Answer(event.value.data), notes;
            }
        }
      }
      n := n + 1;
    }
  }

  lemma StopsAt(kind: string -> Option<Kind>, want: string, events: seq<Event>, n: nat)
    requires n <= |events| && (n < |events| ==> Ends(kind, want, events[n]))
    requires forall i :: 0 <= i < n ==> !Ends(kind, want, events[i])
    ensures Passed(kind, want, events) == n
  {
    var m := Passed(kind, want, events);
    if m < n {
      assert false;
    }
  }

  // ------------------------------------------------------------------- the standard's stream

  // A stream written as lines, each with its end, and a last line without one.
  datatype End = OnlyLF | CRLF

  datatype Part = Part(line: string, end: End)

  function EndText(e: End): string { if e == OnlyLF then [LF] else [CR, LF] }

  function StreamOf(parts: seq<Part>, tail: string): string {
    if parts == [] then tail else parts[0].line + EndText(parts[0].end) + StreamOf(parts[1..], tail)
  }

  predicate NoEnds(line: string) { forall i :: 0 <= i < |line| ==> !EndsLine(line[i]) }

  // Lines as the standard splits a stream: at CRLF, at LF and at CR.  The rest without an end is dropped.
  function StdLines(s: string, line: string): seq<string> {
    if s == "" then []
    else if s[0] == CR then [line] + StdLines(if |s| > 1 && s[1] == LF then s[2..] else s[1..], "")
    else if s[0] == LF then [line] + StdLines(s[1..], "")
    else StdLines(s[1..], line + [s[0]])
  }

  // The event type buffer and the data buffer.
  datatype Buffers = Buffers(kind: string, data: string)

  function StdField(b: Buffers, field: string, value: string): Buffers {
    if field == "event" then b.(kind := value)
    else if field == "data" then b.(data := b.data + value + [LF])
    else b
  }

  function StdLine(b: Buffers, line: string): Buffers {
    var colon := IndexOf(line, ':');
    if line == "" || line[0] == ':' then b
    else if colon < |line| then
      var value := line[colon + 1..];
      StdField(b, line[..colon], if value != "" && value[0] == ' ' then value[1..] else value)
    else StdField(b, line, "")
  }

  // Dispatching on blank lines; an event without data is dropped.
  function StdEvents(lines: seq<string>, b: Buffers): seq<Event> {
    if lines == [] then []
    else if lines[0] != "" then StdEvents(lines[1..], StdLine(b, lines[0]))
    else if b.data == "" then StdEvents(lines[1..], Buffers("", ""))
    else
      [Event(if b.kind == "" then "message" else b.kind, b.data[..|b.data| - 1])] + StdEvents(lines[1..], Buffers("", ""))
  }

  // The default event name is the standard's, not the reader's.
  function Named(events: seq<Event>): seq<Event> {
    seq(|events|, i requires 0 <= i < |events| => events[i].(name := DefaultName(events[i].name)))
  }

  // ------------------------------------------------------------------------ one block of lines

  function DefaultName(name: string): string { if name == "" then "message" else name }

  // What the reader holds after the lines of a block, none of them blank.
  function DraftOf(block: seq<string>): Draft {
    if block == [] then Draft("", []) else Take(DraftOf(block[..|block| - 1]), block[|block| - 1])
  }

  // What the standard holds.
  function StdOf(block: seq<string>): Buffers {
    if block == [] then Buffers("", "") else StdLine(StdOf(block[..|block| - 1]), block[|block| - 1])
  }

  function ReaderEvent(block: seq<string>): Option<Event> {
    var d := DraftOf(block);
    if NoEvent(d) then None else Some(Event(DefaultName(d.name), Join(d.data)))
  }

  function StdEvent(block: seq<string>): Option<Event> {
    var b := StdOf(block);
    if b.data == "" then None else Some(Event(DefaultName(b.kind), b.data[..|b.data| - 1]))
  }

  // The event name of a block: the last one set; a field name alone sets it to nothing, if that counts.
  function EventName(block: seq<string>, bare: bool): string {
    if block == [] then ""
    else
      var line, before := block[|block| - 1], EventName(block[..|block| - 1], bare);
      var f := FieldOf(line);
      if f.Some? && f.value.0 == "event" then f.value.1 else if bare && line == "event" then "" else before
  }

  // The data lines of a block, with the lines that are the field name alone or without them.
  function DataOf(block: seq<string>, bare: bool): seq<string> {
    if block == [] then []
    else
      var line, before := block[|block| - 1], DataOf(block[..|block| - 1], bare);
      var f := FieldOf(line);
      before + (if f.Some? && f.value.0 == "data" then [f.value.1] else if bare && line == "data" then [""] else [])
  }

  // How many lines of the block are the field name data alone.
  function BareData(block: seq<string>): nat {
    if block == [] then 0 else BareData(block[..|block| - 1]) + if block[|block| - 1] == "data" then 1 else 0
  }

  // The reader and the standard see the same event.
  predicate Alike(block: seq<string>) {
    var name := EventName(block, false);
    if BareData(block) == 0 && DataOf(block, false) == [] then name == ""
    else
      && DefaultName(name) == DefaultName(EventName(block, true))
      && (BareData(block) == 0 || (BareData(block) == 1 && DataOf(block, false) == [] && name != ""))
  }

  predicate Block(lines: seq<string>) { forall i :: 0 <= i < |lines| ==> lines[i] != "" && NoEnds(lines[i]) }

  // Both sides after one more line.
  lemma LineOnBoth(d: Draft, b: Buffers, line: string)
    requires line != ""
    ensures var f := FieldOf(line);
            && (f.Some? ==> line != "event" && line != "data")
            && Take(d, line).name == (if f.Some? && f.value.0 == "event" then f.value.1 else d.name)
            && Take(d, line).data == d.data + (if f.Some? && f.value.0 == "data" then [f.value.1] else [])
            && StdLine(b, line).kind == (if f.Some? && f.value.0 == "event" then f.value.1 else if line == "event" then "" else b.kind)
            && StdLine(b, line).data == b.data + (if f.Some? && f.value.0 == "data" then f.value.1 + [LF] else if line == "data" then [LF] else [])
  {
    assert ':' !in "event" && ':' !in "data";
    if ':' !in line {
      assert IndexOf(line, ':') == |line|;
    }
  }

  lemma BufferMore(data: seq<string>, more: string)
    ensures Buffer(data + [more]) == Buffer(data) + more + [LF] && Buffer(data + []) == Buffer(data)
  {
    assert (data + [more])[..|data|] == data && data + [] == data;
  }

  lemma {:induction false} BlockHolds(block: seq<string>)
    requires Block(block)
    ensures DraftOf(block) == Draft(EventName(block, false), DataOf(block, false))
    ensures StdOf(block) == Buffers(EventName(block, true), Buffer(DataOf(block, true)))
  {
    if block != [] {
      hide Take, StdLine, FieldOf, Buffer;
      var n := |block| - 1;
      var init, line := block[..n], block[n];
      BlockHolds(init);
      LineOnBoth(DraftOf(init), StdOf(init), line);
      BufferMore(DataOf(init, true), "");
      if FieldOf(line).Some? {
        BufferMore(DataOf(init, true), FieldOf(line).value.1);
      }
      assert Buffer(DataOf(init, true)) + "" + [LF] == Buffer(DataOf(init, true)) + [LF];
    } else {
      EmptyBuffer();
    }
  }

  // A field name alone adds an empty data line for the standard.
  lemma {:induction false} DataCounts(block: seq<string>)
    requires Block(block)
    ensures |DataOf(block, true)| == |DataOf(block, false)| + BareData(block)
    ensures |Buffer(DataOf(block, true))| == |Buffer(DataOf(block, false))| + BareData(block)
    ensures BareData(block) == 0 ==> DataOf(block, true) == DataOf(block, false)
  {
    if block != [] {
      hide FieldOf, Buffer;
      var n := |block| - 1;
      var init, line := block[..n], block[n];
      DataCounts(init);
      LineOnBoth(Draft("", []), Buffers("", ""), line);
      BufferMore(DataOf(init, true), "");
      BufferMore(DataOf(init, false), "");
      if FieldOf(line).Some? {
        BufferMore(DataOf(init, true), FieldOf(line).value.1);
        BufferMore(DataOf(init, false), FieldOf(line).value.1);
      }
    }
  }

  /**
    The reader and the standard see the same event in a block exactly if it has neither data nor a
    name, or the final event names agree and either no line is the field name data alone, or one
    such line is all the data of a block with a name.
  */
  lemma BlockIff(block: seq<string>)
    requires Block(block)
    ensures ReaderEvent(block) == StdEvent(block) <==> Alike(block)
  {
    hide DraftOf, StdOf, EventName, DataOf, BareData, Buffer, Join;
    BlockHolds(block);
    DataCounts(block);
    var with, without := DataOf(block, true), DataOf(block, false);
    EmptyBuffer();
    if with != [] {
      BufferJoin(with);
      assert (Join(with) + [LF])[..|Join(with)|] == Join(with);
    }
    if without != [] {
      BufferJoin(without);
    } else {
      assert Join(without) == "" by { JoinNone(); }
    }
  }

  lemma JoinNone()
    ensures Join([]) == ""
  {
  }

  // Every block of the stream is alike on both sides.
  predicate Regular(parts: seq<Part>, block: seq<string>) {
    parts == [] ||
    var line := parts[0].line;
    && NoEnds(line)
    && (if line != "" then Regular(parts[1..], block + [line]) else Alike(block) && Regular(parts[1..], []))
  }

  // Reading on from a draft.
  function ReadRest(s: string, d: Draft): seq<Event> {
    var (e, rest) := ReadEvent(s, d);
    if e.None? then [] else [e.value] + ReadAll(rest)
  }

  // The data buffer of the standard holds each line of the draft with a line feed.
  function Buffer(data: seq<string>): string {
    if data == [] then "" else Buffer(data[..|data| - 1]) + data[|data| - 1] + [LF]
  }

  lemma {:induction false} BufferJoin(data: seq<string>)
    requires data != []
    ensures Buffer(data) == Join(data) + [LF]
  {
    if |data| > 1 {
      BufferJoin(data[..|data| - 1]);
      JoinMore(data[..|data| - 1], data[|data| - 1]);
      assert data == data[..|data| - 1] + [data[|data| - 1]];
    } else {
      assert data[..0] == [];
    }
  }

  lemma {:induction false} StdLinesOf(line: string, end: End, rest: string, front: string)
    requires NoEnds(line)
    ensures StdLines(line + EndText(end) + rest, front) == [front + line] + StdLines(rest, "")
  {
    var s := line + EndText(end) + rest;
    if line == "" {
      assert front + line == front;
      assert end == CRLF ==> s[2..] == rest;
      assert end == OnlyLF ==> s[1..] == rest;
    } else {
      assert s[1..] == line[1..] + EndText(end) + rest && s[0] == line[0] && !EndsLine(line[0]);
      StdLinesOf(line[1..], end, rest, front + [line[0]]);
      assert front + [line[0]] + line[1..] == front + line;
    }
  }

  lemma {:induction false} StdTail(tail: string, front: string)
    requires NoEnds(tail)
    ensures StdLines(tail, front) == []
  {
    if tail != "" {
      StdTail(tail[1..], front + [tail[0]]);
    }
  }

  lemma {:induction false} StdStream(parts: seq<Part>, tail: string)
    requires NoEnds(tail) && forall i :: 0 <= i < |parts| ==> NoEnds(parts[i].line)
    ensures |StdLines(StreamOf(parts, tail), "")| == |parts|
    ensures forall i :: 0 <= i < |parts| ==> StdLines(StreamOf(parts, tail), "")[i] == parts[i].line
  {
    if parts == [] {
      StdTail(tail, "");
    } else {
      StdStream(parts[1..], tail);
      StdLinesOf(parts[0].line, parts[0].end, StreamOf(parts[1..], tail), "");
      assert "" + parts[0].line == parts[0].line;
    }
  }

  lemma NextPart(part: Part, rest: string)
    requires NoEnds(part.line)
    ensures NextLine(part.line + EndText(part.end) + rest) == Some((part.line, rest))
  {
    var line := if part.end == CRLF then part.line + [CR] else part.line;
    assert part.line + EndText(part.end) + rest == line + [LF] + rest;
    NextLineIs(line, rest);
    if part.end == CRLF {
      TrimRightDrop(part.line, [CR], EndsLine);
    } else {
      assert part.line + [] == part.line;
      TrimRightDrop(part.line, [], EndsLine);
    }
  }

  lemma NoLineFeed(tail: string)
    requires NoEnds(tail)
    ensures NextLine(tail) == None
  {
  }

  lemma NamedMore(e: Event, events: seq<Event>)
    ensures Named([e] + events) == [e.(name := DefaultName(e.name))] + Named(events)
  {
  }

  lemma OneMoreLine(block: seq<string>, line: string)
    ensures DraftOf(block + [line]) == Take(DraftOf(block), line) && StdOf(block + [line]) == StdLine(StdOf(block), line)
  {
    assert (block + [line])[..|block|] == block;
  }

  lemma {:induction false} AgreeFrom(parts: seq<Part>, tail: string, block: seq<string>, lines: seq<string>)
    requires NoEnds(tail) && Block(block) && Regular(parts, block)
    requires |lines| == |parts| && forall i :: 0 <= i < |parts| ==> lines[i] == parts[i].line
    ensures Named(ReadRest(StreamOf(parts, tail), DraftOf(block))) == StdEvents(lines, StdOf(block))
  {
    hide NextLine, Take, StdLine, Alike, DraftOf, StdOf;
    if parts == [] {
      NoLineFeed(tail);
    } else {
      var line, rest := parts[0].line, StreamOf(parts[1..], tail);
      NextPart(parts[0], rest);
      if line != "" {
        OneMoreLine(block, line);
        AgreeFrom(parts[1..], tail, block + [line], lines[1..]);
      } else {
        AgreeFrom(parts[1..], tail, [], lines[1..]);
        EmptyBlock();
        AgreeBlank(StreamOf(parts, tail), rest, block, lines);
      }
    }
  }

  lemma EmptyBlock()
    ensures DraftOf([]) == Draft("", []) && StdOf([]) == Buffers("", "")
  {
  }

  // A blank line dispatches the same event on both sides.
  lemma AgreeBlank(s: string, rest: string, block: seq<string>, lines: seq<string>)
    requires NextLine(s) == Some(("", rest)) && Block(block) && Alike(block) && lines != [] && lines[0] == ""
    requires Named(ReadRest(rest, Draft("", []))) == StdEvents(lines[1..], Buffers("", ""))
    ensures Named(ReadRest(s, DraftOf(block))) == StdEvents(lines, StdOf(block))
  {
    hide NextLine, Join, Named, Alike, DraftOf, StdOf;
    BlockIff(block);
    var d := DraftOf(block);
    assert ReadRest(rest, Draft("", [])) == ReadAll(rest);
    if NoEvent(d) {
      assert ReadRest(s, d) == ReadAll(rest);
    } else {
      NamedMore(Event(d.name, Join(d.data)), ReadAll(rest));
      assert ReadRest(s, d) == [Event(d.name, Join(d.data))] + ReadAll(rest);
    }
  }

  lemma EmptyBuffer()
    ensures Buffer([]) == ""
  {
  }

  lemma {:induction false} RegularNoEnds(parts: seq<Part>, block: seq<string>, i: nat)
    requires Regular(parts, block) && i < |parts|
    ensures NoEnds(parts[i].line)
  {
    hide Alike;
    if i > 0 {
      RegularNoEnds(parts[1..], if parts[0].line != "" then block + [parts[0].line] else [], i - 1);
    }
  }

  /**
    On streams whose lines end in LF or CRLF the reader finds the events of the standard, if every
    block is alike on both sides.
  */
  lemma AgreesWithStandard(parts: seq<Part>, tail: string)
    requires NoEnds(tail) && Regular(parts, [])
    ensures Named(ReadAll(StreamOf(parts, tail))) == StdEvents(StdLines(StreamOf(parts, tail), ""), Buffers("", ""))
  {
    forall i | 0 <= i < |parts| ensures NoEnds(parts[i].line) {
      RegularNoEnds(parts, [], i);
    }
    StdStream(parts, tail);
    AgreeFrom(parts, tail, [], StdLines(StreamOf(parts, tail), ""));
    assert ReadRest(StreamOf(parts, tail), Draft("", [])) == ReadAll(StreamOf(parts, tail));
  }

  /** With a colon in every line of a block, and data if it names an event, the block is alike. */
  lemma WithColonsAlike(block: seq<string>)
    requires Block(block) && (forall i :: 0 <= i < |block| ==> ':' in block[i]) && (EventName(block, false) != "" ==> DataOf(block, false) != [])
    ensures Alike(block)
  {
    hide DataOf;
    NoneBare(block);
  }

  lemma {:induction false} NoneBare(block: seq<string>)
    requires forall i :: 0 <= i < |block| ==> ':' in block[i]
    ensures BareData(block) == 0 && EventName(block, true) == EventName(block, false)
  {
    if block != [] {
      NoneBare(block[..|block| - 1]);
      assert ':' !in "data" && ':' !in "event";
    }
  }

  /**
    Where the reader departs from the standard: an event without data is seen, and a field name
    alone is not.  One of each can make up for the other.
  */
  lemma DepartsFromStandard()
    ensures ReaderEvent(["event: ping"]) == Some(Event("ping", "")) && StdEvent(["event: ping"]) == None
    ensures ReaderEvent(["data"]) == None && StdEvent(["data"]) == Some(Event("message", ""))
    ensures ReaderEvent(["event: ping", "data"]) == StdEvent(["event: ping", "data"]) == Some(Event("ping", ""))
  {
    hide FieldOf, StdLine;
    PingField();
    assert ["event: ping"][..0] == [] && ["data"][..0] == [] && ["event: ping", "data"][..1] == ["event: ping"];
    assert DraftOf(["event: ping"]) == Draft("ping", []) && DraftOf(["data"]) == Draft("", []);
    assert DraftOf(["event: ping", "data"]) == Take(Draft("ping", []), "data") == Draft("ping", []);
    assert StdOf(["event: ping"]) == Buffers("ping", "") && StdOf(["data"]) == Buffers("", [LF]);
    assert StdOf(["event: ping", "data"]) == Buffers("ping", [LF]);
    JoinNone();
  }

  lemma PingField()
    ensures FieldOf("event: ping") == Some(("event", "ping")) && FieldOf("data").None?
    ensures StdLine(Buffers("", ""), "event: ping") == Buffers("ping", "")
    ensures forall b :: StdLine(b, "data") == b.(data := b.data + [LF])
  {
    hide IndexOf, Cut;
    var line := "event: ping";
    assert line == "event" + [':'] + " ping";
    CutFirst("event", ':', " ping");
    IndexOfFirst("event", ':', " ping");
    assert line[..5] == "event" && line[6..] == " ping" && " ping"[1..] == "ping";
    assert ':' !in "data";
    assert IndexOf("data", ':') == 4;
    forall b ensures StdLine(b, "data") == b.(data := b.data + [LF]) {
      assert b.data + "" + [LF] == b.data + [LF];
    }
  }
}
