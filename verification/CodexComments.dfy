/**
  Comments in a Codex file: where a value ends and its comment starts, that comments and blank lines
  do not change what is read, and which files are refused.
*/
module CodexComments {
  import opened Options
  import opened Text
  import opened Lines
  import opened Servers
  import opened Codex

  // ----------------------------------------------------------------- the end of a value

  // A hash that starts a comment: not inside a string and not after an escaping backslash.
  predicate Hash(s: string, i: nat) { i < |s| && s[i] == '#' && !Quoted(s, i) && !Escaped(s, i) }

  // No comment in it, and no string left open.
  predicate Closed(s: string) { !Quoted(s, |s|) && forall i :: 0 <= i < |s| ==> !Hash(s, i) }

  lemma {:induction false} FirstHash(s: string, i: nat)
    requires i <= |s|
    ensures var k := CommentAt(s[i..], Quoted(s, i), Escaped(s, i));
            && (k.Some? ==> Hash(s, i + k.value) && forall j :: i <= j < i + k.value ==> !Hash(s, j))
            && (k.None? ==> forall j :: i <= j < |s| ==> !Hash(s, j))
    decreases |s| - i
  {
    if i < |s| {
      FirstHash(s, i + 1);
      assert s[i..][1..] == s[i + 1..] && s[i..][0] == s[i];
    }
  }

  /** A value ends before the first hash that starts a comment; without one it is the whole text. */
  lemma StripIs(value: string)
    ensures (forall j :: 0 <= j < |value| ==> !Hash(value, j)) ==> StripComment(value) == value
    ensures forall k: nat :: Hash(value, k) && (forall j :: 0 <= j < k ==> !Hash(value, j)) ==>
              StripComment(value) == TrimSpace(value[..k])
  {
    hide CommentAt, Quoted, Escaped, TrimSpace;
    FirstHash(value, 0);
    assert value[0..] == value;
    assert !Quoted(value, 0) && !Escaped(value, 0) by { AtStart(value); }
    var at := CommentAt(value, false, false);
    forall k: nat | Hash(value, k) && forall j :: 0 <= j < k ==> !Hash(value, j)
      ensures at == Some(k)
    {
    }
  }

  lemma AtStart(s: string)
    ensures !Quoted(s, 0) && !Escaped(s, 0)
  {
  }

  // What is inside a string depends on what comes before.
  lemma {:induction false} SamePrefix(s: string, t: string, i: nat)
    requires i <= |s| && i <= |t| && s[..i] == t[..i]
    ensures Quoted(s, i) == Quoted(t, i) && Escaped(s, i) == Escaped(t, i)
  {
    if i > 0 {
      assert s[..i - 1] == s[..i][..i - 1] && t[..i - 1] == t[..i][..i - 1];
      assert s[i - 1] == s[..i][i - 1] == t[..i][i - 1] == t[i - 1];
      SamePrefix(s, t, i - 1);
    }
  }

  lemma ClosedPrefix(q: string, tail: string)
    ensures Quoted(q + tail, |q|) == Quoted(q, |q|) && Escaped(q + tail, |q|) == Escaped(q, |q|)
    ensures forall i :: 0 <= i < |q| ==> (Hash(q + tail, i) <==> Hash(q, i))
  {
    hide Quoted, Escaped;
    var s := q + tail;
    SamePrefix(s, q, |q|);
    forall i: nat | i < |q| ensures Hash(s, i) <==> Hash(q, i) {
      assert s[..i] == q[..i];
      SamePrefix(s, q, i);
    }
  }

  // White space does not open a string.
  lemma {:induction false} ClosedSpace(q: string, blank: string)
    requires AllCut(blank, IsSpace)
    ensures Closed(q + blank) <==> Closed(q)
  {
    if blank == [] {
      assert q + blank == q;
    } else {
      var n := |blank| - 1;
      ClosedSpace(q, blank[..n]);
      var s := q + blank[..n];
      assert q + blank == s + [blank[n]];
      ClosedPrefix(s, [blank[n]]);
      assert IsSpace(blank[n]);
      assert !Hash(s + [blank[n]], |s|);
    }
  }

  /** A comment behind a value does not change it, and a hash inside a string is no comment. */
  lemma CommentIgnored(q: string, c: string)
    requires Closed(q)
    ensures TrimSpace(StripComment(q + " #" + c)) == TrimSpace(StripComment(q)) == TrimSpace(q)
  {
    hide StripComment, Trim;
    var s, t := q + " #" + c, q + " ";
    StripIs(q);
    assert s == q + (" #" + c);
    ClosedPrefix(q, " #" + c);
    assert s[|q|] == ' ' && s[|q| + 1] == '#';
    assert !Hash(s, |q|);
    assert Hash(s, |q| + 1);
    StripIs(s);
    assert s[..|q| + 1] == t;
    TrimBehind(q, " ", IsSpace);
    TrimTwice(q);
  }

  lemma TrimTwice(s: string)
    ensures TrimSpace(TrimSpace(s)) == TrimSpace(s)
  {
    var lead, tail := TrimSplit(s, IsSpace);
    TrimFixed(TrimSpace(s), IsSpace);
  }

  // ------------------------------------------------------------------ assignments

  lemma TrimmedLine(left: string, right: string)
    ensures TrimSpace(left + "=" + right) == TrimLeft(left, IsSpace) + "=" + TrimRight(right, IsSpace)
  {
    var lead := TrimLeftSplit(left, IsSpace);
    var tail := TrimRightSplit(right, IsSpace);
    var body := TrimLeft(left, IsSpace) + "=" + TrimRight(right, IsSpace);
    assert left + "=" + right == lead + body + tail;
    TrimPadded(lead, body, tail, IsSpace);
  }

  // The key as it is cut off, and the value before its comment is cut off.
  lemma CutTrimmed(left: string, right: string)
    requires '=' !in left
    ensures var t := TrimSpace(left + "=" + right);
            && Cut(t, '=') == (TrimLeft(left, IsSpace), TrimRight(right, IsSpace), true)
            && t != "" && t[0] == (if TrimLeft(left, IsSpace) == "" then '=' else TrimLeft(left, IsSpace)[0])
            && (!IsSpace(t[0]) && !IsSpace(t[|t| - 1]))
  {
    TrimmedLine(left, right);
    var lead := TrimLeftSplit(left, IsSpace);
    var tail := TrimRightSplit(right, IsSpace);
    assert forall ch :: ch in TrimLeft(left, IsSpace) ==> ch in lead + TrimLeft(left, IsSpace);
    CutFirst(TrimLeft(left, IsSpace), '=', TrimRight(right, IsSpace));
    hide TrimLeft, TrimRight, TrimSpace, Cut;
  }

  lemma CommentTrimmed(value: string, c: string)
    ensures TrimRight(value + " #" + c, IsSpace) == value + " #" + TrimRight(c, IsSpace)
  {
    var tail := TrimRightSplit(c, IsSpace);
    var s := value + " #" + TrimRight(c, IsSpace);
    assert value + " #" + c == s + tail;
    TrimRightDrop(s, tail, IsSpace);
  }

  lemma ValueTrimmed(value: string)
    requires Closed(value)
    ensures TrimSpace(StripComment(TrimRight(value, IsSpace))) == TrimSpace(value)
  {
    hide StripComment, Closed, Trim, TrimRight;
    var tail := TrimRightSplit(value, IsSpace);
    ClosedSpace(TrimRight(value, IsSpace), tail);
    CommentIgnored(TrimRight(value, IsSpace), "");
    TrimBehind(TrimRight(value, IsSpace), tail, IsSpace);
  }

  lemma SameField(x: Syntax, s: RawServer, sub: string, a: string, b: string)
    requires Cut(a, '=').2 && Cut(b, '=').2 && Cut(a, '=').0 == Cut(b, '=').0
    requires TrimSpace(StripComment(Cut(a, '=').1)) == TrimSpace(StripComment(Cut(b, '=').1))
    ensures SetField(x, s, sub, a) == SetField(x, s, sub, b)
  {
    hide Cut, TrimSpace, StripComment, ParseString;
  }

  /** An assignment sets the same with a comment behind it. */
  lemma AssignmentCommented(x: Syntax, s: RawServer, sub: string, key: string, value: string, c: string)
    requires '=' !in key && Closed(value)
    ensures Visit(x, s, sub, key + "=" + value + " #" + c) == Visit(x, s, sub, key + "=" + value)
  {
    hide TrimSpace, StripComment, Closed, Cut, TrimLeft, TrimRight, SetField;
    var commented := value + " #" + c;
    assert key + "=" + value + " #" + c == key + "=" + commented;
    CutTrimmed(key, value);
    CutTrimmed(key, commented);
    CommentTrimmed(value, c);
    CommentIgnored(value, TrimRight(c, IsSpace));
    ValueTrimmed(value);
    SameField(x, s, sub, TrimSpace(key + "=" + commented), TrimSpace(key + "=" + value));
  }

  /** A written line of a text or of an array sets the same with a comment behind it. */
  lemma WrittenCommented(x: Syntax, s: RawServer, sub: string, key: string, text: string, values: seq<string>, c: string)
    requires SyntaxFacts(x) && '=' !in key
    ensures Visit(x, s, sub, Assign(x, key, text) + " #" + c) == Visit(x, s, sub, Assign(x, key, text))
    ensures values != [] ==>
              Visit(x, s, sub, key + " = " + x.formatArray(values) + " #" + c) == Visit(x, s, sub, key + " = " + x.formatArray(values))
  {
    hide Visit, SyntaxFacts;
    LiteralClosed(x, text, values);
    LineCommented(x, s, sub, key, x.quote(text), c);
    if values != [] {
      LineCommented(x, s, sub, key, x.formatArray(values), c);
    }
  }

  lemma LineCommented(x: Syntax, s: RawServer, sub: string, key: string, q: string, c: string)
    requires '=' !in key && Closed(q)
    ensures Visit(x, s, sub, key + " = " + q + " #" + c) == Visit(x, s, sub, key + " = " + q)
  {
    hide Visit, Closed;
    assert key + " = " + q + " #" + c == (key + " ") + "=" + (" " + q) + " #" + c;
    assert key + " = " + q == (key + " ") + "=" + (" " + q);
    SpaceClosed(q);
    AssignmentCommented(x, s, sub, key + " ", " " + q, c);
  }

  lemma {:induction false} AfterSpace(q: string, i: nat)
    requires i <= |q|
    ensures Quoted(" " + q, i + 1) == Quoted(q, i) && Escaped(" " + q, i + 1) == Escaped(q, i)
  {
    if i > 0 {
      AfterSpace(q, i - 1);
      assert (" " + q)[i] == q[i - 1];
    }
  }

  lemma SpaceClosed(q: string)
    requires Closed(q)
    ensures Closed(" " + q)
  {
    hide Quoted, Escaped;
    AfterSpace(q, |q|);
    forall i: nat | i < |q| + 1 ensures !Hash(" " + q, i) {
      if i > 0 {
        AfterSpace(q, i - 1);
        assert !Hash(q, i - 1);
      }
    }
  }

  lemma LiteralClosed(x: Syntax, text: string, values: seq<string>)
    requires SyntaxFacts(x)
    ensures Closed(x.quote(text)) && (values != [] ==> Closed(x.formatArray(values)))
  {
    assert Literal(x.quote(text), '"', '"');
    QuietIsClosed(x.quote(text));
    if values != [] {
      assert Literal(x.formatArray(values), '[', ']');
      QuietIsClosed(x.formatArray(values));
    }
  }

  lemma QuietIsClosed(q: string)
    requires CommentAt(q, false, false).None? && !Quoted(q, |q|)
    ensures Closed(q)
  {
    hide CommentAt, Quoted, Escaped;
    FirstHash(q, 0);
    AtStart(q);
    assert q[0..] == q;
  }

  /** A value without a double quote is read as it stands; what other kinds of quotes enclose keeps them. */
  lemma BareValue(x: Syntax, value: string)
    requires '"' !in value
    ensures ParseString(x, value) == TrimSpace(value)
  {
    var v := TrimSpace(value);
    var lead, tail := TrimSplit(value, IsSpace);
    assert forall ch :: ch in v ==> ch in lead + v + tail;
    TrimFixed(v, IsQuote);
  }

  /** A quoted value that can not be unquoted is what stands between its quotes. */
  lemma UnreadableQuotes(x: Syntax, lead: string, text: string, tail: string)
    requires AllCut(lead, IsSpace) && AllCut(tail, IsSpace) && Trimmed(text, IsQuote)
    requires x.unquote("\"" + text + "\"").None?
    ensures ParseString(x, lead + ("\"" + text + "\"") + tail) == text
  {
    var v := "\"" + text + "\"";
    assert v[0] == '"' && v[|v| - 1] == '"';
    TrimPadded(lead, v, tail, IsSpace);
    TrimPadded("\"", text, "\"", IsQuote);
  }

  // ------------------------------------------------------------------- whole files

  // A blank line or a comment line.
  predicate Remark(line: string) { TrimSpace(line) == "" || TrimSpace(line)[0] == '#' }

  // The second line is the first one, with a comment behind it if it is an assignment.
  ghost predicate Commented(a: string, b: string) {
    || a == b
    || exists key: string, value: string, c: string ::
         && a == key + "=" + value && '=' !in key && Closed(value) && b == key + "=" + value + " #" + c
         && (TrimLeft(key, IsSpace) != "" ==> TrimLeft(key, IsSpace)[0] != '[')
  }

  // The second list of lines is the first one with comments and blank lines added.
  ghost predicate Annotated(a: seq<string>, b: seq<string>) {
    if b == [] then a == []
    else
      var n := |b| - 1;
      || (Remark(b[n]) && Annotated(a, b[..n]))
      || (a != [] && Commented(a[|a| - 1], b[n]) && Annotated(a[..|a| - 1], b[..n]))
  }

  // The same servers in the same order and the same open section; their lines may differ.
  ghost predicate Alike(d: Doc, f: Doc) {
    && d.order == f.order && d.current == f.current && d.sub == f.sub
    && (forall n :: n in d.servers <==> n in f.servers)
    && (forall n :: n in d.servers ==> d.servers[n].server == f.servers[n].server)
  }

  lemma RemarkRead(x: Syntax, d: Doc, line: string)
    requires SyntaxFacts(x) && Remark(line)
    ensures Read(x, d, line).Some? && Alike(d, Read(x, d, line).value)
  {
    hide TrimSpace;
    NoSection(x, TrimSpace(line));
  }

  lemma SameLineRead(x: Syntax, d: Doc, f: Doc, line: string)
    requires Alike(d, f)
    ensures Read(x, d, line).Some? == Read(x, f, line).Some?
    ensures Read(x, d, line).Some? ==> Alike(Read(x, d, line).value, Read(x, f, line).value)
  {
    hide TrimSpace, Visit;
  }

  lemma NoSection(x: Syntax, t: string)
    requires SyntaxFacts(x) && (t != "" ==> t[0] != '[')
    ensures !Bracketed(t) && x.section(t).None?
  {
  }

  lemma CommentedLine(x: Syntax, a: string, b: string)
    requires SyntaxFacts(x) && Commented(a, b) && a != b
    ensures !Bracketed(TrimSpace(a)) && !Bracketed(TrimSpace(b)) && x.section(TrimSpace(a)).None? && x.section(TrimSpace(b)).None?
    ensures forall s: RawServer, sub: string :: Visit(x, s, sub, a) == Visit(x, s, sub, b)
  {
    hide TrimSpace, TrimLeft, TrimRight, Visit, Closed, Cut, SyntaxFacts, Bracketed;
    var key: string, value: string, c: string :|
      && a == key + "=" + value && '=' !in key && Closed(value) && b == key + "=" + value + " #" + c
      && (TrimLeft(key, IsSpace) != "" ==> TrimLeft(key, IsSpace)[0] != '[');
    CutTrimmed(key, value);
    CutTrimmed(key, value + " #" + c);
    assert b == key + "=" + (value + " #" + c);
    NoSection(x, TrimSpace(a));
    NoSection(x, TrimSpace(b));
    forall s: RawServer, sub: string ensures Visit(x, s, sub, a) == Visit(x, s, sub, b) {
      AssignmentCommented(x, s, sub, key, value, c);
    }
  }

  lemma CommentedRead(x: Syntax, d: Doc, a: string, b: string)
    requires SyntaxFacts(x) && Commented(a, b)
    ensures Read(x, d, a).Some? == Read(x, d, b).Some?
    ensures Read(x, d, a).Some? ==> Alike(Read(x, d, a).value, Read(x, d, b).value)
  {
    hide TrimSpace, Visit, SyntaxFacts, Bracketed, Open, Commented;
    if a != b {
      CommentedLine(x, a, b);
    }
  }

  /** Comments and blank lines, wherever they are added, do not change what servers are read or whether reading fails. */
  lemma {:induction false} AnnotatedRead(x: Syntax, a: seq<string>, b: seq<string>)
    requires SyntaxFacts(x) && Annotated(a, b)
    ensures ReadFrom(x, EMPTY, a).Some? == ReadFrom(x, EMPTY, b).Some?
    ensures ReadFrom(x, EMPTY, a).Some? ==> Alike(ReadFrom(x, EMPTY, a).value, ReadFrom(x, EMPTY, b).value)
    decreases |b|
  {
    hide SyntaxFacts, Remark, Commented, Read;
    if b != [] {
      var n, m := |b| - 1, |a| - 1;
      if Remark(b[n]) && Annotated(a, b[..n]) {
        AnnotatedRead(x, a, b[..n]);
        var before := ReadFrom(x, EMPTY, b[..n]);
        if before.Some? {
          RemarkRead(x, before.value, b[n]);
        }
      } else {
        AnnotatedRead(x, a[..m], b[..n]);
        var d, f := ReadFrom(x, EMPTY, a[..m]), ReadFrom(x, EMPTY, b[..n]);
        if d.Some? {
          CommentedRead(x, d.value, a[m], b[n]);
          SameLineRead(x, d.value, f.value, b[n]);
        }
      }
    }
  }

  /** The servers of a file are those of the file without its comments. */
  lemma AnnotatedServers(x: Syntax, a: seq<string>, b: seq<string>)
    requires SyntaxFacts(x) && Annotated(a, b)
    ensures ParseServers(x, a).Some? == ParseServers(x, b).Some?
    ensures ParseServers(x, a).Some? ==>
              var p, q := ParseServers(x, a).value, ParseServers(x, b).value;
              |p| == |q| && forall i :: 0 <= i < |p| ==> p[i].server == q[i].server
  {
    hide SyntaxFacts, Annotated, ReadFrom;
    AnnotatedRead(x, a, b);
  }

  // --------------------------------------------------------------------- refused files

  // The MCP section that is open before the line.
  function SectionAt(x: Syntax, lines: seq<string>, i: nat): Option<(string, string)>
    requires i <= |lines|
  {
    if i == 0 then None
    else if Bracketed(TrimSpace(lines[i - 1])) then x.section(TrimSpace(lines[i - 1]))
    else SectionAt(x, lines, i - 1)
  }

  // In the main section of a server an array is assigned that does not parse.
  predicate BadArray(x: Syntax, lines: seq<string>, i: nat) {
    && i < |lines| && SectionAt(x, lines, i).Some? && SectionAt(x, lines, i).value.1 == ""
    && var t := TrimSpace(lines[i]);
       && !Bracketed(t) && !Remark(lines[i]) && Cut(t, '=').2
       && TrimSpace(Cut(t, '=').0) in ["args", "scopes"]
       && x.parseArray(TrimSpace(StripComment(Cut(t, '=').1))).None?
  }

  predicate Stands(x: Syntax, lines: seq<string>, d: Doc) {
    var m := SectionAt(x, lines, |lines|);
    && (m.None? ==> d.current.None?)
    && (m.Some? ==> d.current == Some(m.value.0) && d.sub == m.value.1 && m.value.0 in d.servers)
  }

  lemma {:induction false} SectionPrefix(x: Syntax, lines: seq<string>, line: string, i: nat)
    requires i <= |lines|
    ensures SectionAt(x, lines + [line], i) == SectionAt(x, lines, i)
  {
    if i > 0 {
      SectionPrefix(x, lines, line, i - 1);
    }
  }

  lemma {:induction false} SectionKinds(x: Syntax, lines: seq<string>, i: nat)
    requires SyntaxFacts(x) && i <= |lines|
    ensures SectionAt(x, lines, i).Some? ==> Subsection(SectionAt(x, lines, i).value.1)
  {
    hide TrimSpace;
    if i > 0 {
      SectionKinds(x, lines, i - 1);
      assert x.section(TrimSpace(lines[i - 1])).Some? ==> Subsection(x.section(TrimSpace(lines[i - 1])).value.1);
    }
  }

  lemma LineStands(x: Syntax, lines: seq<string>, d: Doc, line: string)
    requires SyntaxFacts(x) && Stands(x, lines, d)
    ensures Read(x, d, line).None? <==> BadArray(x, lines + [line], |lines|)
    ensures Read(x, d, line).Some? ==> Stands(x, lines + [line], Read(x, d, line).value)
  {
    hide TrimSpace, StripComment, Cut, ParseString;
    SectionPrefix(x, lines, line, |lines|);
    var t := TrimSpace(line);
    assert x.section(t).Some? ==> Bracketed(t) && Subsection(x.section(t).value.1);
    var m, all := SectionAt(x, lines, |lines|), lines + [line];
    assert all[|lines|] == line;
    assert SectionAt(x, all, |all|) == if Bracketed(t) then x.section(t) else m;
    SectionKinds(x, lines, |lines|);
    hide SectionAt;
  }

  /** A file is refused exactly if a main section of a server assigns an array that does not parse. */
  lemma {:induction false} RefusedIff(x: Syntax, lines: seq<string>)
    requires SyntaxFacts(x)
    ensures ParseServers(x, lines).None? <==> exists i: nat :: BadArray(x, lines, i)
    ensures ReadFrom(x, EMPTY, lines).Some? ==> Stands(x, lines, ReadFrom(x, EMPTY, lines).value)
  {
    hide SyntaxFacts, BadArray, Read, Listed;
    if lines == [] {
      assert forall i: nat :: !BadArray(x, lines, i) by { NoLines(x); }
    } else {
      var n := |lines| - 1;
      var before := lines[..n];
      assert lines == before + [lines[n]];
      RefusedIff(x, before);
      forall i: nat | i != n ensures BadArray(x, lines, i) <==> BadArray(x, before, i) {
        BadBefore(x, before, lines[n], i);
      }
      assert !BadArray(x, before, n) by { BadInside(x, before, n); }
      var d := ReadFrom(x, EMPTY, before);
      if d.Some? {
        LineStands(x, before, d.value, lines[n]);
      }
    }
  }

  lemma NoLines(x: Syntax)
    ensures forall i: nat :: !BadArray(x, [], i)
  {
  }

  lemma BadInside(x: Syntax, lines: seq<string>, i: nat)
    requires i >= |lines|
    ensures !BadArray(x, lines, i)
  {
  }

  lemma BadBefore(x: Syntax, lines: seq<string>, line: string, i: nat)
    requires i != |lines|
    ensures BadArray(x, lines + [line], i) <==> BadArray(x, lines, i)
  {
    hide TrimSpace, StripComment, Cut;
    if i < |lines| {
      SectionPrefix(x, lines, line, i);
    }
  }
}
