/**
  JSON texts with any white space, comments and trailing commas between their tokens, and what
  normalising makes of them: the same text with each comment replaced by its line breaks and
  without the trailing commas.
*/
module JsoncTrees {
  import opened Options
  import opened Jsonc

  // ------------------------------------------------------------------------ printed pieces

  // What may stand between tokens; a line comment carries the break that ends it.
  datatype Trivia = White(text: string) | Line(text: string, end: char) | Block(text: string)

  datatype Piece = Gap(t: Trivia) | Quote(body: string) | Mark(c: char) | Atom(text: string)

  function Print(p: Piece): string {
    match p
    case Gap(White(text)) => text
    case Gap(Line(text, end)) => "//" + text + [end]
    case Gap(Block(text)) => "/*" + text + "*/"
    case Quote(body) => "\"" + body + "\""
    case Mark(c) => [c]
    case Atom(text) => text
  }

  function PrintAll(ps: seq<Piece>): string { if ps == [] then "" else Print(ps[0]) + PrintAll(ps[1..]) }

  // A string body of RFC 8259, section 7, as far as the passes look at it: every quote is escaped.
  predicate Body(s: string) {
    s == "" || (s[0] == '\\' && |s| > 1 && Body(s[2..])) || (s[0] != '\\' && s[0] != '"' && Body(s[1..]))
  }

  predicate AtomChar(c: char) { 'a' <= c <= 'z' || 'A' <= c <= 'Z' || '0' <= c <= '9' || c == '+' || c == '-' || c == '.' }

  predicate Ok(p: Piece) {
    match p
    case Gap(White(text)) => forall i :: 0 <= i < |text| ==> IsWhite(text[i])
    case Gap(Line(text, end)) => IsBreak(end) && forall i :: 0 <= i < |text| ==> !IsBreak(text[i])
    case Gap(Block(text)) => forall i :: 0 <= i < |text| ==> !EndsAt(text, i)
    case Quote(body) => Body(body)
    case Mark(c) => c in "{}[]:,"
    case Atom(text) => text != "" && forall i :: 0 <= i < |text| ==> AtomChar(text[i])
  }

  // A block comment would end at position i of its text.
  predicate EndsAt(text: string, i: nat) { i + 1 < |text| && text[i] == '*' && text[i + 1] == '/' }

  predicate AllOk(ps: seq<Piece>) { forall i :: 0 <= i < |ps| ==> Ok(ps[i]) }

  // A comment leaves its line breaks.
  function PlainTrivia(t: Trivia): Trivia {
    match t
    case White(_) => t
    case Line(_, end) => White([end])
    case Block(text) => White(Breaks(text))
  }

  function PlainPiece(p: Piece): Piece { if p.Gap? then Gap(PlainTrivia(p.t)) else p }

  function Plain(ps: seq<Piece>): seq<Piece> { seq(|ps|, i requires 0 <= i < |ps| => PlainPiece(ps[i])) }

  // ------------------------------------------------------------------ comments, piece by piece

  // Bytes outside strings that are neither quotes nor slashes are copied.
  lemma {:induction false} CopyCode(s: string, rest: string)
    requires forall i :: 0 <= i < |s| ==> s[i] != '/' && s[i] != '"'
    ensures StripComments(s + rest, Code) == Prepend(s, StripComments(rest, Code))
  {
    if s == "" {
      assert s + rest == rest;
      PrependTwice("", "", StripComments(rest, Code));
    } else {
      assert (s + rest)[1..] == s[1..] + rest && [s[0]] + s[1..] == s;
      CopyCode(s[1..], rest);
      PrependTwice([s[0]], s[1..], StripComments(rest, Code));
    }
  }

  // The rest of a string literal is copied with the quote that ends it.
  lemma {:induction false} CopyBody(s: string, rest: string)
    requires Body(s)
    ensures StripComments(s + "\"" + rest, InString) == Prepend(s + "\"", StripComments(rest, Code))
    decreases |s|
  {
    var t := s + "\"" + rest;
    if s == "" {
      assert t[1..] == rest && s + "\"" == "\"";
    } else if s[0] == '\\' {
      assert t[1..] == s[1..] + "\"" + rest && t[1..][1..] == s[2..] + "\"" + rest;
      CopyBody(s[2..], rest);
      var u := StripComments(rest, Code);
      PrependTwice([s[1]], s[2..] + "\"", u);
      PrependTwice([s[0]], [s[1]] + (s[2..] + "\""), u);
      assert [s[0]] + ([s[1]] + (s[2..] + "\"")) == s + "\"";
    } else {
      assert t[1..] == s[1..] + "\"" + rest;
      CopyBody(s[1..], rest);
      PrependTwice([s[0]], s[1..] + "\"", StripComments(rest, Code));
      assert [s[0]] + (s[1..] + "\"") == s + "\"";
    }
  }

  lemma {:induction false} SkipLineTo(text: string, end: char, rest: string)
    requires IsBreak(end) && forall i :: 0 <= i < |text| ==> !IsBreak(text[i])
    ensures SkipLine(text + [end] + rest) == [end] + rest
  {
    if text == "" {
      assert text + [end] + rest == [end] + rest;
    } else {
      assert (text + [end] + rest)[1..] == text[1..] + [end] + rest;
      SkipLineTo(text[1..], end, rest);
    }
  }

  lemma {:induction false} SkipBlockTo(text: string, rest: string)
    requires forall i :: 0 <= i < |text| ==> !EndsAt(text, i)
    ensures SkipBlock(text + "*/" + rest) == Some((Breaks(text), rest))
  {
    var s := text + "*/" + rest;
    if text == "" {
      assert s[2..] == rest;
    } else {
      assert s[1..] == text[1..] + "*/" + rest;
      assert s[0] == text[0] && s[1] == if |text| > 1 then text[1] else '*';
      assert !EndsAt(text, 0) && forall i :: 0 <= i < |text[1..]| ==> EndsAt(text[1..], i) == EndsAt(text, i + 1);
      SkipBlockTo(text[1..], rest);
      assert "" + Breaks(text[1..]) == Breaks(text[1..]);
    }
  }

  lemma BreaksAreBreaks(s: string)
    ensures forall i :: 0 <= i < |Breaks(s)| ==> IsBreak(Breaks(s)[i])
  {
  }

  lemma LineStripped(text: string, end: char, rest: string)
    requires IsBreak(end) && forall i :: 0 <= i < |text| ==> !IsBreak(text[i])
    ensures StripComments("//" + text + [end] + rest, Code) == Prepend([end], StripComments(rest, Code))
  {
    var s := "//" + text + [end] + rest;
    assert s[2..] == text + [end] + rest;
    SkipLineTo(text, end, rest);
    assert ([end] + rest)[1..] == rest;
    assert s[0] == '/' && s[1] == '/';
    hide SkipLine, Prepend;
  }

  lemma BlockStripped(text: string, rest: string)
    requires forall i :: 0 <= i < |text| ==> !EndsAt(text, i)
    ensures StripComments("/*" + text + "*/" + rest, Code) == Prepend(Breaks(text), StripComments(rest, Code))
  {
    hide SkipBlock, Breaks, Prepend;
    var s := "/*" + text + "*/" + rest;
    assert s[2..] == text + "*/" + rest;
    SkipBlockTo(text, rest);
    assert s[0] == '/' && s[1] == '*';
  }

  lemma QuoteStripped(body: string, rest: string)
    requires Body(body)
    ensures StripComments("\"" + body + "\"" + rest, Code) == Prepend("\"" + body + "\"", StripComments(rest, Code))
  {
    hide Prepend, Body;
    var s := "\"" + body + "\"" + rest;
    assert s[1..] == body + "\"" + rest;
    CopyBody(body, rest);
    PrependTwice("\"", body + "\"", StripComments(rest, Code));
    assert "\"" + (body + "\"") == "\"" + body + "\"";
  }

  lemma PieceStripped(p: Piece, rest: string)
    requires Ok(p)
    ensures StripComments(Print(p) + rest, Code) == Prepend(Print(PlainPiece(p)), StripComments(rest, Code))
  {
    hide StripComments, Prepend, Body, Breaks;
    match p {
      case Gap(White(text)) => CopyCode(text, rest);
      case Gap(Line(text, end)) => LineStripped(text, end, rest);
      case Gap(Block(text)) => BlockStripped(text, rest);
      case Quote(body) => QuoteStripped(body, rest);
      case Mark(c) => CopyCode([c], rest);
      case Atom(text) => CopyCode(text, rest);
    }
  }

  // A last line comment may end with the text.
  predicate TailOk(tail: string) { tail == "" || (|tail| >= 2 && tail[..2] == "//" && forall i :: 2 <= i < |tail| ==> !IsBreak(tail[i])) }

  lemma {:induction false} SkipsAll(s: string)
    requires forall i :: 0 <= i < |s| ==> !IsBreak(s[i])
    ensures SkipLine(s) == ""
  {
    if s != "" {
      SkipsAll(s[1..]);
    }
  }

  lemma TailStripped(tail: string)
    requires TailOk(tail)
    ensures StripComments(tail, Code) == Some("")
  {
    if tail != "" {
      assert tail[0] == tail[..2][0] && tail[1] == tail[..2][1];
      SkipsAll(tail[2..]);
    }
  }

  /** Stripping comments replaces each of them, wherever it stands between tokens, by its line breaks. */
  lemma {:induction false} CommentsStripped(ps: seq<Piece>, tail: string)
    requires AllOk(ps) && TailOk(tail)
    ensures StripComments(PrintAll(ps) + tail, Code) == Some(PrintAll(Plain(ps)))
  {
    hide StripComments, Ok, Print, PlainPiece;
    if ps == [] {
      assert PrintAll(ps) + tail == tail;
      TailStripped(tail);
    } else {
      CommentsStripped(ps[1..], tail);
      assert PrintAll(ps) + tail == Print(ps[0]) + (PrintAll(ps[1..]) + tail);
      PieceStripped(ps[0], PrintAll(ps[1..]) + tail);
      assert Plain(ps)[1..] == Plain(ps[1..]);
    }
  }

  // -------------------------------------------------------------------- commas, piece by piece

  predicate NoComments(ps: seq<Piece>) { forall i :: 0 <= i < |ps| && ps[i].Gap? ==> ps[i].t.White? }

  // Whether the first token closes a container, given whether what follows the pieces does.
  predicate ClosesFirst(ps: seq<Piece>, next: bool) {
    if ps == [] then next else if ps[0].Gap? then ClosesFirst(ps[1..], next) else ps[0].Mark? && Closes(ps[0].c)
  }

  function DropCommas(ps: seq<Piece>, next: bool): seq<Piece> {
    if ps == [] then []
    else if ps[0] == Mark(',') && ClosesFirst(ps[1..], next) then DropCommas(ps[1..], next)
    else [ps[0]] + DropCommas(ps[1..], next)
  }

  lemma {:induction false} SolidAfterWhite(s: string, rest: string)
    requires forall i :: 0 <= i < |s| ==> IsWhite(s[i])
    ensures Solid(s + rest) == Solid(rest)
  {
    if s == "" {
      assert s + rest == rest;
    } else {
      assert (s + rest)[1..] == s[1..] + rest;
      SolidAfterWhite(s[1..], rest);
    }
  }

  lemma {:induction false} ClosesAlike(ps: seq<Piece>)
    requires AllOk(ps) && NoComments(ps)
    ensures ClosesNext(PrintAll(ps)) <==> ClosesFirst(ps, false)
  {
    if ps != [] {
      ClosesAlike(ps[1..]);
      if ps[0].Gap? {
        SolidAfterWhite(ps[0].t.text, PrintAll(ps[1..]));
      }
    }
  }

  lemma {:induction false} KeepCode(s: string, rest: string)
    requires forall i :: 0 <= i < |s| ==> s[i] != ',' && s[i] != '"'
    ensures StripCommas(s + rest, Code) == s + StripCommas(rest, Code)
  {
    if s == "" {
      assert s + rest == rest;
    } else {
      assert (s + rest)[1..] == s[1..] + rest;
      KeepCode(s[1..], rest);
    }
  }

  lemma {:induction false} KeepBody(s: string, rest: string)
    requires Body(s)
    ensures StripCommas(s + "\"" + rest, InString) == s + "\"" + StripCommas(rest, Code)
    decreases |s|
  {
    var t := s + "\"" + rest;
    if s == "" {
      assert t[1..] == rest;
    } else if s[0] == '\\' {
      assert t[1..] == s[1..] + "\"" + rest && t[1..][1..] == s[2..] + "\"" + rest;
      KeepBody(s[2..], rest);
    } else {
      assert t[1..] == s[1..] + "\"" + rest;
      KeepBody(s[1..], rest);
    }
  }

  lemma PieceKept(p: Piece, rest: string)
    requires Ok(p) && (p.Gap? ==> p.t.White?) && !(p == Mark(',') && ClosesNext(rest))
    ensures StripCommas(Print(p) + rest, Code) == Print(p) + StripCommas(rest, Code)
  {
    hide StripCommas, Body, ClosesNext;
    match p {
      case Gap(White(text)) => KeepCode(text, rest);
      case Quote(body) => QuoteKept(body, rest);
      case Mark(c) => MarkKept(c, rest);
      case Atom(text) => KeepCode(text, rest);
    }
  }

  lemma QuoteKept(body: string, rest: string)
    requires Body(body)
    ensures StripCommas("\"" + body + "\"" + rest, Code) == "\"" + body + "\"" + StripCommas(rest, Code)
  {
    hide Body;
    assert ("\"" + body + "\"" + rest)[1..] == body + "\"" + rest;
    KeepBody(body, rest);
  }

  lemma MarkKept(c: char, rest: string)
    requires c != '"' && !(c == ',' && ClosesNext(rest))
    ensures StripCommas([c] + rest, Code) == [c] + StripCommas(rest, Code)
  {
    assert ([c] + rest)[1..] == rest;
  }

  /** The second pass drops the commas whose next token closes a container, and nothing else. */
  lemma {:induction false} CommasDropped(ps: seq<Piece>)
    requires AllOk(ps) && NoComments(ps)
    ensures StripCommas(PrintAll(ps), Code) == PrintAll(DropCommas(ps, false))
  {
    if ps != [] {
      var rest := PrintAll(ps[1..]);
      CommasDropped(ps[1..]);
      ClosesAlike(ps[1..]);
      if ps[0] == Mark(',') && ClosesFirst(ps[1..], false) {
        assert ([','] + rest)[1..] == rest;
      } else {
        PieceKept(ps[0], rest);
        var kept := DropCommas(ps[1..], false);
        assert ([ps[0]] + kept)[1..] == kept;
      }
    }
  }

  lemma {:induction false} ClosesAppend(a: seq<Piece>, b: seq<Piece>, next: bool)
    ensures ClosesFirst(a + b, next) == ClosesFirst(a, ClosesFirst(b, next))
  {
    if a == [] {
      assert a + b == b;
    } else {
      assert (a + b)[1..] == a[1..] + b;
      ClosesAppend(a[1..], b, next);
    }
  }

  lemma {:induction false} DropAppend(a: seq<Piece>, b: seq<Piece>, next: bool)
    ensures DropCommas(a + b, next) == DropCommas(a, ClosesFirst(b, next)) + DropCommas(b, next)
  {
    if a == [] {
      assert a + b == b;
    } else {
      assert (a + b)[1..] == a[1..] + b;
      ClosesAppend(a[1..], b, next);
      DropAppend(a[1..], b, next);
    }
  }

  // ----------------------------------------------------------------------------- trees

  // A JSON value with what stands between its tokens; a container may end in a comma.
  datatype Value =
    | Scalar(p: Piece)
    | Empty(open: char, close: char, inner: seq<Trivia>)
    | Full(open: char, close: char, members: Members, trailing: Option<seq<Trivia>>)

  datatype Members = One(m: Member) | More(init: Members, last: Member)

  datatype Key = NoKey | Key(body: string, beforeColon: seq<Trivia>, afterColon: seq<Trivia>)

  datatype Member = Member(before: seq<Trivia>, key: Key, value: Value, after: seq<Trivia>)

  datatype Doc = Doc(before: seq<Trivia>, value: Value, after: seq<Trivia>, tail: string)

  function Gaps(g: seq<Trivia>): seq<Piece> { seq(|g|, i requires 0 <= i < |g| => Gap(g[i])) }

  function KeyPieces(k: Key): seq<Piece> {
    if k.NoKey? then [] else [Quote(k.body)] + Gaps(k.beforeColon) + [Mark(':')] + Gaps(k.afterColon)
  }

  function Pieces(v: Value): seq<Piece> {
    match v
    case Scalar(p) => [p]
    case Empty(open, close, inner) => [Mark(open)] + Gaps(inner) + [Mark(close)]
    case Full(open, close, members, trailing) => [Mark(open)] + MembersPieces(members) + TrailingPieces(trailing) + [Mark(close)]
  }

  function TrailingPieces(trailing: Option<seq<Trivia>>): seq<Piece> {
    if trailing.None? then [] else [Mark(',')] + Gaps(trailing.value)
  }

  function MembersPieces(ms: Members): seq<Piece> {
    match ms
    case One(m) => MemberPieces(m)
    case More(init, last) => MembersPieces(init) + [Mark(',')] + MemberPieces(last)
  }

  function MemberPieces(m: Member): seq<Piece> {
    Gaps(m.before) + KeyPieces(m.key) + Pieces(m.value) + Gaps(m.after)
  }

  function DocPieces(d: Doc): seq<Piece> { Gaps(d.before) + Pieces(d.value) + Gaps(d.after) }

  function PrintDoc(d: Doc): string { PrintAll(DocPieces(d)) + d.tail }

  predicate Shaped(v: Value) {
    match v
    case Scalar(p) => p.Quote? || p.Atom?
    case Empty(open, close, _) => open in "{[" && close in "}]"
    case Full(open, close, members, _) => open in "{[" && close in "}]" && ShapedMembers(members)
  }

  predicate ShapedMembers(ms: Members) {
    match ms
    case One(m) => Shaped(m.value)
    case More(init, last) => ShapedMembers(init) && Shaped(last.value)
  }

  predicate DocOk(d: Doc) { Shaped(d.value) && AllOk(DocPieces(d)) && TailOk(d.tail) }

  // ------------------------------------------------------------------------ the clean tree

  function PlainGap(g: seq<Trivia>): seq<Trivia> { seq(|g|, i requires 0 <= i < |g| => PlainTrivia(g[i])) }

  function CleanKey(k: Key): Key { if k.NoKey? then k else Key(k.body, PlainGap(k.beforeColon), PlainGap(k.afterColon)) }

  // Comments give way to their line breaks and the trailing comma to what followed it.
  function Clean(v: Value): Value {
    match v
    case Scalar(p) => v
    case Empty(open, close, inner) => Empty(open, close, PlainGap(inner))
    case Full(open, close, members, trailing) =>
      var clean := CleanMembers(members);
      Full(open, close, if trailing.None? then clean else EndWith(clean, PlainGap(trailing.value)), None)
  }

  function EndWith(ms: Members, g: seq<Trivia>): Members {
    match ms
    case One(m) => One(m.(after := m.after + g))
    case More(init, last) => More(init, last.(after := last.after + g))
  }

  function CleanMembers(ms: Members): Members {
    match ms
    case One(m) => One(CleanMember(m))
    case More(init, last) => More(CleanMembers(init), CleanMember(last))
  }

  function CleanMember(m: Member): Member {
    Member(PlainGap(m.before), CleanKey(m.key), Clean(m.value), PlainGap(m.after))
  }

  function CleanDoc(d: Doc): Doc { Doc(PlainGap(d.before), Clean(d.value), PlainGap(d.after), "") }

  // JSON as RFC 8259, section 2, has it: no comments and no trailing commas.
  predicate IsJson(d: Doc) { NoComments(DocPieces(d)) && NoTrailing(d.value) && d.tail == "" }

  predicate NoTrailing(v: Value) { v.Full? ==> v.trailing.None? && NoTrailingMembers(v.members) }

  predicate NoTrailingMembers(ms: Members) {
    match ms
    case One(m) => NoTrailing(m.value)
    case More(init, last) => NoTrailingMembers(init) && NoTrailing(last.value)
  }

  // The string literals, in order.
  function Literals(ps: seq<Piece>): seq<string> {
    if ps == [] then [] else (if ps[0].Quote? then [Print(ps[0])] else []) + Literals(ps[1..])
  }

  // --------------------------------------------------------------------------- the theorem

  lemma PlainAppend(a: seq<Piece>, b: seq<Piece>)
    ensures Plain(a + b) == Plain(a) + Plain(b)
  {
  }

  lemma PlainGaps(g: seq<Trivia>)
    ensures Plain(Gaps(g)) == Gaps(PlainGap(g))
  {
  }

  lemma {:induction false} GapsDropped(g: seq<Trivia>, next: bool)
    ensures DropCommas(Gaps(g), next) == Gaps(g) && ClosesFirst(Gaps(g), next) == next
  {
    if g != [] {
      assert Gaps(g)[1..] == Gaps(g[1..]);
      GapsDropped(g[1..], next);
    }
  }

  lemma OneDropped(p: Piece, next: bool)
    ensures p != Mark(',') ==> DropCommas([p], next) == [p]
    ensures DropCommas([Mark(',')], next) == if next then [] else [Mark(',')]
    ensures !p.Gap? ==> ClosesFirst([p], next) == (p.Mark? && Closes(p.c))
  {
    assert [p][1..] == [];
  }

  // What becomes of a run of pieces that ends no container.
  ghost predicate Becomes(a: seq<Piece>, b: seq<Piece>) {
    forall next :: DropCommas(Plain(a), next) == b
  }

  lemma BecomesBoth(a: seq<Piece>, a': seq<Piece>, b: seq<Piece>, b': seq<Piece>)
    requires Becomes(a, a') && Becomes(b, b')
    ensures Becomes(a + b, a' + b')
  {
    PlainAppend(a, b);
    forall next ensures DropCommas(Plain(a + b), next) == a' + b' {
      DropAppend(Plain(a), Plain(b), next);
    }
  }

  lemma GapsBecome(g: seq<Trivia>)
    ensures Becomes(Gaps(g), Gaps(PlainGap(g)))
  {
    PlainGaps(g);
    forall next ensures DropCommas(Plain(Gaps(g)), next) == Gaps(PlainGap(g)) {
      GapsDropped(PlainGap(g), next);
    }
  }

  lemma OneBecomes(p: Piece)
    requires !p.Gap? && p != Mark(',')
    ensures Becomes([p], [p])
  {
    assert Plain([p]) == [p];
    forall next ensures DropCommas(Plain([p]), next) == [p] {
      OneDropped(p, next);
    }
  }

  lemma KeyBecomes(k: Key)
    ensures Becomes(KeyPieces(k), KeyPieces(CleanKey(k)))
  {
    if k.NoKey? {
      assert Plain([]) == [];
    } else {
      OneBecomes(Quote(k.body));
      GapsBecome(k.beforeColon);
      OneBecomes(Mark(':'));
      GapsBecome(k.afterColon);
      hide Becomes;
      BecomesBoth([Quote(k.body)], [Quote(k.body)], Gaps(k.beforeColon), Gaps(PlainGap(k.beforeColon)));
      BecomesBoth([Quote(k.body)] + Gaps(k.beforeColon), [Quote(k.body)] + Gaps(PlainGap(k.beforeColon)), [Mark(':')], [Mark(':')]);
      BecomesBoth([Quote(k.body)] + Gaps(k.beforeColon) + [Mark(':')], [Quote(k.body)] + Gaps(PlainGap(k.beforeColon)) + [Mark(':')],
                  Gaps(k.afterColon), Gaps(PlainGap(k.afterColon)));
    }
  }

  // A member does not start with the end of a container.
  lemma MemberOpens(m: Member, next: bool)
    requires Shaped(m.value)
    ensures !ClosesFirst(Plain(MemberPieces(m)), next)
  {
    assert Pieces(m.value) != [] && !Pieces(m.value)[0].Gap? && !(Pieces(m.value)[0].Mark? && Closes(Pieces(m.value)[0].c));
    hide Pieces, Shaped;
    var rest := Pieces(m.value) + Gaps(m.after);
    assert MemberPieces(m) == Gaps(m.before) + (KeyPieces(m.key) + rest);
    PlainAppend(Gaps(m.before), KeyPieces(m.key) + rest);
    PlainGaps(m.before);
    ClosesAppend(Gaps(PlainGap(m.before)), Plain(KeyPieces(m.key) + rest), next);
    GapsDropped(PlainGap(m.before), ClosesFirst(Plain(KeyPieces(m.key) + rest), next));
    var first := (KeyPieces(m.key) + rest)[0];
    assert Plain(KeyPieces(m.key) + rest)[0] == first && !first.Gap?;
  }

  lemma {:induction false} ValueBecomes(v: Value)
    requires Shaped(v)
    ensures Becomes(Pieces(v), Pieces(Clean(v)))
  {
    match v {
      case Scalar(p) => OneBecomes(p);
      case Empty(open, close, inner) =>
        OneBecomes(Mark(open));
        GapsBecome(inner);
        OneBecomes(Mark(close));
        BecomesBoth([Mark(open)], [Mark(open)], Gaps(inner), Gaps(PlainGap(inner)));
        BecomesBoth([Mark(open)] + Gaps(inner), [Mark(open)] + Gaps(PlainGap(inner)), [Mark(close)], [Mark(close)]);
      case Full(open, close, members, trailing) =>
        MembersBecome(members);
        FullBecomes(v, MembersPieces(members), MembersPieces(CleanMembers(members)));
    }
  }

  lemma FullBecomes(v: Value, ms: seq<Piece>, clean: seq<Piece>)
    requires v.Full? && Shaped(v) && ms == MembersPieces(v.members) && clean == MembersPieces(CleanMembers(v.members))
    requires Becomes(ms, clean)
    ensures Becomes(Pieces(v), Pieces(Clean(v)))
  {
    var open, close := [Mark(v.open)], [Mark(v.close)];
    OneBecomes(Mark(v.open));
    OneBecomes(Mark(v.close));
    hide Becomes, MembersPieces, Shaped;
    BecomesBoth(open, open, ms, clean);
    FullPieces(v, ms, clean);
    if v.trailing.None? {
      BecomesBoth(open + ms, open + clean, close, close);
    } else {
      var g := v.trailing.value;
      TrailingBecomes(g, v.close);
      BecomesBoth(open + ms, open + clean, [Mark(',')] + Gaps(g) + close, Gaps(PlainGap(g)) + close);
    }
  }

  // A container and its clean form, put together in the order of the proof above.
  lemma FullPieces(v: Value, ms: seq<Piece>, clean: seq<Piece>)
    requires v.Full? && ms == MembersPieces(v.members) && clean == MembersPieces(CleanMembers(v.members))
    ensures Pieces(v) == [Mark(v.open)] + ms
                         + if v.trailing.None? then [Mark(v.close)] else [Mark(',')] + Gaps(v.trailing.value) + [Mark(v.close)]
    ensures Pieces(Clean(v)) == [Mark(v.open)] + clean
                                + if v.trailing.None? then [Mark(v.close)] else Gaps(PlainGap(v.trailing.value)) + [Mark(v.close)]
  {
    if v.trailing.Some? {
      EndWithPieces(CleanMembers(v.members), PlainGap(v.trailing.value));
    }
  }

  // A trailing comma goes, what stands behind it stays.
  lemma TrailingBecomes(g: seq<Trivia>, close: char)
    requires close in "}]"
    ensures Becomes([Mark(',')] + Gaps(g) + [Mark(close)], Gaps(PlainGap(g)) + [Mark(close)])
  {
    GapsBecome(g);
    OneBecomes(Mark(close));
    BecomesBoth(Gaps(g), Gaps(PlainGap(g)), [Mark(close)], [Mark(close)]);
    var rest := Gaps(g) + [Mark(close)];
    assert [Mark(',')] + Gaps(g) + [Mark(close)] == [Mark(',')] + rest;
    PlainAppend([Mark(',')], rest);
    PlainAppend(Gaps(g), [Mark(close)]);
    PlainGaps(g);
    forall next ensures DropCommas(Plain([Mark(',')] + rest), next) == Gaps(PlainGap(g)) + [Mark(close)] {
      ClosesAppend(Gaps(PlainGap(g)), Plain([Mark(close)]), next);
      GapsDropped(PlainGap(g), ClosesFirst(Plain([Mark(close)]), next));
      assert Plain([Mark(',')] + rest)[1..] == Plain(rest);
    }
  }

  lemma EndWithPieces(ms: Members, g: seq<Trivia>)
    ensures MembersPieces(EndWith(ms, g)) == MembersPieces(ms) + Gaps(g)
  {
    var m := if ms.One? then ms.m else ms.last;
    assert Gaps(m.after + g) == Gaps(m.after) + Gaps(g);
    assert MemberPieces(m.(after := m.after + g)) == MemberPieces(m) + Gaps(g);
  }

  lemma {:induction false} MembersBecome(ms: Members)
    requires ShapedMembers(ms)
    ensures Becomes(MembersPieces(ms), MembersPieces(CleanMembers(ms)))
  {
    match ms {
      case One(m) => MemberBecomes(m);
      case More(init, last) =>
        MembersBecome(init);
        MemberBecomes(last);
        CommaBecomes(last);
        var clean := CleanMembers(init);
        BecomesBoth(MembersPieces(init), MembersPieces(clean), [Mark(',')] + MemberPieces(last), [Mark(',')] + MemberPieces(CleanMember(last)));
        assert MembersPieces(ms) == MembersPieces(init) + ([Mark(',')] + MemberPieces(last));
        assert MembersPieces(CleanMembers(ms)) == MembersPieces(clean) + ([Mark(',')] + MemberPieces(CleanMember(last)));
    }
  }

  // A comma before a member stays.
  lemma CommaBecomes(m: Member)
    requires Shaped(m.value) && Becomes(MemberPieces(m), MemberPieces(CleanMember(m)))
    ensures Becomes([Mark(',')] + MemberPieces(m), [Mark(',')] + MemberPieces(CleanMember(m)))
  {
    var ps := [Mark(',')] + MemberPieces(m);
    PlainAppend([Mark(',')], MemberPieces(m));
    forall next ensures DropCommas(Plain(ps), next) == [Mark(',')] + MemberPieces(CleanMember(m)) {
      MemberOpens(m, next);
      assert Plain(ps)[1..] == Plain(MemberPieces(m)) && Plain(ps)[0] == Mark(',');
    }
  }

  lemma {:induction false} MemberBecomes(m: Member)
    requires Shaped(m.value)
    ensures Becomes(MemberPieces(m), MemberPieces(CleanMember(m)))
  {
    hide Becomes;
    var c := CleanMember(m);
    GapsBecome(m.before);
    KeyBecomes(m.key);
    ValueBecomes(m.value);
    GapsBecome(m.after);
    BecomesBoth(Gaps(m.before), Gaps(c.before), KeyPieces(m.key), KeyPieces(c.key));
    BecomesBoth(Gaps(m.before) + KeyPieces(m.key), Gaps(c.before) + KeyPieces(c.key), Pieces(m.value), Pieces(c.value));
    BecomesBoth(Gaps(m.before) + KeyPieces(m.key) + Pieces(m.value), Gaps(c.before) + KeyPieces(c.key) + Pieces(c.value),
                Gaps(m.after), Gaps(c.after));
  }

  lemma DocBecomes(d: Doc)
    requires Shaped(d.value)
    ensures DropCommas(Plain(DocPieces(d)), false) == DocPieces(CleanDoc(d))
  {
    var c := CleanDoc(d);
    GapsBecome(d.before);
    ValueBecomes(d.value);
    GapsBecome(d.after);
    BecomesBoth(Gaps(d.before), Gaps(c.before), Pieces(d.value), Pieces(c.value));
    BecomesBoth(Gaps(d.before) + Pieces(d.value), Gaps(c.before) + Pieces(c.value), Gaps(d.after), Gaps(c.after));
  }

  lemma PlainOk(ps: seq<Piece>)
    requires AllOk(ps)
    ensures AllOk(Plain(ps)) && NoComments(Plain(ps))
  {
    forall i | 0 <= i < |ps| ensures Ok(Plain(ps)[i]) {
      if ps[i].Gap? && ps[i].t.Block? {
        BreaksAreBreaks(ps[i].t.text);
      }
    }
  }

  /**
    Normalising a JSON text with any white space, comments and trailing commas gives the same text
    with each comment replaced by its line breaks and without the trailing commas.
  */
  lemma NormalizeExact(d: Doc)
    requires DocOk(d)
    ensures Normalize(PrintDoc(d)) == Some(PrintDoc(CleanDoc(d)))
  {
    CommentsStripped(DocPieces(d), d.tail);
    PlainOk(DocPieces(d));
    CommasDropped(Plain(DocPieces(d)));
    DocBecomes(d);
    assert PrintAll(DocPieces(CleanDoc(d))) + "" == PrintAll(DocPieces(CleanDoc(d)));
  }

  lemma LiteralsAppend(p: Piece, ps: seq<Piece>)
    ensures Literals([p] + ps) == (if p.Quote? then [Print(p)] else []) + Literals(ps)
  {
    assert ([p] + ps)[1..] == ps;
  }

  lemma {:induction false} LiteralsPlain(ps: seq<Piece>)
    ensures Literals(Plain(ps)) == Literals(ps)
  {
    if ps != [] {
      LiteralsPlain(ps[1..]);
      assert Plain(ps)[1..] == Plain(ps[1..]);
    }
  }

  lemma {:induction false} LiteralsDropped(ps: seq<Piece>, next: bool)
    ensures Literals(DropCommas(ps, next)) == Literals(ps)
  {
    if ps != [] {
      LiteralsDropped(ps[1..], next);
      LiteralsAppend(ps[0], DropCommas(ps[1..], next));
    }
  }

  /** Every string literal is kept byte for byte. */
  lemma LiteralsKept(d: Doc)
    requires DocOk(d)
    ensures Literals(DocPieces(CleanDoc(d))) == Literals(DocPieces(d))
  {
    DocBecomes(d);
    LiteralsPlain(DocPieces(d));
    LiteralsDropped(Plain(DocPieces(d)), false);
  }

  lemma {:induction false} CleanNoTrailing(v: Value)
    ensures NoTrailing(Clean(v))
  {
    if v.Full? {
      CleanMembersNoTrailing(v.members);
    }
  }

  lemma {:induction false} CleanMembersNoTrailing(ms: Members)
    ensures NoTrailingMembers(CleanMembers(ms))
    ensures forall g: seq<Trivia> :: NoTrailingMembers(EndWith(CleanMembers(ms), g))
  {
    match ms {
      case One(m) => CleanNoTrailing(m.value);
      case More(init, last) =>
        CleanMembersNoTrailing(init);
        CleanNoTrailing(last.value);
    }
  }

  lemma {:induction false} DropNoComments(ps: seq<Piece>, next: bool)
    requires NoComments(ps)
    ensures NoComments(DropCommas(ps, next))
  {
    if ps != [] {
      DropNoComments(ps[1..], next);
    }
  }

  /** What normalising leaves is JSON. */
  lemma CleanIsJson(d: Doc)
    requires DocOk(d)
    ensures IsJson(CleanDoc(d))
  {
    DocBecomes(d);
    PlainOk(DocPieces(d));
    DropNoComments(Plain(DocPieces(d)), false);
    CleanNoTrailing(d.value);
  }

  lemma GapsClean(g: seq<Trivia>)
    requires NoComments(Gaps(g))
    ensures PlainGap(g) == g
  {
    assert forall i :: 0 <= i < |g| ==> Gaps(g)[i].t == g[i];
  }

  lemma NoCommentsIn(a: seq<Piece>, b: seq<Piece>)
    requires NoComments(a + b)
    ensures NoComments(a) && NoComments(b)
  {
    assert forall i :: 0 <= i < |a| ==> (a + b)[i] == a[i];
    assert forall i :: 0 <= i < |b| ==> (a + b)[|a| + i] == b[i];
  }

  lemma {:induction false} ValueClean(v: Value)
    requires NoComments(Pieces(v)) && NoTrailing(v)
    ensures Clean(v) == v
  {
    match v {
      case Scalar(_) =>
      case Empty(open, close, inner) =>
        NoCommentsIn([Mark(open)] + Gaps(inner), [Mark(close)]);
        NoCommentsIn([Mark(open)], Gaps(inner));
        GapsClean(inner);
      case Full(open, close, members, _) =>
        assert Pieces(v) == [Mark(open)] + MembersPieces(members) + [] + [Mark(close)];
        assert Pieces(v) == [Mark(open)] + MembersPieces(members) + [Mark(close)];
        NoCommentsIn([Mark(open)] + MembersPieces(members), [Mark(close)]);
        NoCommentsIn([Mark(open)], MembersPieces(members));
        MembersClean(members);
    }
  }

  lemma {:induction false} MembersClean(ms: Members)
    requires NoComments(MembersPieces(ms)) && NoTrailingMembers(ms)
    ensures CleanMembers(ms) == ms
  {
    match ms {
      case One(m) => MemberClean(m);
      case More(init, last) =>
        NoCommentsIn(MembersPieces(init) + [Mark(',')], MemberPieces(last));
        NoCommentsIn(MembersPieces(init), [Mark(',')]);
        MembersClean(init);
        MemberClean(last);
    }
  }

  lemma {:induction false} MemberClean(m: Member)
    requires NoComments(MemberPieces(m)) && NoTrailing(m.value)
    ensures CleanMember(m) == m
  {
    NoCommentsIn(Gaps(m.before) + KeyPieces(m.key) + Pieces(m.value), Gaps(m.after));
    NoCommentsIn(Gaps(m.before) + KeyPieces(m.key), Pieces(m.value));
    NoCommentsIn(Gaps(m.before), KeyPieces(m.key));
    GapsClean(m.before);
    GapsClean(m.after);
    ValueClean(m.value);
    if m.key.Key? {
      var k := m.key;
      NoCommentsIn([Quote(k.body)] + Gaps(k.beforeColon) + [Mark(':')], Gaps(k.afterColon));
      NoCommentsIn([Quote(k.body)] + Gaps(k.beforeColon), [Mark(':')]);
      NoCommentsIn([Quote(k.body)], Gaps(k.beforeColon));
      GapsClean(k.beforeColon);
      GapsClean(k.afterColon);
    }
  }

  /** Normalising leaves JSON as it is. */
  lemma NormalizeJson(d: Doc)
    requires DocOk(d) && IsJson(d)
    ensures Normalize(PrintDoc(d)) == Some(PrintDoc(d))
  {
    NormalizeExact(d);
    NoCommentsIn(Gaps(d.before) + Pieces(d.value), Gaps(d.after));
    NoCommentsIn(Gaps(d.before), Pieces(d.value));
    GapsClean(d.before);
    ValueClean(d.value);
    GapsClean(d.after);
  }
}
