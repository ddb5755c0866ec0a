/**
  JSON with comments and trailing commas, made into JSON by two passes over the bytes.  A byte
  is written as the character of its code; only ASCII bytes matter to the passes.
*/
module Jsonc {
  import opened Options

  predicate IsBreak(c: char) { c == '\n' || c == '\r' }

  predicate IsWhite(c: char) { c == ' ' || c == '\t' || c == '\n' || c == '\r' }

  predicate Closes(c: char) { c == '}' || c == ']' }

  // Where a byte stands: outside strings, inside one, or after a backslash in one.
  datatype Lex = Code | InString | Escaped

  function Next(lex: Lex, c: char): Lex {
    match lex
    case Code => if c == '"' then InString else Code
    case InString => if c == '\\' then Escaped else if c == '"' then Code else InString
    case Escaped => InString
  }

  // ---------------------------------------------------------------------------- comments

  // The text from the first line break on.
  function SkipLine(s: string): (r: string)
    ensures |r| <= |s| && (r != "" ==> IsBreak(r[0]))
  {
    if s == "" || IsBreak(s[0]) then s else SkipLine(s[1..])
  }

  // Line breaks of a block comment, and what follows its end; None if it does not end.
  function SkipBlock(s: string): (r: Option<(string, string)>)
    ensures r.Some? ==> |r.value.1| < |s| && forall i :: 0 <= i < |r.value.0| ==> IsBreak(r.value.0[i])
  {
    if |s| < 2 then None
    else if s[0] == '*' && s[1] == '/' then Some(("", s[2..]))
    else
      var rest := SkipBlock(s[1..]);
      if rest.None? then None
      else Some((if IsBreak(s[0]) then [s[0]] + rest.value.0 else rest.value.0, rest.value.1))
  }

  function Prepend(front: string, s: Option<string>): Option<string> {
    if s.None? then None else Some(front + s.value)
  }

  // Each comment is replaced by its line breaks; an open string or block comment is an error.
  function StripComments(s: string, lex: Lex): Option<string>
    decreases |s|
  {
    if s == "" then if lex == Code then Some("") else None
    else if lex == Code && s[0] == '/' && |s| > 1 && s[1] == '/' then
      var rest := SkipLine(s[2..]);
      if rest == "" then Some("") else Prepend([rest[0]], StripComments(rest[1..], Code))
    else if lex == Code && s[0] == '/' && |s| > 1 && s[1] == '*' then
      var rest := SkipBlock(s[2..]);
      if rest.None? then None else Prepend(rest.value.0, StripComments(rest.value.1, Code))
    else Prepend([s[0]], StripComments(s[1..], Next(lex, s[0])))
  }

  lemma PrependTwice(a: string, b: string, s: Option<string>)
    ensures Prepend(a, Prepend(b, s)) == Prepend(a + b, s) && Prepend("", s) == s
  {
    if s.Some? {
      assert a + (b + s.value) == a + b + s.value && "" + s.value == s.value;
    }
  }

  function LexOf(inString: bool, escaped: bool): Lex { if escaped then Escaped else if inString then InString else Code }

  // One byte that is copied.
  lemma CopyByte(data: string, i: nat, lex: Lex, out: string)
    requires i < |data|
    requires lex == Code && data[i] == '/' && i + 1 < |data| ==> data[i + 1] != '/' && data[i + 1] != '*'
    ensures Prepend(out, StripComments(data[i..], lex)) == Prepend(out + [data[i]], StripComments(data[i + 1..], Next(lex, data[i])))
  {
    assert data[i..][1..] == data[i + 1..];
    PrependTwice(out, [data[i]], StripComments(data[i + 1..], Next(lex, data[i])));
  }

  lemma CopyLine(data: string, i: nat, end: nat, out: string)
    requires i + 2 <= end <= |data| && data[i] == '/' && data[i + 1] == '/' && data[end..] == SkipLine(data[i + 2..])
    ensures Prepend(out, StripComments(data[i..], Code))
         == if end == |data| then Prepend(out, Some("")) else Prepend(out + [data[end]], StripComments(data[end + 1..], Code))
  {
    assert data[i..][2..] == data[i + 2..];
    if end < |data| {
      assert data[end..][1..] == data[end + 1..];
      PrependTwice(out, [data[end]], StripComments(data[end + 1..], Code));
    }
  }

  lemma CopyBlock(data: string, i: nat, out: string)
    requires i + 2 <= |data| && data[i] == '/' && data[i + 1] == '*'
    ensures var rest := SkipBlock(data[i + 2..]);
            Prepend(out, StripComments(data[i..], Code))
            == if rest.None? then None else Prepend(out + rest.value.0, StripComments(rest.value.1, Code))
  {
    assert data[i..][2..] == data[i + 2..];
    var rest := SkipBlock(data[i + 2..]);
    if rest.Some? {
      PrependTwice(out, rest.value.0, StripComments(rest.value.1, Code));
    }
  }

  /** The loop over the bytes, with the index moved past comments. */
  method StripJSONComments(data: string) returns (r: Option<string>)
    ensures r == StripComments(data, Code)
  {
    hide Prepend, StripComments, SkipLine, SkipBlock;
    var out, inString, escaped, i := "", false, false, 0;
    assert data[0..] == data;
    PrependTwice("", "", StripComments(data, Code));
    while i < |data|
      invariant i <= |data| && (escaped ==> inString)
      invariant StripComments(data, Code) == Prepend(out, StripComments(data[i..], LexOf(inString, escaped)))
    {
      var ch := data[i];
      if inString {
        CopyByte(data, i, LexOf(inString, escaped), out);
        out, i := out + [ch], i + 1;
        if escaped {
          escaped := false;
        } else if ch == '\\' {
          escaped := true;
        } else if ch == '"' {
          inString := false;
        }
        continue;
      }
      if ch == '"' {
        CopyByte(data, i, Code, out);
        inString, out, i := true, out + [ch], i + 1;
        continue;
      }
      if ch == '/' && i + 1 < |data| {
        if data[i + 1] == '/' {
          var end := SkipLineComment(data, i + 2);
          CopyLine(data, i, end, out);
          i := end;
          if i < |data| {
            out, i := out + [data[i]], i + 1;
          } else {
            NothingLeft(data, out);
          }
          continue;
        }
        if data[i + 1] == '*' {
          CopyBlock(data, i, out);
          var breaks, end := SkipBlockComment(data, i + 2);
          if end.None? {
            return None;
          }
          out, i := out + breaks, end.value;
          continue;
        }
      }
      CopyByte(data, i, Code, out);
      out, i := out + [ch], i + 1;
    }
    NothingLeft(data, out);
    return if inString then None else Some(out);
  }

  lemma NothingLeft(data: string, out: string)
    ensures Prepend(out, StripComments(data[|data|..], Code)) == Prepend(out, Some("")) == Some(out)
    ensures forall lex: Lex :: lex != Code ==> Prepend(out, StripComments(data[|data|..], lex)) == None
  {
    assert out + "" == out;
  }

  method SkipLineComment(data: string, from: nat) returns (i: nat)
    requires from <= |data|
    ensures from <= i <= |data| && data[i..] == SkipLine(data[from..])
  {
    i := from;
    while i < |data| && !IsBreak(data[i])
      invariant from <= i <= |data| && SkipLine(data[from..]) == SkipLine(data[i..])
    {
      assert data[i..][1..] == data[i + 1..];
      i := i + 1;
    }
  }

  method SkipBlockComment(data: string, from: nat) returns (breaks: string, end: Option<nat>)
    requires from <= |data|
    ensures end.None? <==> SkipBlock(data[from..]).None?
    ensures end.Some? ==> from <= end.value <= |data| && SkipBlock(data[from..]) == Some((breaks, data[end.value..]))
  {
    breaks := "";
    var i := from;
    assert forall s: string :: "" + s == s;
    while i + 1 < |data|
      invariant from <= i <= |data|
      invariant SkipBlock(data[from..])
             == var rest := SkipBlock(data[i..]); if rest.None? then None else Some((breaks + rest.value.0, rest.value.1))
    {
      assert data[i..][1..] == data[i + 1..] && data[i..][2..] == data[i + 2..];
      if data[i] == '*' && data[i + 1] == '/' {
        assert breaks + "" == breaks;
        return breaks, Some(i + 2);
      }
      if IsBreak(data[i]) {
        assert forall s: string :: (breaks + [data[i]]) + s == breaks + ([data[i]] + s);
        breaks := breaks + [data[i]];
      }
      i := i + 1;
    }
    end := None;
  }

  // ----------------------------------------------------------------------- trailing commas

  // The first byte that is not white space.
  function Solid(s: string): Option<char> {
    if s == "" then None else if IsWhite(s[0]) then Solid(s[1..]) else Some(s[0])
  }

  predicate ClosesNext(s: string) { Solid(s).Some? && Closes(Solid(s).value) }

  function StripCommas(s: string, lex: Lex): string {
    if s == "" then ""
    else if lex == Code && s[0] == ',' && ClosesNext(s[1..]) then StripCommas(s[1..], Code)
    else [s[0]] + StripCommas(s[1..], Next(lex, s[0]))
  }

  method StripJSONTrailingCommas(data: string) returns (out: string)
    ensures out == StripCommas(data, Code)
  {
    var inString, escaped := false, false;
    out := "";
    assert data[0..] == data && "" + StripCommas(data, Code) == StripCommas(data, Code);
    for i := 0 to |data|
      invariant escaped ==> inString
      invariant StripCommas(data, Code)
             == out + StripCommas(data[i..], LexOf(inString, escaped))
    {
      var ch := data[i];
      assert data[i..][1..] == data[i + 1..] && forall s: string :: (out + [ch]) + s == out + ([ch] + s);
      if inString {
        out := out + [ch];
        if escaped {
          escaped := false;
        } else if ch == '\\' {
          escaped := true;
        } else if ch == '"' {
          inString := false;
        }
        continue;
      }
      if ch == '"' {
        inString, out := true, out + [ch];
        continue;
      }
      if ch == ',' {
        var j := SkipWhite(data, i + 1);
        if j < |data| && Closes(data[j]) {
          continue;
        }
      }
      out := out + [ch];
    }
    assert out + "" == out;
  }

  method SkipWhite(data: string, from: nat) returns (j: nat)
    requires from <= |data|
    ensures from <= j <= |data| && Solid(data[from..]) == if j < |data| then Some(data[j]) else None
  {
    j := from;
    while j < |data| && IsWhite(data[j])
      invariant from <= j <= |data| && Solid(data[from..]) == Solid(data[j..])
    {
      assert data[j..][1..] == data[j + 1..];
      j := j + 1;
    }
  }

  function Normalize(data: string): Option<string> {
    var s := StripComments(data, Code);
    if s.None? then None else Some(StripCommas(s.value, Code))
  }

  method NormalizeJSONC(data: string) returns (r: Option<string>)
    ensures r == Normalize(data)
  {
    var withoutComments := StripJSONComments(data);
    if withoutComments.None? {
      return None;
    }
    var out := StripJSONTrailingCommas(withoutComments.value);
    return Some(out);
  }

  // ------------------------------------------------------------------- what the passes keep

  function Breaks(s: string): string {
    if s == "" then "" else (if IsBreak(s[0]) then [s[0]] else "") + Breaks(s[1..])
  }

  lemma {:induction false} BreaksOfAll(s: string, t: string)
    requires forall i :: 0 <= i < |s| ==> IsBreak(s[i])
    ensures Breaks(s + t) == s + Breaks(t)
  {
    if s == "" {
      assert s + t == t;
    } else {
      assert (s + t)[1..] == s[1..] + t;
      BreaksOfAll(s[1..], t);
    }
  }

  lemma {:induction false} SkipLineBreaks(s: string)
    ensures Breaks(SkipLine(s)) == Breaks(s)
  {
    if s != "" && !IsBreak(s[0]) {
      SkipLineBreaks(s[1..]);
    }
  }

  lemma {:induction false} SkipBlockBreaks(s: string)
    requires SkipBlock(s).Some?
    ensures Breaks(s) == SkipBlock(s).value.0 + Breaks(SkipBlock(s).value.1)
  {
    if s[0] == '*' && s[1] == '/' {
      assert Breaks(s[1..]) == Breaks(s[1..][1..]) && s[1..][1..] == s[2..];
    } else {
      SkipBlockBreaks(s[1..]);
    }
  }

  /** Stripping comments keeps the line breaks of the input, in their order. */
  lemma {:induction false} CommentsKeepBreaks(s: string, lex: Lex)
    requires StripComments(s, lex).Some?
    ensures Breaks(StripComments(s, lex).value) == Breaks(s)
    decreases |s|
  {
    if s == "" {
    } else if lex == Code && s[0] == '/' && |s| > 1 && s[1] == '/' {
      var rest := SkipLine(s[2..]);
      SkipLineBreaks(s[2..]);
      assert Breaks(s) == Breaks(s[1..]) && s[1..][1..] == s[2..];
      if rest != "" {
        CommentsKeepBreaks(rest[1..], Code);
        FirstBreak(rest[0], StripComments(rest[1..], Code).value);
      }
    } else if lex == Code && s[0] == '/' && |s| > 1 && s[1] == '*' {
      var rest := SkipBlock(s[2..]).value;
      SkipBlockBreaks(s[2..]);
      assert Breaks(s) == Breaks(s[1..]) && s[1..][1..] == s[2..];
      CommentsKeepBreaks(rest.1, Code);
      BreaksOfAll(rest.0, StripComments(rest.1, Code).value);
    } else {
      CommentsKeepBreaks(s[1..], Next(lex, s[0]));
      FirstBreak(s[0], StripComments(s[1..], Next(lex, s[0])).value);
    }
  }

  lemma FirstBreak(c: char, s: string)
    ensures Breaks([c] + s) == (if IsBreak(c) then [c] else "") + Breaks(s)
  {
    assert ([c] + s)[1..] == s;
  }

  lemma {:induction false} BreaksKept(s: string, t: string)
    requires forall i :: 0 <= i < |s| ==> IsBreak(s[i])
    ensures StripComments(s + t, Code) == Prepend(s, StripComments(t, Code))
  {
    if s == "" {
      assert s + t == t;
      assert forall u: string :: "" + u == u;
    } else {
      assert (s + t)[1..] == s[1..] + t;
      BreaksKept(s[1..], t);
      assert forall u: string :: [s[0]] + (s[1..] + u) == s + u;
    }
  }

  // A byte that starts no comment stays the first byte.
  lemma FirstKept(s: string)
    requires StripComments(s, Code).Some? && s != "" && s[0] != '/'
    ensures StripComments(s, Code).value != "" && StripComments(s, Code).value[0] == s[0]
  {
  }

  lemma ByteKept(c: char, t: string, lex: Lex)
    requires lex == Code && c == '/' ==> t == "" || (t[0] != '/' && t[0] != '*')
    ensures StripComments([c] + t, lex) == Prepend([c], StripComments(t, Next(lex, c)))
  {
    assert ([c] + t)[1..] == t;
  }

  /** Stripping comments twice is stripping them once: no comment appears by removing others. */
  lemma {:induction false} CommentsGoneAtOnce(s: string, lex: Lex)
    requires StripComments(s, lex).Some?
    ensures StripComments(StripComments(s, lex).value, lex) == StripComments(s, lex)
    decreases |s|
  {
    if s == "" {
    } else if lex == Code && s[0] == '/' && |s| > 1 && s[1] == '/' {
      var rest := SkipLine(s[2..]);
      if rest != "" {
        CommentsGoneAtOnce(rest[1..], Code);
        ByteKept(rest[0], StripComments(rest[1..], Code).value, Code);
      }
    } else if lex == Code && s[0] == '/' && |s| > 1 && s[1] == '*' {
      var rest := SkipBlock(s[2..]).value;
      CommentsGoneAtOnce(rest.1, Code);
      BreaksKept(rest.0, StripComments(rest.1, Code).value);
    } else {
      CommentsGoneAtOnce(s[1..], Next(lex, s[0]));
      if lex == Code && s[0] == '/' && |s| > 1 {
        FirstKept(s[1..]);
      }
      ByteKept(s[0], StripComments(s[1..], Next(lex, s[0])).value, lex);
    }
  }

  // Where position k stands, from the bytes before it.
  function LexAt(s: string, k: nat): Lex
    requires k <= |s|
  {
    if k == 0 then Code else Next(LexAt(s, k - 1), s[k - 1])
  }

  // A comma outside strings that only white space separates from the end of its container.
  predicate Trailing(s: string, k: nat)
    requires k < |s|
  {
    LexAt(s, k) == Code && s[k] == ','
    && exists j :: k < j < |s| && Closes(s[j]) && forall i :: k < i < j ==> IsWhite(s[i])
  }

  function Without(s: string, k: nat): string
    requires k <= |s|
    decreases |s| - k
  {
    if k == |s| then "" else (if Trailing(s, k) then "" else [s[k]]) + Without(s, k + 1)
  }

  lemma {:induction false} SolidIs(s: string, k: nat)
    requires k <= |s|
    ensures ClosesNext(s[k..]) <==> exists j :: k <= j < |s| && Closes(s[j]) && forall i :: k <= i < j ==> IsWhite(s[i])
    decreases |s| - k
  {
    if k < |s| {
      assert s[k..][1..] == s[k + 1..];
      if IsWhite(s[k]) {
        SolidIs(s, k + 1);
        if ClosesNext(s[k..]) {
          var j :| k + 1 <= j < |s| && Closes(s[j]) && forall i :: k + 1 <= i < j ==> IsWhite(s[i]);
          assert forall i :: k <= i < j ==> IsWhite(s[i]);
        }
      }
    }
  }

  /** The second pass removes exactly the commas outside strings whose next byte but white space closes a container. */
  lemma {:induction false} CommasRemoved(s: string, k: nat)
    requires k <= |s|
    ensures StripCommas(s[k..], LexAt(s, k)) == Without(s, k)
    decreases |s| - k
  {
    if k < |s| {
      assert s[k..][1..] == s[k + 1..];
      SolidIs(s, k + 1);
      CommasRemoved(s, k + 1);
      assert Trailing(s, k) <==> LexAt(s, k) == Code && s[k] == ',' && ClosesNext(s[k + 1..]);
    }
  }

  // The next byte that is not white is a comma that is removed.
  predicate RemovedNext(s: string) {
    s != "" && if IsWhite(s[0]) then RemovedNext(s[1..]) else s[0] == ',' && ClosesNext(s[1..])
  }

  // No comma outside strings comes right before one that is removed.
  predicate Settled(s: string, lex: Lex) {
    s == "" || ((lex == Code && s[0] == ',' ==> !RemovedNext(s[1..])) && Settled(s[1..], Next(lex, s[0])))
  }

  lemma {:induction false} ClosesAfter(s: string)
    ensures ClosesNext(StripCommas(s, Code)) <==> ClosesNext(s) || RemovedNext(s)
    ensures ClosesNext(s) ==> !RemovedNext(s)
  {
    if s != "" {
      ClosesAfter(s[1..]);
      if s[0] == ',' && ClosesNext(s[1..]) {
      } else {
        FirstByte(s[0], StripCommas(s[1..], Next(Code, s[0])));
      }
    }
  }

  lemma FirstByte(c: char, rest: string)
    ensures Solid([c] + rest) == if IsWhite(c) then Solid(rest) else Some(c)
    ensures ([c] + rest)[0] == c && ([c] + rest)[1..] == rest
  {
  }

  lemma {:induction false} NoLonger(s: string, lex: Lex)
    ensures |StripCommas(s, lex)| <= |s|
  {
    if s != "" {
      NoLonger(s[1..], if lex == Code && s[0] == ',' && ClosesNext(s[1..]) then Code else Next(lex, s[0]));
    }
  }

  lemma {:induction false} StripTwice(s: string, lex: Lex)
    ensures StripCommas(StripCommas(s, lex), lex) == StripCommas(s, lex) <==> Settled(s, lex)
  {
    if s != "" {
      var c, rest := s[0], s[1..];
      ClosesAfter(rest);
      StripTwice(rest, Next(lex, c));
      if lex == Code && c == ',' && ClosesNext(rest) {
      } else {
        var out := StripCommas(rest, Next(lex, c));
        FirstByte(c, out);
        NoLonger(out, Code);
        SameTail(c, StripCommas(out, Next(lex, c)), out);
      }
    }
  }

  lemma SameTail(c: char, a: string, b: string)
    ensures [c] + a == [c] + b <==> a == b
  {
    assert ([c] + a)[1..] == a && ([c] + b)[1..] == b;
  }

  // A comma outside strings and a trailing one with nothing but white space between them.
  predicate Doubled(s: string, k: nat, m: nat) {
    k < m < |s| && LexAt(s, k) == Code && s[k] == ',' && Trailing(s, m) && forall i :: k < i < m ==> IsWhite(s[i])
  }

  lemma {:induction false} WhiteStaysCode(s: string, k: nat, m: nat)
    requires k <= m <= |s| && LexAt(s, k) == Code && forall i :: k <= i < m ==> IsWhite(s[i])
    ensures LexAt(s, m) == Code
    decreases m
  {
    if k < m {
      WhiteStaysCode(s, k, m - 1);
    }
  }

  lemma {:induction false} RemovedIs(s: string, k: nat)
    requires k <= |s| && LexAt(s, k) == Code
    ensures RemovedNext(s[k..]) <==> exists m :: k <= m < |s| && Trailing(s, m) && forall i :: k <= i < m ==> IsWhite(s[i])
    decreases |s| - k
  {
    hide LexAt;
    if k < |s| {
      assert s[k..][1..] == s[k + 1..];
      if IsWhite(s[k]) {
        assert LexAt(s, k + 1) == Code by { WhiteStaysCode(s, k, k + 1); }
        RemovedIs(s, k + 1);
        if RemovedNext(s[k..]) {
          var m :| k + 1 <= m < |s| && Trailing(s, m) && forall i :: k + 1 <= i < m ==> IsWhite(s[i]);
          assert forall i :: k <= i < m ==> IsWhite(s[i]);
        }
      } else {
        SolidIs(s, k + 1);
        assert Trailing(s, k) <==> s[k] == ',' && ClosesNext(s[k + 1..]);
      }
    }
  }

  lemma {:induction false} SettledIs(s: string, k: nat)
    requires k <= |s|
    ensures Settled(s[k..], LexAt(s, k)) <==> forall a: nat, m: nat :: k <= a ==> !Doubled(s, a, m)
    decreases |s| - k
  {
    if k < |s| {
      assert s[k..][1..] == s[k + 1..];
      SettledIs(s, k + 1);
      DoubledAt(s, k);
    }
  }

  lemma DoubledAt(s: string, k: nat)
    requires k < |s|
    ensures (exists m: nat :: Doubled(s, k, m)) <==> LexAt(s, k) == Code && s[k] == ',' && RemovedNext(s[k + 1..])
  {
    if LexAt(s, k) == Code && s[k] == ',' {
      assert LexAt(s, k + 1) == Code;
      hide LexAt, Trailing;
      RemovedIs(s, k + 1);
      if RemovedNext(s[k + 1..]) {
        var m :| k + 1 <= m < |s| && Trailing(s, m) && forall i :: k + 1 <= i < m ==> IsWhite(s[i]);
        assert Doubled(s, k, m);
      }
    }
  }

  /** Removing trailing commas twice is removing them once exactly if no other comma comes right before a trailing one. */
  lemma CommasTwice(s: string)
    ensures StripCommas(StripCommas(s, Code), Code) == StripCommas(s, Code) <==> forall k: nat, m: nat :: !Doubled(s, k, m)
  {
    StripTwice(s, Code);
    SettledIs(s, 0);
    assert s[0..] == s;
  }

  /** Removing commas is not idempotent: of two, the one left is a trailing one. */
  lemma TwoCommas()
    ensures StripCommas("[1,,]", Code) == "[1,]" && StripCommas("[1,]", Code) == "[1]"
  {
    var s := "[1,,]";
    assert s[1..] == "1,,]" && s[2..] == ",,]" && s[3..] == ",]" && s[4..] == "]" && s[5..] == "";
    assert "1,,]"[1..] == ",,]" && ",,]"[1..] == ",]" && ",]"[1..] == "]" && "]"[1..] == "";
    assert "[1,]"[1..] == "1,]" && "1,]"[1..] == ",]";
    assert StripCommas("]", Code) == "]";
    assert !ClosesNext(",]") && ClosesNext("]");
    assert StripCommas(",]", Code) == "]";
    assert StripCommas(",,]", Code) == [','] + "]";
  }
}
