/**
  The comment pass by positions: an automaton tells for each byte of a text whether it is code, inside a
  string or inside a comment, and with that which bytes the pass keeps and when it fails.
*/
module JsoncPlaces {
  import opened Options
  import opened Jsonc

  // Where a byte stands: code, code after a slash, a string, a string after a backslash, a line comment,
  // a block comment, a block comment after an asterisk.
  datatype Place = Plain | Slash | Text | Backslash | Line | Block | Star

  function Move(p: Place, c: char): Place {
    match p
    case Plain => if c == '"' then Text else if c == '/' then Slash else Plain
    case Slash => if c == '"' then Text else if c == '/' then Line else if c == '*' then Block else Plain
    case Text => if c == '"' then Plain else if c == '\\' then Backslash else Text
    case Backslash => Text
    case Line => if IsBreak(c) then Plain else Line
    case Block => if c == '*' then Star else Block
    case Star => if c == '/' then Plain else if c == '*' then Star else Block
  }

  function PlaceAt(s: string, i: nat): Place
    requires i <= |s|
  {
    if i == 0 then Plain else Move(PlaceAt(s, i - 1), s[i - 1])
  }

  predicate InComment(p: Place) { p == Line || p == Block || p == Star }

  // A string or a block comment that has not ended.
  predicate Open(p: Place) { p == Text || p == Backslash || p == Block || p == Star }

  // Line breaks are kept, and bytes outside comments; a slash only if it does not open one.
  predicate Kept(s: string, i: nat)
    requires i < |s|
  {
    var p, q := PlaceAt(s, i), PlaceAt(s, i + 1);
    if q == Slash then i + 1 == |s| || !InComment(PlaceAt(s, i + 2))
    else if InComment(p) || InComment(q) then IsBreak(s[i])
    else true
  }

  function KeptFrom(s: string, i: nat): string
    requires i <= |s|
    decreases |s| - i
  {
    if i == |s| then "" else (if Kept(s, i) then [s[i]] else "") + KeptFrom(s, i + 1)
  }

  // How a place outside comments looks to the pass.
  function LexAt(p: Place): Lex { if p == Text then InString else if p == Backslash then Escaped else Code }

  // The rest of the text is read from code or a string, or after a slash that opens no comment.
  predicate AtToken(s: string, i: nat)
    requires i <= |s|
  {
    !InComment(PlaceAt(s, i)) && (PlaceAt(s, i) == Slash && i < |s| ==> s[i] != '/' && s[i] != '*')
  }

  lemma {:induction false} LineScan(s: string, j: nat) returns (end: nat)
    requires j <= |s| && PlaceAt(s, j) == Line
    ensures j <= end <= |s| && s[end..] == SkipLine(s[j..]) && PlaceAt(s, end) == Line
    ensures KeptFrom(s, j) == KeptFrom(s, end)
    decreases |s| - j
  {
    if j == |s| || IsBreak(s[j]) {
      end := j;
    } else {
      assert s[j..][1..] == s[j + 1..];
      end := LineScan(s, j + 1);
    }
  }

  lemma BlockStep(s: string, j: nat)
    requires j < |s| && (PlaceAt(s, j) == Block || (PlaceAt(s, j) == Star && s[j] != '/'))
    ensures PlaceAt(s, j + 1) == if s[j] == '*' then Star else Block
    ensures KeptFrom(s, j) == if IsBreak(s[j]) then [s[j]] + KeptFrom(s, j + 1) else KeptFrom(s, j + 1)
  {
    assert Kept(s, j) <==> IsBreak(s[j]);
  }

  lemma {:induction false} BlockScan(s: string, j: nat) returns (end: nat)
    requires j <= |s| && (PlaceAt(s, j) == Block || (PlaceAt(s, j) == Star && (j < |s| ==> s[j] != '/')))
    ensures j <= end <= |s|
    ensures SkipBlock(s[j..]).None? ==> Open(PlaceAt(s, |s|))
    ensures SkipBlock(s[j..]).Some? ==>
              && s[end..] == SkipBlock(s[j..]).value.1 && PlaceAt(s, end) == Plain
              && KeptFrom(s, j) == SkipBlock(s[j..]).value.0 + KeptFrom(s, end)
    decreases |s| - j
  {
    hide PlaceAt, KeptFrom, Kept;
    end := j;
    if j < |s| {
      BlockStep(s, j);
      if j + 1 < |s| {
        assert s[j..][1..] == s[j + 1..] && s[j..][2..] == s[j + 2..];
        if s[j] == '*' && s[j + 1] == '/' {
          end := j + 2;
          BlockEnds(s, j);
        } else {
          end := BlockScan(s, j + 1);
          if SkipBlock(s[j + 1..]).Some? {
            BreaksJoin(s, j, end);
          }
        }
      }
    }
  }

  lemma BreaksJoin(s: string, j: nat, end: nat)
    requires j + 1 < |s| && end <= |s| && SkipBlock(s[j + 1..]).Some? && !(s[j] == '*' && s[j + 1] == '/')
    ensures var more := SkipBlock(s[j + 1..]).value.0;
            && SkipBlock(s[j..]).Some? && SkipBlock(s[j..]).value.1 == SkipBlock(s[j + 1..]).value.1
            && SkipBlock(s[j..]).value.0 + KeptFrom(s, end)
            == if IsBreak(s[j]) then [s[j]] + (more + KeptFrom(s, end)) else more + KeptFrom(s, end)
  {
    hide KeptFrom;
    assert s[j..][1..] == s[j + 1..];
  }

  lemma BlockEnds(s: string, j: nat)
    requires j + 1 < |s| && (PlaceAt(s, j) == Block || PlaceAt(s, j) == Star) && s[j] == '*' && s[j + 1] == '/'
    ensures PlaceAt(s, j + 2) == Plain && KeptFrom(s, j) == KeptFrom(s, j + 2) == "" + KeptFrom(s, j + 2)
  {
    assert PlaceAt(s, j + 1) == Star;
    assert !Kept(s, j) && !Kept(s, j + 1);
  }

  // The two bytes that open a comment.
  lemma CommentOpens(s: string, i: nat)
    requires i + 1 < |s| && PlaceAt(s, i) == Plain && s[i] == '/' && (s[i + 1] == '/' || s[i + 1] == '*')
    ensures PlaceAt(s, i + 2) == (if s[i + 1] == '/' then Line else Block) && KeptFrom(s, i) == KeptFrom(s, i + 2)
  {
    assert PlaceAt(s, i + 1) == Slash;
    assert !Kept(s, i) && !Kept(s, i + 1);
  }

  lemma CopiedKept(s: string, i: nat)
    requires i < |s| && AtToken(s, i)
    requires !(PlaceAt(s, i) == Plain && s[i] == '/' && i + 1 < |s| && (s[i + 1] == '/' || s[i + 1] == '*'))
    ensures Kept(s, i) && AtToken(s, i + 1) && LexAt(PlaceAt(s, i + 1)) == Next(LexAt(PlaceAt(s, i)), s[i])
  {
    if i + 1 < |s| && PlaceAt(s, i + 1) == Slash {
      assert PlaceAt(s, i + 2) == Move(Slash, s[i + 1]);
    }
  }

  lemma {:induction false} TokensKept(s: string, i: nat)
    requires i <= |s| && AtToken(s, i)
    ensures StripComments(s[i..], LexAt(PlaceAt(s, i))) == if Open(PlaceAt(s, |s|)) then None else Some(KeptFrom(s, i))
    decreases |s| - i
  {
    hide PlaceAt, Kept, SkipLine, SkipBlock, Move;
    var p := PlaceAt(s, i);
    if i == |s| {
    } else if p == Plain && s[i] == '/' && i + 1 < |s| && (s[i + 1] == '/' || s[i + 1] == '*') {
      assert s[i..][2..] == s[i + 2..];
      CommentOpens(s, i);
      if s[i + 1] == '/' {
        LineKept(s, i);
      } else {
        BlockKept(s, i);
      }
    } else {
      assert s[i..][1..] == s[i + 1..];
      CopiedKept(s, i);
      TokensKept(s, i + 1);
    }
  }

  lemma LineKept(s: string, i: nat)
    requires i + 1 < |s| && PlaceAt(s, i) == Plain && s[i] == '/' && s[i + 1] == '/'
    ensures StripComments(s[i..], Code) == if Open(PlaceAt(s, |s|)) then None else Some(KeptFrom(s, i))
    decreases |s| - i, 0
  {
    hide Kept, SkipLine, StripComments, PlaceAt, KeptFrom, Prepend;
    CommentOpens(s, i);
    var end := LineScan(s, i + 2);
    CopyLine(s, i, end, "");
    PrependTwice("", "", StripComments(s[i..], Code));
    if end < |s| {
      BreakKept(s, end);
      TokensKept(s, end + 1);
    }
    PrependBreak(s, end);
  }

  lemma BreakKept(s: string, end: nat)
    requires end < |s| && PlaceAt(s, end) == Line && IsBreak(s[end])
    ensures AtToken(s, end + 1) && LexAt(PlaceAt(s, end + 1)) == Code && KeptFrom(s, end) == [s[end]] + KeptFrom(s, end + 1)
  {
    assert Kept(s, end);
  }

  lemma PrependBreak(s: string, end: nat)
    requires end <= |s|
    ensures end == |s| ==> KeptFrom(s, end) == ""
    ensures Prepend("", Some("")) == Some("")
    ensures end < |s| ==> forall more :: Prepend("" + [s[end]], Some(more)) == Some([s[end]] + more)
    ensures end < |s| ==> Prepend("" + [s[end]], None) == None
  {
    assert "" + "" == "";
    if end < |s| {
      assert "" + [s[end]] == [s[end]];
    }
  }

  lemma BlockKept(s: string, i: nat)
    requires i + 1 < |s| && PlaceAt(s, i) == Plain && s[i] == '/' && s[i + 1] == '*'
    ensures StripComments(s[i..], Code) == if Open(PlaceAt(s, |s|)) then None else Some(KeptFrom(s, i))
    decreases |s| - i, 0
  {
    hide PlaceAt, KeptFrom, Kept, SkipBlock, StripComments;
    CommentOpens(s, i);
    var end := BlockScan(s, i + 2);
    CopyBlock(s, i, "");
    PrependTwice("", "", StripComments(s[i..], Code));
    if SkipBlock(s[i + 2..]).Some? {
      TokensKept(s, end);
      assert forall b: string :: "" + b == b;
    }
  }

  /**
    Of any text the comment pass keeps exactly the bytes outside comments and the line breaks, and it
    fails exactly if the text ends inside a string or a block comment.
  */
  lemma CommentsByPlace(s: string)
    ensures StripComments(s, Code) == if Open(PlaceAt(s, |s|)) then None else Some(KeptFrom(s, 0))
  {
    assert s[0..] == s;
    TokensKept(s, 0);
  }

  /** Nothing else makes the normalisation fail. */
  lemma NormalizeFailsIff(s: string)
    ensures Normalize(s).None? <==> Open(PlaceAt(s, |s|))
  {
    hide StripComments, PlaceAt, KeptFrom;
    CommentsByPlace(s);
  }
}
