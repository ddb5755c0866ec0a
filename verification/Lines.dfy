/** Texts as lists of lines, split and joined at line feeds. */
module Lines {
  import opened Text

  const LF := '\n'

  // As many lines as there are line feeds, and one more.
  function Split(s: string): (lines: seq<string>)
    ensures lines != []
  {
    var i := IndexOf(s, LF);
    if i < |s| then [s[..i]] + Split(s[i + 1..]) else [s]
  }

  function Join(lines: seq<string>): string {
    if lines == [] then "" else if |lines| == 1 then lines[0] else lines[0] + [LF] + Join(lines[1..])
  }

  ghost predicate NoBreaks(lines: seq<string>) { forall i :: 0 <= i < |lines| ==> LF !in lines[i] }

  lemma {:induction false} SplitNoBreaks(s: string)
    ensures NoBreaks(Split(s))
  {
    var i := IndexOf(s, LF);
    if i < |s| {
      SplitNoBreaks(s[i + 1..]);
    }
  }

  lemma {:induction false} JoinSplit(s: string)
    ensures Join(Split(s)) == s
  {
    var i := IndexOf(s, LF);
    if i < |s| {
      JoinSplit(s[i + 1..]);
      assert s == s[..i] + [LF] + s[i + 1..];
    }
  }

  /** Splitting gives joined lines back. */
  lemma {:induction false} SplitJoin(lines: seq<string>)
    requires lines != [] && NoBreaks(lines)
    ensures Split(Join(lines)) == lines
  {
    var s, first := Join(lines), lines[0];
    if |lines| == 1 {
    } else {
      IndexOfFirst(first, LF, Join(lines[1..]));
      assert s[|first| + 1..] == Join(lines[1..]) && s[..|first|] == first;
      SplitJoin(lines[1..]);
    }
  }

  lemma {:induction false} JoinMore(lines: seq<string>, last: string)
    requires lines != []
    ensures Join(lines + [last]) == Join(lines) + [LF] + last
  {
    if |lines| == 1 {
      assert (lines + [last])[1..] == [last];
    } else {
      assert (lines + [last])[1..] == lines[1..] + [last];
      JoinMore(lines[1..], last);
    }
  }

  /** A file written as lines that each end in a line feed reads as those lines and an empty one. */
  lemma SplitFile(lines: seq<string>)
    requires lines != [] && NoBreaks(lines)
    ensures Split(Join(lines) + [LF]) == lines + [""]
  {
    JoinMore(lines, "");
    assert Join(lines) + [LF] + "" == Join(lines) + [LF];
    SplitJoin(lines + [""]);
  }

  // The lines before the empty ones at the end.
  function DropEmptyTail(lines: seq<string>): seq<string> {
    if lines != [] && lines[|lines| - 1] == "" then DropEmptyTail(lines[..|lines| - 1]) else lines
  }

  lemma {:induction false} DropEmptyTailJoin(lines: seq<string>)
    requires DropEmptyTail(lines) != [] && NoBreaks(lines)
    ensures TrimRight(Join(lines), c => c == LF) == Join(DropEmptyTail(lines))
  {
    var n, cut := |lines| - 1, (c: char) => c == LF;
    if lines[n] == "" {
      DropEmptyTailJoin(lines[..n]);
      JoinMore(lines[..n], "");
      assert lines == lines[..n] + [""];
      assert Join(lines) == Join(lines[..n]) + [LF];
      assert Join(lines)[..|Join(lines)| - 1] == Join(lines[..n]);
    } else {
      JoinEnds(lines);
    }
  }

  lemma {:induction false} JoinEnds(lines: seq<string>)
    requires lines != [] && lines[|lines| - 1] != ""
    ensures Join(lines) != [] && Join(lines)[|Join(lines)| - 1] == lines[|lines| - 1][|lines[|lines| - 1]| - 1]
  {
    if |lines| > 1 {
      JoinEnds(lines[1..]);
    }
  }

  /** Cutting the line feeds off the end of a text drops its empty last lines. */
  lemma SplitTrimmed(lines: seq<string>)
    requires DropEmptyTail(lines) != [] && NoBreaks(lines)
    ensures Split(TrimRight(Join(lines), c => c == LF)) == DropEmptyTail(lines)
  {
    DropEmptyTailJoin(lines);
    DropEmptyTailPrefix(lines);
    SplitJoin(DropEmptyTail(lines));
  }

  lemma {:induction false} DropEmptyTailPrefix(lines: seq<string>)
    ensures |DropEmptyTail(lines)| <= |lines| && DropEmptyTail(lines) == lines[..|DropEmptyTail(lines)|]
    ensures DropEmptyTail(lines) != [] ==> DropEmptyTail(lines)[|DropEmptyTail(lines)| - 1] != ""
  {
    if lines != [] && lines[|lines| - 1] == "" {
      DropEmptyTailPrefix(lines[..|lines| - 1]);
    }
  }
}
