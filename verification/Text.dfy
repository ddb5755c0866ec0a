/**
  Trimming, lower-casing and cutting of texts, as the standard library of the program does
  them.  A text is a sequence of characters (or of bytes: the trimming functions are generic).
*/
module Text {
  import opened Options

  // The characters that trimming removes.
  predicate IsSpace(c: char) {
    var u := c as int;
    9 <= u <= 13 || u == 0x20 || u == 0x85 || u == 0xA0 || u == 0x1680 || 0x2000 <= u <= 0x200A
    || u == 0x2028 || u == 0x2029 || u == 0x202F || u == 0x205F || u == 0x3000
  }

  function TrimLeft<T>(s: seq<T>, cut: T -> bool): seq<T> {
    if s != [] && cut(s[0]) then TrimLeft(s[1..], cut) else s
  }

  function TrimRight<T>(s: seq<T>, cut: T -> bool): seq<T> {
    if s != [] && cut(s[|s| - 1]) then TrimRight(s[..|s| - 1], cut) else s
  }

  function Trim<T>(s: seq<T>, cut: T -> bool): seq<T> { TrimRight(TrimLeft(s, cut), cut) }

  function TrimSpace(s: string): string { Trim(s, IsSpace) }

  predicate AllCut<T>(s: seq<T>, cut: T -> bool) { forall i :: 0 <= i < |s| ==> cut(s[i]) }

  // Nothing left to trim.
  predicate Trimmed<T>(s: seq<T>, cut: T -> bool) { s != [] ==> !cut(s[0]) && !cut(s[|s| - 1]) }

  lemma {:induction false} TrimLeftSplit<T>(s: seq<T>, cut: T -> bool) returns (lead: seq<T>)
    ensures s == lead + TrimLeft(s, cut) && AllCut(lead, cut)
    ensures TrimLeft(s, cut) != [] ==> !cut(TrimLeft(s, cut)[0])
  {
    if s != [] && cut(s[0]) {
      lead := TrimLeftSplit(s[1..], cut);
      assert s == [s[0]] + s[1..];
      lead := [s[0]] + lead;
    } else {
      lead := [];
    }
  }

  lemma {:induction false} TrimRightSplit<T>(s: seq<T>, cut: T -> bool) returns (tail: seq<T>)
    ensures s == TrimRight(s, cut) + tail && AllCut(tail, cut)
    ensures TrimRight(s, cut) != [] ==> !cut(TrimRight(s, cut)[|TrimRight(s, cut)| - 1])
  {
    if s != [] && cut(s[|s| - 1]) {
      tail := TrimRightSplit(s[..|s| - 1], cut);
      assert s == s[..|s| - 1] + [s[|s| - 1]];
      tail := tail + [s[|s| - 1]];
    } else {
      tail := [];
    }
  }

  /** Trimming cuts off a lead and a tail of cut characters and leaves none at either end. */
  lemma TrimSplit<T>(s: seq<T>, cut: T -> bool) returns (lead: seq<T>, tail: seq<T>)
    ensures s == lead + Trim(s, cut) + tail && AllCut(lead, cut) && AllCut(tail, cut)
    ensures Trimmed(Trim(s, cut), cut)
  {
    lead := TrimLeftSplit(s, cut);
    tail := TrimRightSplit(TrimLeft(s, cut), cut);
  }

  lemma {:induction false} TrimLeftDrop<T>(lead: seq<T>, s: seq<T>, cut: T -> bool)
    requires AllCut(lead, cut) && (s != [] ==> !cut(s[0]))
    ensures TrimLeft(lead + s, cut) == s
  {
    if lead == [] {
      assert lead + s == s;
    } else {
      assert (lead + s)[1..] == lead[1..] + s;
      TrimLeftDrop(lead[1..], s, cut);
    }
  }

  lemma {:induction false} TrimRightDrop<T>(s: seq<T>, tail: seq<T>, cut: T -> bool)
    requires AllCut(tail, cut) && (s != [] ==> !cut(s[|s| - 1]))
    ensures TrimRight(s + tail, cut) == s
  {
    if tail == [] {
      assert s + tail == s;
    } else {
      assert (s + tail)[..|s + tail| - 1] == s + tail[..|tail| - 1];
      TrimRightDrop(s, tail[..|tail| - 1], cut);
    }
  }

  /** Trimming gives back a trimmed text that was padded. */
  lemma TrimPadded<T>(lead: seq<T>, s: seq<T>, tail: seq<T>, cut: T -> bool)
    requires AllCut(lead, cut) && AllCut(tail, cut) && Trimmed(s, cut)
    ensures Trim(lead + s + tail, cut) == s
  {
    if s == [] {
      assert lead + s + tail == (lead + tail) + [];
      TrimLeftDrop(lead + tail, [], cut);
    } else {
      assert lead + s + tail == lead + (s + tail);
      TrimLeftDrop(lead, s + tail, cut);
      TrimRightDrop(s, tail, cut);
    }
  }

  lemma TrimFixed<T>(s: seq<T>, cut: T -> bool)
    requires Trimmed(s, cut)
    ensures Trim(s, cut) == s
  {
    assert [] + s + [] == s;
    TrimPadded([], s, [], cut);
  }

  /** More to cut at the end does not matter. */
  lemma TrimBehind<T>(s: seq<T>, tail: seq<T>, cut: T -> bool)
    requires AllCut(tail, cut)
    ensures Trim(s + tail, cut) == Trim(s, cut)
  {
    var lead, end := TrimSplit(s, cut);
    assert s + tail == lead + Trim(s, cut) + (end + tail);
    TrimPadded(lead, Trim(s, cut), end + tail, cut);
  }

  // ASCII only.
  function LowerChar(c: char): char { if 'A' <= c <= 'Z' then c + 32 as char else c }

  function Lower(s: string): (r: string)
    ensures |r| == |s|
  {
    seq(|s|, i requires 0 <= i < |s| => LowerChar(s[i]))
  }

  lemma LowerTwice(s: string)
    ensures Lower(Lower(s)) == Lower(s)
  {
  }

  /** Lower-casing and trimming commute: no space has another case. */
  lemma LowerTrim(s: string)
    ensures TrimSpace(Lower(s)) == Lower(TrimSpace(s))
  {
    var lead, tail := TrimSplit(s, IsSpace);
    var body := TrimSpace(s);
    assert Lower(s) == Lower(lead) + Lower(body) + Lower(tail);
    TrimPadded(Lower(lead), Lower(body), Lower(tail), IsSpace);
  }

  // No letter has another case.
  predicate IsLower(word: string) { forall i :: 0 <= i < |word| ==> !('A' <= word[i] <= 'Z') }

  // The text is the lower-case word in any case.
  predicate InAnyCase(s: string, word: string) {
    |s| == |word| && forall i :: 0 <= i < |s| ==> s[i] == word[i] || ('A' <= s[i] <= 'Z' && s[i] as int + 32 == word[i] as int)
  }

  // With white space around it.
  ghost predicate IsWord(text: string, word: string) {
    exists lead: string, s: string, tail: string ::
      text == lead + s + tail && AllCut(lead, IsSpace) && AllCut(tail, IsSpace) && InAnyCase(s, word)
  }

  lemma LowerIs(s: string, word: string)
    requires IsLower(word)
    ensures Lower(s) == word <==> InAnyCase(s, word)
    ensures InAnyCase(s, word) && Trimmed(word, IsSpace) ==> Trimmed(s, IsSpace)
  {
    if |s| == |word| {
      forall i | 0 <= i < |s|
        ensures Lower(s)[i] == word[i] <==> s[i] == word[i] || ('A' <= s[i] <= 'Z' && s[i] as int + 32 == word[i] as int)
      {
        assert !('A' <= word[i] <= 'Z');
      }
    }
  }

  lemma IsWordIff(text: string, word: string)
    requires IsLower(word) && Trimmed(word, IsSpace)
    ensures Lower(TrimSpace(text)) == word <==> IsWord(text, word)
  {
    hide Lower, InAnyCase, IsLower, Trim;
    var lead, tail := TrimSplit(text, IsSpace);
    LowerIs(TrimSpace(text), word);
    if IsWord(text, word) {
      var a: string, s: string, b: string :|
        text == a + s + b && AllCut(a, IsSpace) && AllCut(b, IsSpace) && InAnyCase(s, word);
      LowerIs(s, word);
      TrimPadded(a, s, b, IsSpace);
    }
  }

  predicate EqualFold(a: string, b: string) { Lower(a) == Lower(b) }

  // Position of the first x, or the length.
  function IndexOf<T(==)>(s: seq<T>, x: T): (i: nat)
    ensures i <= |s| && (i < |s| ==> s[i] == x)
    ensures forall k :: 0 <= k < i ==> s[k] != x
  {
    if s == [] || s[0] == x then 0 else 1 + IndexOf(s[1..], x)
  }

  // The text around the first x, or the whole text.
  function Cut<T(==)>(s: seq<T>, x: T): (r: (seq<T>, seq<T>, bool))
    ensures r.2 ==> s == r.0 + [x] + r.1 && x !in r.0
    ensures !r.2 ==> x !in s && r.0 == s
  {
    var i := IndexOf(s, x);
    if i < |s| then (s[..i], s[i + 1..], true) else assert s[..i] == s; (s, [], false)
  }

  lemma IndexOfFirst<T>(a: seq<T>, x: T, b: seq<T>)
    requires x !in a
    ensures IndexOf(a + [x] + b, x) == |a|
  {
    var s := a + [x] + b;
    var i := IndexOf(s, x);
    assert s[|a|] == x;
  }

  lemma CutFirst<T>(a: seq<T>, x: T, b: seq<T>)
    requires x !in a
    ensures Cut(a + [x] + b, x) == (a, b, true)
  {
    IndexOfFirst(a, x, b);
    assert (a + [x] + b)[..|a|] == a && (a + [x] + b)[|a| + 1..] == b;
  }
}
