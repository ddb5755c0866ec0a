/**
  The order of texts and sorting by it.  Sorting is a library routine for the program: what
  matters here is that the sorted list is determined by the elements alone.
*/
module Sorting {
  import opened Sequences

  predicate Less(a: string, b: string) {
    b != [] && (a == [] || a[0] < b[0] || (a[0] == b[0] && Less(a[1..], b[1..])))
  }

  predicate AtMost(a: string, b: string) { a == b || Less(a, b) }

  lemma {:induction false} LessTotal(a: string, b: string)
    ensures Less(a, b) || a == b || Less(b, a)
    ensures Less(a, b) ==> a != b && !Less(b, a)
  {
    if a != [] && b != [] && a[0] == b[0] {
      LessTotal(a[1..], b[1..]);
      assert a == [a[0]] + a[1..] && b == [b[0]] + b[1..];
    }
  }

  /** The order is that of the first character that differs, and a text comes before those it begins. */
  lemma {:induction false} LessIff(a: string, b: string)
    ensures Less(a, b) <==> exists i: nat :: FirstDifference(a, b, i) && (i == |a| || a[i] < b[i])
  {
    if a == [] || b == [] || a[0] != b[0] {
      assert b != [] ==> FirstDifference(a, b, 0);
      forall i: nat | i > 0 ensures !FirstDifference(a, b, i) {
        if i <= |a| && i <= |b| {
          assert a[..i][0] == a[0] && b[..i][0] == b[0];
        }
      }
    } else {
      LessIff(a[1..], b[1..]);
      forall i: nat ensures FirstDifference(a, b, i + 1) <==> FirstDifference(a[1..], b[1..], i) {
        if i + 1 <= |a| && i + 1 <= |b| {
          assert a[..i + 1] == [a[0]] + a[1..][..i] && b[..i + 1] == [b[0]] + b[1..][..i];
          assert a[1..][..i] == a[..i + 1][1..] && b[1..][..i] == b[..i + 1][1..];
        }
      }
      assert !FirstDifference(a, b, 0);
      if i: nat :| FirstDifference(a, b, i) && (i == |a| || a[i] < b[i]) {
        assert FirstDifference(a[1..], b[1..], i - 1);
      }
      if i: nat :| FirstDifference(a[1..], b[1..], i) && (i == |a[1..]| || a[1..][i] < b[1..][i]) {
        assert FirstDifference(a, b, i + 1);
      }
    }
  }

  // Before position i the texts agree; there the first one ends, or they differ.
  predicate FirstDifference(a: string, b: string, i: nat) {
    i <= |a| && i < |b| && a[..i] == b[..i] && (i < |a| ==> a[i] != b[i])
  }

  lemma {:induction false} LessTransitive(a: string, b: string, c: string)
    requires AtMost(a, b) && AtMost(b, c)
    ensures AtMost(a, c)
    ensures Less(a, b) || Less(b, c) ==> Less(a, c)
  {
    if a != b && b != c && a != [] && a[0] == b[0] == c[0] {
      LessTransitive(a[1..], b[1..], c[1..]);
      LessTotal(a[1..], b[1..]);
    }
  }

  predicate Sorted(s: seq<string>) { forall i, j :: 0 <= i < j < |s| ==> AtMost(s[i], s[j]) }

  predicate Strict(s: seq<string>) { forall i, j :: 0 <= i < j < |s| ==> Less(s[i], s[j]) }

  function Insert(s: seq<string>, x: string): seq<string> {
    if s == [] || AtMost(x, s[0]) then [x] + s else [s[0]] + Insert(s[1..], x)
  }

  function Sort(s: seq<string>): seq<string> {
    if s == [] then [] else Insert(Sort(s[..|s| - 1]), s[|s| - 1])
  }

  lemma {:induction false} InsertSorted(s: seq<string>, x: string)
    requires Sorted(s)
    ensures Sorted(Insert(s, x)) && multiset(Insert(s, x)) == multiset(s) + multiset{x}
  {
    if s == [] {
    } else if AtMost(x, s[0]) {
      forall j | 0 <= j < |s| ensures AtMost(x, s[j]) {
        LessTransitive(x, s[0], s[j]);
      }
    } else {
      InsertSorted(s[1..], x);
      LessTotal(x, s[0]);
      assert s == [s[0]] + s[1..];
      var r := Insert(s[1..], x);
      forall j | 0 <= j < |r| ensures AtMost(s[0], r[j]) {
        assert r[j] in multiset(r);
        assert r[j] == x || r[j] in s[1..];
      }
    }
  }

  lemma {:induction false} SortSorts(s: seq<string>)
    ensures Sorted(Sort(s)) && multiset(Sort(s)) == multiset(s)
  {
    if s != [] {
      SortSorts(s[..|s| - 1]);
      InsertSorted(Sort(s[..|s| - 1]), s[|s| - 1]);
      assert s == s[..|s| - 1] + [s[|s| - 1]];
    }
  }

  lemma SameMembers(a: seq<string>, b: seq<string>)
    requires multiset(a) == multiset(b)
    ensures forall x :: x in a <==> x in b
  {
    assert forall x :: x in a <==> x in multiset(a);
    assert forall x :: x in b <==> x in multiset(b);
  }

  lemma DistinctOnce(s: seq<string>, x: string)
    ensures Distinct(s) ==> multiset(s)[x] == if x in s then 1 else 0
    decreases |s|
  {
    if s != [] {
      DistinctOnce(s[..|s| - 1], x);
      assert s == s[..|s| - 1] + [s[|s| - 1]];
    }
  }

  lemma Twice(s: seq<string>, i: nat, j: nat)
    requires i < j < |s| && s[i] == s[j]
    ensures multiset(s)[s[i]] >= 2
  {
    assert s == s[..i] + [s[i]] + s[i + 1..j] + [s[j]] + s[j + 1..];
  }

  /** Sorting a list without repetition lists its elements in strictly increasing order. */
  lemma SortStrict(s: seq<string>)
    requires Distinct(s)
    ensures Strict(Sort(s)) && forall x :: x in Sort(s) <==> x in s
  {
    SortSorts(s);
    SameMembers(s, Sort(s));
    forall x ensures multiset(Sort(s))[x] <= 1 {
      DistinctOnce(s, x);
    }
    var r := Sort(s);
    forall i, j | 0 <= i < j < |r| ensures Less(r[i], r[j]) {
      if r[i] == r[j] { Twice(r, i, j); }
    }
  }

  lemma HasMember(s: seq<string>)
    ensures s == [] || exists x :: x in s
  {
    if s != [] {
      assert s[0] in s;
    }
  }

  /** A strictly increasing list is determined by its elements. */
  lemma {:induction false} StrictUnique(a: seq<string>, b: seq<string>)
    requires Strict(a) && Strict(b) && forall x :: x in a <==> x in b
    ensures a == b
  {
    if a == [] || b == [] {
      HasMember(a);
      HasMember(b);
    } else {
      assert a[0] in b && b[0] in a;
      LessTotal(a[0], b[0]);
      forall x ensures x in a[1..] <==> x in b[1..] {
        assert x in a[1..] ==> x in a && Less(a[0], x);
        assert x in b[1..] ==> x in b && Less(b[0], x);
        LessTotal(a[0], x);
      }
      StrictUnique(a[1..], b[1..]);
      assert a == [a[0]] + a[1..] && b == [b[0]] + b[1..];
    }
  }

  // Some listing of a set.
  ghost function Listing(s: set<string>): (r: seq<string>)
    ensures Distinct(r) && forall x :: x in r <==> x in s
  {
    if s == {} then [] else var x :| x in s; [x] + Listing(s - {x})
  }

  // The elements of a set in increasing order.
  ghost function Ascending(s: set<string>): (r: seq<string>)
    ensures Strict(r) && forall x :: x in r <==> x in s
  {
    SortStrict(Listing(s));
    Sort(Listing(s))
  }

  // The keys of a map are collected in no particular order and then sorted.
  method SortedKeys<V>(m: map<string, V>) returns (keys: seq<string>)
    ensures keys == Ascending(m.Keys)
  {
    keys := [];
    var rest := m.Keys;
    while rest != {}
      invariant rest <= m.Keys && Distinct(keys)
      invariant forall x :: x in keys <==> x in m.Keys && x !in rest
      decreases |rest|
    {
      var k :| k in rest;
      assert k !in keys;
      keys, rest := keys + [k], rest - {k};
    }
    SortStrict(keys);
    StrictUnique(Sort(keys), Ascending(m.Keys));
    keys := Sort(keys);
  }
}
