/**
  OAuth scopes and the binding of a stored credential to a server.  The order of scopes does not
  matter (RFC 6749, section 3.3): they are compared in a normal form.
*/
module Scopes {
  import opened Options
  import opened Sequences
  import opened Text
  import opened Sorting

  datatype Binding = Binding(serverUrl: string, clientID: string, resource: string, scopes: seq<string>)

  datatype Mismatch = ServerUrl | ClientID | Resource | ScopeSet

  // The scopes of a list: trimmed, without the blank ones.
  ghost function ScopesOf(scopes: seq<string>): set<string> {
    set s | s in scopes && TrimSpace(s) != "" :: TrimSpace(s)
  }

  // Each scope once, in the order of first appearance.
  function Collected(scopes: seq<string>): seq<string> {
    if scopes == [] then []
    else
      var before, s := Collected(scopes[..|scopes| - 1]), TrimSpace(scopes[|scopes| - 1]);
      if s == "" || s in before then before else before + [s]
  }

  function Normal(scopes: seq<string>): seq<string> { Sort(Collected(scopes)) }

  lemma {:induction false} CollectedOnce(scopes: seq<string>)
    ensures Distinct(Collected(scopes)) && forall s :: s in Collected(scopes) <==> s in ScopesOf(scopes)
  {
    if scopes != [] {
      hide TrimSpace;
      var n := |scopes| - 1;
      CollectedOnce(scopes[..n]);
      assert scopes == scopes[..n] + [scopes[n]];
      assert forall s :: s in scopes <==> s in scopes[..n] || s == scopes[n];
      forall t ensures t in ScopesOf(scopes) <==> t in ScopesOf(scopes[..n]) || (t == TrimSpace(scopes[n]) && t != "") {
      }
    }
  }

  /** The normal form is strictly sorted and holds exactly the scopes of the list. */
  lemma NormalIs(scopes: seq<string>)
    ensures Strict(Normal(scopes)) && forall s :: s in Normal(scopes) <==> s in ScopesOf(scopes)
  {
    CollectedOnce(scopes);
    SortStrict(Collected(scopes));
  }

  /** Two lists have the same normal form exactly if they hold the same scopes. */
  lemma NormalDecides(a: seq<string>, b: seq<string>)
    ensures Normal(a) == Normal(b) <==> ScopesOf(a) == ScopesOf(b)
  {
    hide ScopesOf, Normal;
    NormalIs(a);
    NormalIs(b);
    if ScopesOf(a) == ScopesOf(b) {
      StrictUnique(Normal(a), Normal(b));
    }
    if Normal(a) == Normal(b) {
      assert forall s :: s in ScopesOf(a) <==> s in ScopesOf(b);
    }
  }

  method NormalizeScopes(scopes: seq<string>) returns (r: seq<string>)
    ensures r == Normal(scopes)
  {
    hide TrimSpace;
    var seen: set<string>, out: seq<string> := {}, [];
    for i := 0 to |scopes|
      invariant out == Collected(scopes[..i]) && forall s :: s in seen <==> s in out
    {
      assert scopes[..i + 1][..i] == scopes[..i];
      var scope := TrimSpace(scopes[i]);
      if scope == "" || scope in seen {
        continue;
      }
      seen := seen + {scope};
      out := out + [scope];
    }
    assert scopes[..|scopes|] == scopes;
    r := SortInPlace(out);
  }

  // Insertion into the sorted front of an array, one element after the other.
  method SortInPlace(s: seq<string>) returns (r: seq<string>)
    ensures r == Sort(s)
  {
    var a := new string[|s|](i requires 0 <= i < |s| => s[i]);
    for n := 0 to a.Length
      invariant a[..n] == Sort(s[..n]) && a[n..] == s[n..]
    {
      assert s[..n + 1][..n] == s[..n] && a[n] == a[n..][0] == s[n];
      SortSorts(s[..n]);
      InsertLast(a, n);
      assert a[n + 1..] == s[n..][1..];
    }
    assert s[..|s|] == s && a[..a.Length] == a[..];
    r := a[..];
  }

  method InsertLast(a: array<string>, n: nat)
    requires n < a.Length && Sorted(a[..n])
    modifies a
    ensures a[..n + 1] == Insert(old(a[..n]), old(a[n])) && a[n + 1..] == old(a[n + 1..])
  {
    hide Sorted, Insert, AtMost;
    var x, i := a[n], n;
    ghost var was := a[..n];
    while i > 0 && !AtMost(a[i - 1], x)
      invariant i <= n && a[..i] == was[..i] && a[n + 1..] == old(a[n + 1..])
      invariant a[i + 1..n + 1] == was[i..]
      invariant forall k :: i <= k < n ==> !AtMost(was[k], x)
    {
      a[i] := a[i - 1];
      i := i - 1;
    }
    a[i] := x;
    InsertAt(was, i, x);
    assert a[..n + 1] == was[..i] + [x] + was[i..];
  }

  // Where insertion puts an element: before the first one that is not smaller.
  lemma {:induction false} InsertAt(s: seq<string>, i: nat, x: string)
    requires i <= |s| && Sorted(s) && (i > 0 ==> AtMost(s[i - 1], x)) && forall k :: i <= k < |s| ==> !AtMost(s[k], x)
    ensures Insert(s, x) == s[..i] + [x] + s[i..]
  {
    if i == 0 {
      if s != [] {
        LessTotal(s[0], x);
      }
    } else if s[0] == x {
      AllEqual(s, i, x);
      assert s[..i] + [x] == [x] + s[..i];
    } else {
      assert AtMost(s[0], x) by {
        if i > 1 { LessTransitive(s[0], s[i - 1], x); }
      }
      LessTotal(s[0], x);
      InsertAt(s[1..], i - 1, x);
      assert s[..i] == [s[0]] + s[1..][..i - 1] && s[1..][i - 1..] == s[i..];
    }
  }

  lemma AllEqual(s: seq<string>, i: nat, x: string)
    requires 0 < i <= |s| && Sorted(s) && s[0] == x && AtMost(s[i - 1], x)
    ensures forall k :: 0 <= k < i ==> s[k] == x
  {
    forall k | 0 <= k < i ensures s[k] == x {
      if 0 < k {
        assert AtMost(s[0], s[k]);
        if k < i - 1 {
          assert AtMost(s[k], s[i - 1]);
          LessTransitive(s[k], s[i - 1], x);
        }
        LessTotal(s[k], x);
      }
    }
  }

  /** Comparing normal forms decides equality of the sets of scopes. */
  method SameScopeSet(got: seq<string>, want: seq<string>) returns (same: bool)
    ensures same <==> ScopesOf(got) == ScopesOf(want)
  {
    NormalDecides(got, want);
    hide Normal, ScopesOf;
    var gotScopes := NormalizeScopes(got);
    var wantScopes := NormalizeScopes(want);
    if |gotScopes| != |wantScopes| {
      return false;
    }
    for i := 0 to |gotScopes|
      invariant gotScopes[..i] == wantScopes[..i]
    {
      if gotScopes[i] != wantScopes[i] {
        return false;
      }
    }
    assert gotScopes[..|gotScopes|] == gotScopes && wantScopes[..|wantScopes|] == wantScopes;
    return true;
  }

  // ------------------------------------------------------------------------- credentials

  predicate SameText(got: string, want: string) { TrimSpace(got) == TrimSpace(want) }

  predicate IsZero(b: Binding) {
    TrimSpace(b.serverUrl) == "" && TrimSpace(b.clientID) == "" && TrimSpace(b.resource) == "" && Normal(b.scopes) == []
  }

  // The first part of the expected binding that the credential does not meet.
  function Validate(cred: Binding, expected: Binding): Option<Mismatch> {
    if IsZero(expected) then None
    else if !SameText(cred.serverUrl, expected.serverUrl) then Some(ServerUrl)
    else if TrimSpace(expected.clientID) != "" && !SameText(cred.clientID, expected.clientID) then Some(ClientID)
    else if TrimSpace(expected.resource) != "" && !SameText(cred.resource, expected.resource) then Some(Resource)
    else if Normal(expected.scopes) != [] && Normal(cred.scopes) != Normal(expected.scopes) then Some(ScopeSet)
    else None
  }

  // The same text but for white space around it.
  ghost predicate SameButPadding(a: string, b: string) {
    exists core: string, before: string, after: string, before': string, after': string ::
      && a == before + core + after && b == before' + core + after'
      && AllCut(before, IsSpace) && AllCut(after, IsSpace) && AllCut(before', IsSpace) && AllCut(after', IsSpace)
  }

  lemma TrimPads(a: string, core: string, after: string)
    requires AllCut(a, IsSpace) && AllCut(after, IsSpace)
    ensures TrimSpace(a + core + after) == TrimSpace(core)
  {
    var lead, tail := TrimSplit(core, IsSpace);
    assert a + core + after == (a + lead) + TrimSpace(core) + (tail + after);
    TrimPadded(a + lead, TrimSpace(core), tail + after, IsSpace);
  }

  lemma SameTextIff(a: string, b: string)
    ensures SameText(a, b) <==> SameButPadding(a, b)
  {
    hide Trim;
    if SameText(a, b) {
      var before, after := TrimSplit(a, IsSpace);
      var before', after' := TrimSplit(b, IsSpace);
      assert a == before + TrimSpace(a) + after && b == before' + TrimSpace(a) + after';
    }
    if SameButPadding(a, b) {
      var core: string, before: string, after: string, before': string, after': string :|
        && a == before + core + after && b == before' + core + after'
        && AllCut(before, IsSpace) && AllCut(after, IsSpace) && AllCut(before', IsSpace) && AllCut(after', IsSpace);
      TrimPads(before, core, after);
      TrimPads(before', core, after');
    }
  }

  lemma BlankIff(s: string)
    ensures TrimSpace(s) == "" <==> AllCut(s, IsSpace)
  {
    var lead, tail := TrimSplit(s, IsSpace);
    if AllCut(s, IsSpace) {
      assert s + "" + "" == s;
      TrimPadded(s, "", "", IsSpace);
    }
  }

  // Nothing is asked for.
  ghost predicate AsksNothing(b: Binding) {
    AllCut(b.serverUrl, IsSpace) && AllCut(b.clientID, IsSpace) && AllCut(b.resource, IsSpace) && forall s :: s in b.scopes ==> AllCut(s, IsSpace)
  }

  lemma NoScopes(scopes: seq<string>)
    ensures ScopesOf(scopes) == {} <==> forall s :: s in scopes ==> AllCut(s, IsSpace)
    ensures Normal(scopes) == [] <==> ScopesOf(scopes) == {}
  {
    hide Normal, TrimSpace;
    forall s ensures TrimSpace(s) == "" <==> AllCut(s, IsSpace) {
      BlankIff(s);
    }
    assert forall s :: s in scopes && TrimSpace(s) != "" ==> TrimSpace(s) in ScopesOf(scopes);
    NormalDecides(scopes, []);
    assert ScopesOf([]) == {} && Normal([]) == [] by { EmptyNormal(); }
  }

  lemma EmptyNormal()
    ensures ScopesOf([]) == {} && Normal([]) == []
  {
  }

  lemma ZeroIff(b: Binding)
    ensures IsZero(b) <==> AsksNothing(b)
  {
    hide Normal, TrimSpace, ScopesOf, AllCut;
    BlankIff(b.serverUrl);
    BlankIff(b.clientID);
    BlankIff(b.resource);
    NoScopes(b.scopes);
  }

  // The same binding for the standard: parts that differ in padding, scopes in any order and number.
  ghost predicate Alike(a: Binding, b: Binding) {
    SameText(a.serverUrl, b.serverUrl) && SameText(a.clientID, b.clientID) && SameText(a.resource, b.resource)
    && ScopesOf(a.scopes) == ScopesOf(b.scopes)
  }

  /** Reordering, repeating or padding scopes, or padding the other parts, does not change whether a credential is bound. */
  lemma ValidateAlike(cred: Binding, cred': Binding, expected: Binding, expected': Binding)
    requires Alike(cred, cred') && Alike(expected, expected')
    ensures Validate(cred, expected) == Validate(cred', expected')
  {
    NormalDecides(cred.scopes, cred'.scopes);
    NormalDecides(expected.scopes, expected'.scopes);
    hide Normal, ScopesOf, TrimSpace;
  }

  // The part is asked for and the credential does not meet it.  The server is asked for if anything is.
  ghost predicate Unmet(cred: Binding, expected: Binding, part: Mismatch) {
    match part
    case ServerUrl => !AsksNothing(expected) && !SameButPadding(cred.serverUrl, expected.serverUrl)
    case ClientID => !AllCut(expected.clientID, IsSpace) && !SameButPadding(cred.clientID, expected.clientID)
    case Resource => !AllCut(expected.resource, IsSpace) && !SameButPadding(cred.resource, expected.resource)
    case ScopeSet => ScopesOf(expected.scopes) != {} && ScopesOf(cred.scopes) != ScopesOf(expected.scopes)
  }

  const PARTS := [ServerUrl, ClientID, Resource, ScopeSet]

  lemma UnmetIs(cred: Binding, expected: Binding)
    ensures Unmet(cred, expected, ServerUrl) <==> !IsZero(expected) && !SameText(cred.serverUrl, expected.serverUrl)
    ensures Unmet(cred, expected, ClientID) <==> TrimSpace(expected.clientID) != "" && !SameText(cred.clientID, expected.clientID)
    ensures Unmet(cred, expected, Resource) <==> TrimSpace(expected.resource) != "" && !SameText(cred.resource, expected.resource)
    ensures Unmet(cred, expected, ScopeSet) <==> Normal(expected.scopes) != [] && Normal(cred.scopes) != Normal(expected.scopes)
  {
    hide Normal, ScopesOf, TrimSpace, SameText, SameButPadding, AsksNothing, IsZero, AllCut;
    ZeroIff(expected);
    BlankIff(expected.clientID);
    BlankIff(expected.resource);
    NoScopes(expected.scopes);
    NormalDecides(cred.scopes, expected.scopes);
    SameTextIff(cred.serverUrl, expected.serverUrl);
    SameTextIff(cred.clientID, expected.clientID);
    SameTextIff(cred.resource, expected.resource);
  }

  /** A credential is accepted exactly if every part that is asked for is met. */
  lemma ValidateIff(cred: Binding, expected: Binding)
    ensures Validate(cred, expected).None? <==> forall part: Mismatch :: !Unmet(cred, expected, part)
  {
    hide Unmet, Normal, TrimSpace, SameText;
    UnmetIs(cred, expected);
    forall part: Mismatch | Validate(cred, expected).None? ensures !Unmet(cred, expected, part) {
      match part
      case ServerUrl =>
      case ClientID =>
      case Resource =>
      case ScopeSet =>
    }
  }

  /** What is reported is the first part, in this order, that is asked for and not met. */
  lemma FirstUnmet(cred: Binding, expected: Binding, i: nat)
    requires i < |PARTS|
    ensures Validate(cred, expected) == Some(PARTS[i]) <==>
              Unmet(cred, expected, PARTS[i]) && forall j :: 0 <= j < i ==> !Unmet(cred, expected, PARTS[j])
  {
    hide Unmet, Normal, TrimSpace, SameText;
    UnmetIs(cred, expected);
    assert PARTS[0] == ServerUrl && PARTS[1] == ClientID && PARTS[2] == Resource && PARTS[3] == ScopeSet;
    assert i == 0 || i == 1 || i == 2 || i == 3;
  }
}
