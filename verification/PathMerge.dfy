/**
  Merging the configuration paths of the daemon by the names of the configurations: existing
  paths give way to new ones of the same name, except that their place in the list stays.
*/
module PathMerge {
  import opened Options
  import opened Sequences

  // `name` reads the name of a configuration, "" if it cannot be loaded.
  function KeyOf(name: string -> string, path: string): string { if name(path) == "" then "path:" + path else name(path) }

  // The paths that count: existing ones that are not skipped, and none that is empty.
  function Usable(name: string -> string, skipped: set<string>, paths: seq<string>): seq<string> {
    if paths == [] then []
    else
      var p := paths[|paths| - 1];
      Usable(name, skipped, paths[..|paths| - 1]) + if p == "" || (name(p) != "" && name(p) in skipped) then [] else [p]
  }

  // The keys in the order of their first appearance.
  function Firsts(name: string -> string, paths: seq<string>): seq<string> {
    if paths == [] then []
    else
      var before, k := Firsts(name, paths[..|paths| - 1]), KeyOf(name, paths[|paths| - 1]);
      if k in before then before else before + [k]
  }

  function FirstWith(name: string -> string, paths: seq<string>, k: string): Option<string> {
    if paths == [] then None
    else
      var before := FirstWith(name, paths[..|paths| - 1], k);
      if before.Some? then before
      else if KeyOf(name, paths[|paths| - 1]) == k then Some(paths[|paths| - 1]) else None
  }

  function LastWith(name: string -> string, paths: seq<string>, k: string): Option<string> {
    if paths == [] then None
    else if KeyOf(name, paths[|paths| - 1]) == k then Some(paths[|paths| - 1])
    else LastWith(name, paths[..|paths| - 1], k)
  }

  // The last new path of the key, or else the first existing one.
  function Chosen(name: string -> string, prior: seq<string>, next: seq<string>, k: string): Option<string> {
    var last := LastWith(name, next, k);
    if last.Some? then last else FirstWith(name, prior, k)
  }

  function Merged(name: string -> string, prior: seq<string>, next: seq<string>): seq<string> {
    var keys := Firsts(name, prior + next);
    seq(|keys|, i requires 0 <= i < |keys| =>
      var p := Chosen(name, prior, next, keys[i]); if p.Some? then p.value else "")
  }

  // ---------------------------------------------------------------------- what is computed

  predicate HasKey(name: string -> string, paths: seq<string>, k: string) {
    exists i :: 0 <= i < |paths| && KeyOf(name, paths[i]) == k
  }

  lemma HasKeyMore(name: string -> string, a: seq<string>, b: seq<string>, k: string)
    ensures HasKey(name, a + b, k) <==> HasKey(name, a, k) || HasKey(name, b, k)
  {
    hide KeyOf;
    if i :| 0 <= i < |a + b| && KeyOf(name, (a + b)[i]) == k {
      assert i < |a| ==> (a + b)[i] == a[i];
      assert i >= |a| ==> (a + b)[i] == b[i - |a|];
    }
    if i :| 0 <= i < |a| && KeyOf(name, a[i]) == k {
      assert (a + b)[i] == a[i];
    }
    if i :| 0 <= i < |b| && KeyOf(name, b[i]) == k {
      assert (a + b)[|a| + i] == b[i];
    }
  }

  lemma {:induction false} FirstsAre(name: string -> string, paths: seq<string>)
    ensures Distinct(Firsts(name, paths))
    ensures forall k :: k in Firsts(name, paths) <==> HasKey(name, paths, k)
  {
    if paths != [] {
      var n := |paths| - 1;
      FirstsAre(name, paths[..n]);
      assert paths == paths[..n] + [paths[n]];
      forall k ensures HasKey(name, paths, k) <==> HasKey(name, paths[..n], k) || KeyOf(name, paths[n]) == k {
        HasKeyMore(name, paths[..n], [paths[n]], k);
        assert [paths[n]][0] == paths[n];
      }
    }
  }

  // Position i holds the first path of its key.
  predicate IsFirst(name: string -> string, paths: seq<string>, i: int) {
    0 <= i < |paths| && forall j :: 0 <= j < i ==> KeyOf(name, paths[j]) != KeyOf(name, paths[i])
  }

  predicate IsLast(name: string -> string, paths: seq<string>, i: int) {
    0 <= i < |paths| && forall j :: i < j < |paths| ==> KeyOf(name, paths[j]) != KeyOf(name, paths[i])
  }

  lemma {:induction false} FirstWithIs(name: string -> string, paths: seq<string>, k: string)
    ensures var p := FirstWith(name, paths, k);
            if p.None? then !HasKey(name, paths, k)
            else exists i :: IsFirst(name, paths, i) && paths[i] == p.value && KeyOf(name, paths[i]) == k
  {
    hide KeyOf;
    if paths != [] {
      var n := |paths| - 1;
      var init := paths[..n];
      FirstWithIs(name, init, k);
      assert forall j :: 0 <= j < n ==> init[j] == paths[j];
      if FirstWith(name, init, k).Some? {
        var i :| IsFirst(name, init, i) && init[i] == FirstWith(name, init, k).value && KeyOf(name, init[i]) == k;
        assert IsFirst(name, paths, i);
      } else if KeyOf(name, paths[n]) == k {
        assert IsFirst(name, paths, n);
      }
    }
  }

  lemma {:induction false} LastWithIs(name: string -> string, paths: seq<string>, k: string)
    ensures var p := LastWith(name, paths, k);
            if p.None? then !HasKey(name, paths, k)
            else exists i :: IsLast(name, paths, i) && paths[i] == p.value && KeyOf(name, paths[i]) == k
  {
    hide KeyOf;
    if paths != [] {
      var n := |paths| - 1;
      var init := paths[..n];
      LastWithIs(name, init, k);
      assert forall j :: 0 <= j < n ==> init[j] == paths[j];
      if KeyOf(name, paths[n]) == k {
        assert IsLast(name, paths, n);
      } else if LastWith(name, init, k).Some? {
        var i :| IsLast(name, init, i) && init[i] == LastWith(name, init, k).value && KeyOf(name, init[i]) == k;
        assert IsLast(name, paths, i);
      }
    }
  }

  /** The keys are listed in the order in which they appear first. */
  lemma {:induction false} FirstsAt(name: string -> string, paths: seq<string>) returns (at: seq<nat>)
    ensures |at| == |Firsts(name, paths)|
    ensures forall k :: 0 <= k < |at| ==> IsFirst(name, paths, at[k]) && KeyOf(name, paths[at[k]]) == Firsts(name, paths)[k]
    ensures forall k, m :: 0 <= k < m < |at| ==> at[k] < at[m]
  {
    hide KeyOf;
    at := [];
    if paths != [] {
      var n := |paths| - 1;
      at := FirstsAt(name, paths[..n]);
      forall k | 0 <= k < |at| ensures IsFirst(name, paths, at[k]) && paths[at[k]] == paths[..n][at[k]] {
        assert IsFirst(name, paths[..n], at[k]);
      }
      if KeyOf(name, paths[n]) !in Firsts(name, paths[..n]) {
        FirstsAre(name, paths[..n]);
        assert IsFirst(name, paths, n);
        at := at + [n];
      }
    }
  }

  // The path chosen for a key has that key.
  lemma ChosenHasKey(name: string -> string, prior: seq<string>, next: seq<string>, k: string)
    ensures Chosen(name, prior, next, k).Some? ==> KeyOf(name, Chosen(name, prior, next, k).value) == k
    ensures Chosen(name, prior, next, k).Some? <==> k in Firsts(name, prior + next)
  {
    hide KeyOf, Firsts, FirstWith, LastWith;
    FirstWithIs(name, prior, k);
    LastWithIs(name, next, k);
    FirstsAre(name, prior + next);
    HasKeyMore(name, prior, next, k);
  }

  /**
    The merged list has one path for each key, in the order of the first appearance of the keys:
    the last new path of the key, or else the first existing one.
  */
  lemma MergedPaths(name: string -> string, prior: seq<string>, next: seq<string>)
    ensures var out, keys := Merged(name, prior, next), Firsts(name, prior + next);
            && Distinct(out) && |out| == |keys|
            && forall i :: 0 <= i < |out| ==> KeyOf(name, out[i]) == keys[i] && Chosen(name, prior, next, keys[i]) == Some(out[i])
  {
    hide KeyOf, Chosen;
    var out, keys := Merged(name, prior, next), Firsts(name, prior + next);
    FirstsAre(name, prior + next);
    forall i | 0 <= i < |out| ensures KeyOf(name, out[i]) == keys[i] && Chosen(name, prior, next, keys[i]) == Some(out[i]) {
      ChosenHasKey(name, prior, next, keys[i]);
    }
  }

  /** A path gives way to another exactly if they have the same key: the same name, or a name that spells the path of an unnamed one. */
  lemma SameKey(name: string -> string, p: string, q: string)
    ensures KeyOf(name, p) == KeyOf(name, q) <==>
            || (name(p) != "" && name(p) == name(q))
            || (name(p) == "" && name(q) == "" && p == q)
            || (name(p) == "" && name(q) == "path:" + p) || (name(q) == "" && name(p) == "path:" + q)
  {
    assert ("path:" + p)[5..] == p && ("path:" + q)[5..] == q;
  }

  // ---------------------------------------------------------------- which paths count

  predicate Counts(name: string -> string, skipped: set<string>, p: string) {
    p != "" && (name(p) in skipped ==> name(p) == "")
  }

  lemma UsableMore(name: string -> string, skipped: set<string>, paths: seq<string>)
    requires paths != []
    ensures var n := |paths| - 1;
            Usable(name, skipped, paths) == Usable(name, skipped, paths[..n]) + if Counts(name, skipped, paths[n]) then [paths[n]] else []
  {
  }

  // The positions at which the paths of a list count.
  predicate UsedAt(name: string -> string, skipped: set<string>, paths: seq<string>, out: seq<string>, at: seq<nat>) {
    && |at| == |out| && (forall k :: 0 <= k < |at| ==> at[k] < |paths| && Counts(name, skipped, paths[at[k]]) && out[k] == paths[at[k]])
    && (forall k, m :: 0 <= k < m < |at| ==> at[k] < at[m])
    && (forall i :: 0 <= i < |paths| && Counts(name, skipped, paths[i]) ==> exists k :: 0 <= k < |at| && at[k] == i)
  }

  lemma UsedMore(name: string -> string, skipped: set<string>, paths: seq<string>, p: string, out: seq<string>, at: seq<nat>)
    requires UsedAt(name, skipped, paths, out, at)
    ensures !Counts(name, skipped, p) ==> UsedAt(name, skipped, paths + [p], out, at)
    ensures Counts(name, skipped, p) ==> UsedAt(name, skipped, paths + [p], out + [p], at + [|paths|])
  {
    hide Counts;
    forall i | 0 <= i < |paths| && Counts(name, skipped, paths[i]) ensures exists k :: 0 <= k < |at| && at[k] == i && (at + [|paths|])[k] == i {
      var k :| 0 <= k < |at| && at[k] == i;
      assert (at + [|paths|])[k] == i;
    }
    assert (at + [|paths|])[|at|] == |paths|;
  }

  /** The paths that count are the ones of the list that are not empty and whose name is not skipped, in their order. */
  lemma {:induction false} UsableAt(name: string -> string, skipped: set<string>, paths: seq<string>) returns (at: seq<nat>)
    ensures UsedAt(name, skipped, paths, Usable(name, skipped, paths), at)
  {
    at := [];
    if paths != [] {
      hide Counts, Usable, UsedAt;
      var n := |paths| - 1;
      var before := UsableAt(name, skipped, paths[..n]);
      UsableMore(name, skipped, paths);
      UsedMore(name, skipped, paths[..n], paths[n], Usable(name, skipped, paths[..n]), before);
      assert paths[..n] + [paths[n]] == paths;
      assert Usable(name, skipped, paths[..n]) + [] == Usable(name, skipped, paths[..n]);
      at := if Counts(name, skipped, paths[n]) then before + [n] else before;
    }
  }

  lemma UsableMember(name: string -> string, skipped: set<string>, paths: seq<string>, p: string)
    ensures p in Usable(name, skipped, paths) <==> p in paths && Counts(name, skipped, p)
  {
    hide Counts;
    var at := UsableAt(name, skipped, paths);
    if p in paths && Counts(name, skipped, p) {
      var i :| 0 <= i < |paths| && paths[i] == p;
      var k :| 0 <= k < |at| && at[k] == i;
      assert Usable(name, skipped, paths)[k] == p;
    }
    if k :| 0 <= k < |Usable(name, skipped, paths)| && Usable(name, skipped, paths)[k] == p {
      assert paths[at[k]] == p;
    }
  }

  /**
    The merged list holds a path if and only if it is the last new one of its key, or it is an existing one
    that is not skipped, the first of its key, and no new one has the key.  The empty path is never held.
  */
  lemma MergedHolds(name: string -> string, existing: seq<string>, next: seq<string>, skipped: set<string>, p: string)
    ensures var prior, later := Usable(name, skipped, existing), Usable(name, {}, next);
            p in Merged(name, prior, later) <==>
              || (exists i :: IsLast(name, later, i) && later[i] == p)
              || (!HasKey(name, later, KeyOf(name, p)) && exists i :: IsFirst(name, prior, i) && prior[i] == p)
    ensures p in Merged(name, Usable(name, skipped, existing), Usable(name, {}, next)) ==>
              (p in next && p != "") || (p in existing && Counts(name, skipped, p))
  {
    hide KeyOf, Usable, Firsts, FirstWith, LastWith, Counts;
    var prior, later := Usable(name, skipped, existing), Usable(name, {}, next);
    var out, keys := Merged(name, prior, later), Firsts(name, prior + later);
    var k := KeyOf(name, p);
    MergedPaths(name, prior, later);
    ChosenHasKey(name, prior, later, k);
    FirstsAre(name, prior + later);
    FirstWithIs(name, prior, k);
    LastWithIs(name, later, k);
    UsableMember(name, skipped, existing, p);
    UsableMember(name, {}, next, p);
    if Counts(name, {}, p) {
      CountsNot(name, {}, p);
    }
    assert p in out <==> Chosen(name, prior, later, k) == Some(p) by {
      if p in out {
        var i :| 0 <= i < |out| && out[i] == p;
      }
      if Chosen(name, prior, later, k) == Some(p) {
        var i :| 0 <= i < |keys| && keys[i] == k;
        assert out[i] == p;
      }
    }
    OneLast(name, later, p);
    OneFirst(name, prior, p);
  }

  lemma CountsNot(name: string -> string, skipped: set<string>, p: string)
    requires Counts(name, skipped, p)
    ensures p != ""
  {
  }

  // The last path of a key is one only.
  lemma OneLast(name: string -> string, paths: seq<string>, p: string)
    ensures (exists i :: IsLast(name, paths, i) && paths[i] == p) <==> LastWith(name, paths, KeyOf(name, p)) == Some(p)
  {
    hide KeyOf, LastWith;
    LastWithIs(name, paths, KeyOf(name, p));
    if i :| IsLast(name, paths, i) && paths[i] == p {
      assert HasKey(name, paths, KeyOf(name, p));
      var j :| IsLast(name, paths, j) && paths[j] == LastWith(name, paths, KeyOf(name, p)).value && KeyOf(name, paths[j]) == KeyOf(name, p);
      assert i == j;
    }
  }

  lemma OneFirst(name: string -> string, paths: seq<string>, p: string)
    ensures (exists i :: IsFirst(name, paths, i) && paths[i] == p) <==> FirstWith(name, paths, KeyOf(name, p)) == Some(p)
  {
    hide KeyOf, FirstWith;
    FirstWithIs(name, paths, KeyOf(name, p));
    if i :| IsFirst(name, paths, i) && paths[i] == p {
      assert HasKey(name, paths, KeyOf(name, p));
      var j :| IsFirst(name, paths, j) && paths[j] == FirstWith(name, paths, KeyOf(name, p)).value && KeyOf(name, paths[j]) == KeyOf(name, p);
      assert i == j;
    }
  }

  // ---------------------------------------------------------------------------- the loops

  class Merge {
    var ordered: seq<string>
    var pathsByName: map<string, string>

    constructor ()
      ensures ordered == [] && pathsByName == map[]
    {
      ordered, pathsByName := [], map[];
    }

    // What has been added: some existing paths, and some new ones after all existing ones.
    ghost predicate Holds(name: string -> string, prior: seq<string>, next: seq<string>)
      reads this
    {
      && ordered == Firsts(name, prior + next)
      && (forall k :: k in pathsByName <==> k in ordered)
      && (forall k :: k in pathsByName ==> Chosen(name, prior, next, k) == Some(pathsByName[k]) && pathsByName[k] != "")
    }

    method Add(name: string -> string, path: string, prefer: bool, ghost prior: seq<string>, ghost next: seq<string>)
      requires Holds(name, prior, next) && path != "" && (!prefer ==> next == [])
      modifies this
      ensures if prefer then Holds(name, prior, next + [path]) else Holds(name, prior + [path], [])
    {
      hide KeyOf, Firsts, Chosen;
      var key := KeyOf(name, path);
      ChosenHasKey(name, prior, next, key);
      AddOne(name, path, prefer, prior, next);
      if key !in pathsByName {
        ordered := ordered + [key];
        pathsByName := pathsByName[key := path];
      } else if prefer {
        pathsByName := pathsByName[key := path];
      }
    }

    // The check for repeated paths never fires.
    method Output(name: string -> string, ghost prior: seq<string>, ghost next: seq<string>) returns (out: seq<string>)
      requires Holds(name, prior, next)
      ensures out == Merged(name, prior, next)
    {
      hide KeyOf, Chosen, Firsts;
      ghost var all := Merged(name, prior, next);
      MergedPaths(name, prior, next);
      out := [];
      var seenPath: set<string> := {};
      for i := 0 to |ordered|
        invariant out == all[..i] && forall p :: p in seenPath <==> p in out
      {
        var path := pathsByName[ordered[i]];
        assert path == all[i];
        NoRepeats(all, i);
        if path == "" || path in seenPath {
          continue;
        }
        seenPath := seenPath + {path};
        out := out + [path];
      }
      assert all[..|ordered|] == all;
    }
  }

  lemma NoRepeats(all: seq<string>, i: nat)
    requires Distinct(all) && i < |all|
    ensures all[i] !in all[..i]
  {
  }

  lemma AddOne(name: string -> string, path: string, prefer: bool, prior: seq<string>, next: seq<string>)
    requires !prefer ==> next == []
    ensures var k := KeyOf(name, path);
            var prior', next' := if prefer then prior else prior + [path], if prefer then next + [path] else [];
            && Firsts(name, prior' + next') == (if k in Firsts(name, prior + next) then Firsts(name, prior + next) else Firsts(name, prior + next) + [k])
            && (forall m :: m != k ==> Chosen(name, prior', next', m) == Chosen(name, prior, next, m))
            && Chosen(name, prior', next', k) == (if prefer || Chosen(name, prior, next, k).None? then Some(path) else Chosen(name, prior, next, k))
  {
    hide KeyOf;
    if prefer {
      assert (next + [path])[..|next|] == next && (prior + (next + [path]))[..|prior + next|] == prior + next;
    } else {
      assert (prior + [path])[..|prior|] == prior && prior + [path] + [] == prior + [path] && prior + [] == prior;
    }
  }

  /** The loops of the program compute the merged list; its check for repeated paths never fires. */
  method MergeConfigPathsByName(name: string -> string, existing: seq<string>, next: seq<string>, skipped: set<string>)
    returns (out: seq<string>)
    ensures out == Merged(name, Usable(name, skipped, existing), Usable(name, {}, next))
  {
    hide KeyOf, Chosen, Firsts;
    var m := new Merge();
    NothingMerged(name);
    for i := 0 to |existing|
      invariant m.Holds(name, Usable(name, skipped, existing[..i]), []) && fresh(m)
    {
      assert existing[..i + 1][..i] == existing[..i];
      assert Usable(name, skipped, existing[..i]) + [] == Usable(name, skipped, existing[..i]);
      var path := existing[i];
      if (name(path) != "" && name(path) in skipped) || path == "" {
        continue;
      }
      m.Add(name, path, false, Usable(name, skipped, existing[..i]), []);
    }
    assert existing[..|existing|] == existing;
    ghost var kept := Usable(name, skipped, existing);
    for i := 0 to |next|
      invariant m.Holds(name, kept, Usable(name, {}, next[..i])) && fresh(m)
    {
      assert next[..i + 1][..i] == next[..i];
      assert Usable(name, {}, next[..i]) + [] == Usable(name, {}, next[..i]);
      if next[i] != "" {
        m.Add(name, next[i], true, kept, Usable(name, {}, next[..i]));
      }
    }
    assert next[..|next|] == next;
    out := m.Output(name, kept, Usable(name, {}, next));
  }

  lemma NothingMerged(name: string -> string)
    ensures Firsts(name, [] + []) == []
  {
  }
}
