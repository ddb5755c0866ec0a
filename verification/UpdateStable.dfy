/**
  The second run of `setup update` rewrites nothing: the ports of the wrappers, the client files
  and the absence of blockers are stable once a plan has been applied.
*/
module UpdateStable {
  import opened Options
  import opened Sequences
  import opened Text
  import opened Servers
  import opened Sorting
  import opened Update
  import opened UpdateConverges
  import opened UpdateExact

  // No two wrapper configurations share a key.
  ghost predicate UniqueKeys(existing: seq<Existing>) {
    forall x, y :: x in existing && y in existing && Key(x.name) == Key(y.name) ==> x == y
  }

  ghost predicate UniqueAdded(added: seq<Added>) {
    forall a, b :: a in added && b in added && Key(a.content.name) == Key(b.content.name) ==> a == b
  }

  // The port m gives to k, 0 if none.
  function PortOf(m: map<string, nat>, k: string): nat { if k in m then m[k] else 0 }

  predicate Positive(m: map<string, nat>) { forall k :: k in m ==> m[k] > 0 }

  lemma {:induction false} KeptPortsOf(existing: seq<Existing>, removed: seq<Existing>, x: Existing)
    requires UniqueKeys(existing) && x in existing
    ensures PortOf(KeptPorts(existing, removed), Key(x.name))
         == if x.path in Paths(removed) || Key(x.name) in Keys(removed) || x.port <= 0 then 0 else x.port
  {
    hide Key, Paths, Keys;
    var n := |existing| - 1;
    var init := existing[..n];
    assert existing == init + [existing[n]];
    assert forall y :: y in init ==> y in existing;
    assert existing[n] in existing;
    if x in init {
      KeptPortsOf(init, removed, x);
    } else if Key(x.name) in KeptPorts(init, removed) {
      KeptPortsMember(init, removed, Key(x.name));
      KeysMember(init, Key(x.name));
    }
  }

  lemma {:induction false} KeptPortsPositive(existing: seq<Existing>, removed: seq<Existing>)
    ensures Positive(KeptPorts(existing, removed))
  {
    if existing != [] {
      hide Key, Paths, Keys;
      KeptPortsPositive(existing[..|existing| - 1], removed);
    }
  }

  lemma {:induction false} AddPortsPositive(ports: map<string, nat>, added: seq<Added>)
    requires Positive(ports)
    ensures Positive(AddPorts(ports, added))
  {
    if added != [] {
      hide Key;
      AddPortsPositive(ports, added[..|added| - 1]);
    }
  }

  lemma {:induction false} AddPortsOf(ports: map<string, nat>, added: seq<Added>, a: Added)
    requires UniqueAdded(added) && a in added && Key(a.content.name) !in ports
    ensures PortOf(AddPorts(ports, added), Key(a.content.name)) == if a.content.localPort > 0 then a.content.localPort else 0
  {
    hide Key;
    var n := |added| - 1;
    var init := added[..n];
    assert added == init + [added[n]];
    assert forall b :: b in init ==> b in added;
    assert added[n] in added;
    if a in init {
      AddPortsOf(ports, init, a);
    } else if Key(a.content.name) in AddPorts(ports, init) {
      AddPortsMember(ports, init, Key(a.content.name));
    }
  }

  lemma {:induction false} AddPortsOther(ports: map<string, nat>, added: seq<Added>, k: string)
    requires forall a :: a in added ==> Key(a.content.name) != k
    ensures PortOf(AddPorts(ports, added), k) == PortOf(ports, k)
  {
    if added != [] {
      hide Key;
      var n := |added| - 1;
      assert added == added[..n] + [added[n]];
      assert added[n] in added && forall b :: b in added[..n] ==> b in added;
      AddPortsOther(ports, added[..n], k);
    }
  }

  lemma AddedUnique(e: Env, h: Home, plan: Plan)
    requires HomeOk(h) && IsPlan(e, h, plan)
    ensures UniqueAdded(plan.added)
  {
    hide ScanServers, ExistingIn, Key, OwnPath, BuiltFrom, Loads, KeptPaths, KeptPorts, AddPorts, Sort, Absent, UsedPorts,
         CanonicalName, HomeOk, Keys, Paths, AddAll, AddedPaths, ReplaceAll, RenderBlockers, Plannable;
    assert NewPlan(e, h) == Some(plan);
    HomeNames(h);
    var current := Current(e, h);
    forall k | k in current ensures Key(current[k].name) == k {
      CurrentNamed(e, h, k);
    }
    forall a, b | a in plan.added && b in plan.added && Key(a.content.name) == Key(b.content.name)
      ensures a == b
    {
      AddedFrom(e, h, plan, a);
      AddedFrom(e, h, plan, b);
      var i :| 0 <= i < |plan.added| && plan.added[i] == a;
      var j :| 0 <= j < |plan.added| && plan.added[j] == b;
      var taken, used, keys := Keys(ExistingIn(e, h)), UsedPorts(h, ListedPaths(h)), Ascending(current.Keys);
      if i < j {
        AddedKeysDistinct(e, current, taken, used, keys, i, j);
      } else if j < i {
        AddedKeysDistinct(e, current, taken, used, keys, j, i);
      }
    }
  }

  // The port of a listed wrapper before the plan is applied.
  lemma PlannedPort(e: Env, h: Home, plan: Plan, x: Existing)
    requires HomeOk(h) && IsPlan(e, h, plan) && UniqueKeys(plan.existing) && x in plan.existing && Key(x.name) in Present(e, h)
    ensures PortOf(plan.ports, Key(x.name)) == if x.port > 0 then x.port else 0
  {
    hide ScanServers, ExistingIn, AdditionsFor, Key, OwnPath, BuiltFrom, Loads, KeptPaths, KeptPorts, AddPorts, Sort, Absent, UsedPorts,
         CanonicalName, HomeOk, Keys, Paths, AddedPaths, InDir;
    assert NewPlan(e, h) == Some(plan);
    KeptPortsOf(plan.existing, plan.removed, x);
    forall a | a in plan.added ensures Key(a.content.name) != Key(x.name) {
      AddedFrom(e, h, plan, a);
      KeysMember(plan.existing, Key(x.name));
    }
    AddPortsOther(KeptPorts(plan.existing, plan.removed), plan.added, Key(x.name));
    KeysMember(plan.removed, Key(x.name));
    if y :| y in plan.removed && Key(y.name) == Key(x.name) {
      AbsentMember(plan.existing, Present(e, h), y);
    }
    PathsMember(plan.removed, x.path);
    if y :| y in plan.removed && y.path == x.path {
      AbsentMember(plan.existing, Present(e, h), y);
      RemovedEntry(e, h, plan, y);
      ExistingListed(e, h);
    }
  }

  lemma PlannedAddedPort(e: Env, h: Home, plan: Plan, a: Added)
    requires HomeOk(h) && IsPlan(e, h, plan) && a in plan.added
    ensures PortOf(plan.ports, Key(a.content.name)) == if a.content.localPort > 0 then a.content.localPort else 0
  {
    hide ScanServers, ExistingIn, AdditionsFor, Key, OwnPath, BuiltFrom, Loads, KeptPaths, KeptPorts, AddPorts, Sort, Absent, UsedPorts,
         CanonicalName, HomeOk, Keys, Paths, AddedPaths;
    assert NewPlan(e, h) == Some(plan);
    AddedUnique(e, h, plan);
    AddedFrom(e, h, plan, a);
    var kept := KeptPorts(plan.existing, plan.removed);
    if Key(a.content.name) in kept {
      KeptPortsMember(plan.existing, plan.removed, Key(a.content.name));
    }
    AddPortsOf(kept, plan.added, a);
  }

  ghost predicate IsAdded(h: Home, x: Existing, a: Added) { LoadsAt(h, a.path) && x == At(h, a.path, true) }

  // A wrapper found again is one that was kept or one that was added.
  lemma FoundAgain(e: Env, h: Home, plan: Plan, h': Home, x: Existing)
    requires Applied(e, h, plan, h') && AllAddedLoad(plan) && Plannable(e, h') && x in ExistingIn(e, h')
    ensures (x in plan.existing && Key(x.name) in Present(e, h))
         || exists a :: a in plan.added && IsAdded(h', x, a)
  {
    hide Facts, NewPlan, ReadBack, FreshPaths, Apply, AddedPaths, Deleted, Loads, AddFiles, InDir, OwnPath, BuiltFrom, Key, PlanOf,
         Paths, ExistingIn, ScanServers, Plannable, CanonicalName, HomeOk;
    ExistingListed(e, h');
    PathsMember(ExistingIn(e, h'), x.path);
    ListedAgain(e, h, plan, h', x.path);
    NextPathsMember(e, h, plan, x.path);
    AddedPathsMember(plan.added, x.path);
    if a :| a in plan.added && a.path == x.path {
      NewFileAfter(e, h, plan, h', a);
    } else {
      OldFileAfter(e, h, plan, h', x.path);
      KeptEntry(e, h, plan, x.path);
    }
  }

  lemma PortAgain(e: Env, h: Home, plan: Plan, h': Home, x: Existing)
    requires Applied(e, h, plan, h') && AllAddedLoad(plan) && Plannable(e, h') && UniqueKeys(plan.existing) && x in ExistingIn(e, h')
    ensures PortOf(plan.ports, Key(x.name)) == if x.port > 0 then x.port else 0
  {
    hide Facts, NewPlan, ReadBack, FreshPaths, Apply, AddedPaths, Deleted, Loads, AddFiles, InDir, OwnPath, BuiltFrom, Key, PlanOf,
         Paths, ExistingIn, ScanServers, Plannable, CanonicalName, HomeOk, UniqueKeys;
    FoundAgain(e, h, plan, h', x);
    if x in plan.existing && Key(x.name) in Present(e, h) {
      PlannedPort(e, h, plan, x);
    } else {
      var a :| a in plan.added && IsAdded(h', x, a);
      NewFileAfter(e, h, plan, h', a);
      AddedNamed(e, h, plan, a);
      PlannedAddedPort(e, h, plan, a);
    }
  }

  lemma AddedNamed(e: Env, h: Home, plan: Plan, a: Added)
    requires HomeOk(h) && IsPlan(e, h, plan) && a in plan.added
    ensures CanonicalName(a.content.name) == a.content.name && Key(a.content.name) !in Keys(plan.existing)
  {
    hide NewPlan, Key, CanonicalName, BuiltFrom, OwnPath, HomeOk;
    AddedFrom(e, h, plan, a);
    HomeNames(h);
    CurrentNamed(e, h, Key(a.content.name));
  }

  lemma UniqueAgain(e: Env, h: Home, plan: Plan, h': Home)
    requires Applied(e, h, plan, h') && AllAddedLoad(plan) && Plannable(e, h') && UniqueKeys(plan.existing)
    ensures UniqueKeys(ExistingIn(e, h'))
  {
    hide Facts, NewPlan, ReadBack, FreshPaths, Apply, AddedPaths, Deleted, Loads, AddFiles, InDir, OwnPath, BuiltFrom, Key, PlanOf,
         Paths, ExistingIn, ScanServers, Plannable, CanonicalName, HomeOk, Keys;
    AddedUnique(e, h, plan);
    forall x | x in ExistingIn(e, h')
      ensures x in plan.existing || exists a :: a in plan.added && IsAdded(h', x, a)
      ensures forall a :: a in plan.added && IsAdded(h', x, a) ==> x.name == a.content.name && Key(x.name) !in Keys(plan.existing)
    {
      FoundAgain(e, h, plan, h', x);
      forall a | a in plan.added && IsAdded(h', x, a)
        ensures x.name == a.content.name && Key(x.name) !in Keys(plan.existing)
      {
        NewFileAfter(e, h, plan, h', a);
        AddedNamed(e, h, plan, a);
      }
    }
    forall x, y | x in ExistingIn(e, h') && y in ExistingIn(e, h') && Key(x.name) == Key(y.name)
      ensures x == y
    {
      KeysMember(plan.existing, Key(x.name));
    }
  }

  // With different keys the ports that clients are pointed to stay the same.
  lemma PortsStay(e: Env, h: Home, plan: Plan, h': Home)
    requires Applied(e, h, plan, h') && AllAddedLoad(plan) && Plannable(e, h') && UniqueKeys(plan.existing)
    ensures KeptPorts(ExistingIn(e, h'), []) == plan.ports
  {
    hide Facts, ReadBack, FreshPaths, Apply, AddedPaths, Deleted, Loads, AddFiles, InDir, OwnPath, BuiltFrom, Key,
         Paths, ExistingIn, ScanServers, Plannable, CanonicalName, HomeOk, Keys, KeptPorts, AddPorts, UniqueKeys, AdditionsFor, Absent, Sort,
         KeptPaths;
    assert NewPlan(e, h) == Some(plan);
    var existing := ExistingIn(e, h');
    var found := KeptPorts(existing, []);
    UniqueAgain(e, h, plan, h');
    KeptPortsPositive(existing, []);
    KeptPortsPositive(plan.existing, plan.removed);
    AddPortsPositive(KeptPorts(plan.existing, plan.removed), plan.added);
    forall k ensures PortOf(found, k) == PortOf(plan.ports, k) {
      SamePort(e, h, plan, h', k);
    }
    forall k ensures k in found <==> k in plan.ports {
      assert PortOf(found, k) == PortOf(plan.ports, k);
    }
    forall k | k in found ensures found[k] == plan.ports[k] {
      assert PortOf(found, k) == PortOf(plan.ports, k);
    }
  }

  lemma SamePort(e: Env, h: Home, plan: Plan, h': Home, k: string)
    requires Applied(e, h, plan, h') && AllAddedLoad(plan) && Plannable(e, h') && UniqueKeys(plan.existing)
    ensures PortOf(KeptPorts(ExistingIn(e, h'), []), k) == PortOf(plan.ports, k)
  {
    assert Paths([]) == [] && Keys([]) == {};
    hide Facts, ReadBack, FreshPaths, Apply, AddedPaths, Deleted, Loads, AddFiles, InDir, OwnPath, BuiltFrom, Key, NewPlan,
         Paths, ExistingIn, ScanServers, Plannable, CanonicalName, HomeOk, Keys, KeptPorts, UniqueKeys;
    var existing := ExistingIn(e, h');
    if k in Keys(existing) {
      KeysMember(existing, k);
      var x :| x in existing && Key(x.name) == k;
      UniqueAgain(e, h, plan, h');
      KeptPortsOf(existing, [], x);
      PortAgain(e, h, plan, h', x);
    } else {
      if k in KeptPorts(existing, []) {
        KeptPortsMember(existing, [], k);
      }
      if k in plan.ports {
        PortIsFound(e, h, plan, h', k);
      }
    }
  }

  lemma PortIsFound(e: Env, h: Home, plan: Plan, h': Home, k: string)
    requires Applied(e, h, plan, h') && AllAddedLoad(plan) && Plannable(e, h') && k in plan.ports
    ensures k in Keys(ExistingIn(e, h'))
  {
    hide Facts, ReadBack, FreshPaths, Apply, AddedPaths, Deleted, Loads, AddFiles, InDir, OwnPath, BuiltFrom, Key,
         Paths, ExistingIn, ScanServers, Plannable, CanonicalName, HomeOk, Keys, KeptPorts, AddPorts, AdditionsFor, Absent, Sort, KeptPaths;
    assert NewPlan(e, h) == Some(plan);
    PortsPresent(e, h, plan, k);
    AddPortsMember(KeptPorts(plan.existing, plan.removed), plan.added, k);
    var p: string;
    if a :| a in plan.added && Key(a.content.name) == k {
      p := a.path;
      AddedPathsMember(plan.added, p);
      NextPathsMember(e, h, plan, p);
      NewFileAfter(e, h, plan, h', a);
      AddedNamed(e, h, plan, a);
    } else {
      KeptPortsMember(plan.existing, plan.removed, k);
      var x := KeptByKey(e, h, plan, k);
      p := x.path;
      NextPathsMember(e, h, plan, p);
      OldFileByPath(e, h, plan, h', p);
    }
    FoundUnder(e, h, plan, h', p);
  }

  lemma FoundUnder(e: Env, h: Home, plan: Plan, h': Home, p: string)
    requires Applied(e, h, plan, h') && AllAddedLoad(plan) && Plannable(e, h') && p in plan.nextPaths
    ensures LoadsAt(h', p) && Key(CanonicalName(h'.files[p].value.name)) in Keys(ExistingIn(e, h'))
  {
    hide Facts, NewPlan, ReadBack, FreshPaths, Apply, AddedPaths, Deleted, Loads, AddFiles, InDir, OwnPath, BuiltFrom, Key,
         Paths, ExistingIn, ScanServers, Plannable, CanonicalName, HomeOk, Keys;
    var existing := ExistingIn(e, h');
    ExistingListed(e, h');
    ListedAgain(e, h, plan, h', p);
    PathsMember(existing, p);
    var x :| x in existing && x.path == p;
    assert Entry(e, h', x);
    KeysMember(existing, Key(x.name));
  }

  // ------------------------------------------------------------ the second list of wrappers

  function EntryIn(e: Env, files: map<string, Option<Config>>, p: string): Existing {
    if p in files && files[p].Some? then
      Existing(CanonicalName(files[p].value.name), p, files[p].value.localPort, InDir(e.dir, p))
    else Existing("", p, 0, false)
  }

  function InOrOut(e: Env, paths: seq<string>, inside: bool): seq<string> {
    if paths == [] then []
    else
      var p := paths[|paths| - 1];
      InOrOut(e, paths[..|paths| - 1], inside) + if InDir(e.dir, p) == inside then [p] else []
  }

  function EntriesIn(e: Env, files: map<string, Option<Config>>, paths: seq<string>): (r: seq<Existing>)
    ensures |r| == |paths| && forall i :: 0 <= i < |r| ==> r[i] == EntryIn(e, files, paths[i])
  {
    seq(|paths|, i requires 0 <= i < |paths| => EntryIn(e, files, paths[i]))
  }

  // The kept and the added wrappers as they are listed again: by path, those of the directory first.
  ghost function Relisted(e: Env, h: Home, plan: Plan): seq<Existing> {
    EntriesIn(e, AddFiles(h.files, plan.added), InOrOut(e, plan.nextPaths, true) + InOrOut(e, plan.nextPaths, false))
  }

  lemma {:induction false} InOrOutMember(e: Env, paths: seq<string>, inside: bool, p: string)
    ensures p in InOrOut(e, paths, inside) <==> p in paths && InDir(e.dir, p) == inside
  {
    if paths != [] {
      hide InDir;
      InOrOutMember(e, paths[..|paths| - 1], inside, p);
      assert paths == paths[..|paths| - 1] + [paths[|paths| - 1]];
    }
  }

  lemma {:induction false} InOrOutStrict(e: Env, paths: seq<string>, inside: bool)
    requires Strict(paths)
    ensures Strict(InOrOut(e, paths, inside))
  {
    if paths != [] {
      hide InDir, Less;
      var n := |paths| - 1;
      var init := InOrOut(e, paths[..n], inside);
      InOrOutStrict(e, paths[..n], inside);
      forall i | 0 <= i < |init| ensures Less(init[i], paths[n]) {
        assert init[i] in init;
        InOrOutMember(e, paths[..n], inside, init[i]);
        var j :| 0 <= j < n && paths[j] == init[i];
      }
    }
  }

  lemma DirPathsAgain(e: Env, h: Home, plan: Plan, h': Home)
    requires Applied(e, h, plan, h') && AllAddedLoad(plan) && Plannable(e, h')
    ensures DirPaths(e, h') == InOrOut(e, plan.nextPaths, true)
  {
    hide Facts, NewPlan, ReadBack, Apply, AddedPaths, Deleted, Loads, AddFiles, InDir, OwnPath, BuiltFrom, Key, PlanOf,
         Paths, ExistingIn, ScanServers, CanonicalName, HomeOk, Less, IsPlan, FreshPaths;
    NextPathsStrict(e, h, plan);
    InOrOutStrict(e, plan.nextPaths, true);
    forall p ensures p in DirPaths(e, h') <==> p in InOrOut(e, plan.nextPaths, true) {
      InOrOutMember(e, plan.nextPaths, true, p);
      ListedAgain(e, h, plan, h', p);
      ExistingListed(e, h');
      InDirIffListed(e, h', p);
    }
    StrictUnique(DirPaths(e, h'), InOrOut(e, plan.nextPaths, true));
  }

  lemma InDirIffListed(e: Env, h: Home, p: string)
    requires Plannable(e, h)
    ensures p in DirPaths(e, h) <==> InDir(e.dir, p) && p in Paths(ExistingIn(e, h))
  {
    hide InDir, Loads, Paths, ExistingIn;
    ExistingListed(e, h);
    assert Listable(e, h, ListedPaths(h), p) <==> p in Paths(ExistingIn(e, h));
    if p in DirPaths(e, h) {
      var i :| 0 <= i < |DirPaths(e, h)| && DirPaths(e, h)[i] == p;
      assert LoadsAt(h, DirPaths(e, h)[i]);
    }
  }

  lemma {:induction false} UnmanagedAgain(e: Env, h: Home, managed: seq<Existing>, listed: seq<string>, all: seq<string>)
    requires Distinct(all) && listed <= all && forall p :: p in all ==> LoadsAt(h, p) && p != ""
    requires forall p :: p in all ==> (p in Paths(managed) <==> InDir(e.dir, p))
    ensures WithUnmanaged(h, managed, listed) == managed + EntriesIn(e, h.files, InOrOut(e, listed, false))
  {
    hide InDir, Loads, CanonicalName, At, EntryIn;
    if listed == [] {
      assert EntriesIn(e, h.files, []) == [];
    } else {
      var n := |listed| - 1;
      var init, p, outs := listed[..n], listed[n], InOrOut(e, listed[..n], false);
      UnmanagedAgain(e, h, managed, init, all);
      assert p == all[n] && p in all;
      var before := managed + EntriesIn(e, h.files, outs);
      EntriesPaths(e, h.files, outs);
      assert Paths(before) == Paths(managed) + outs;
      InOrOutMember(e, init, false, p);
      forall i | 0 <= i < n ensures init[i] != p {
        assert init[i] == all[i];
      }
      if !InDir(e.dir, p) {
        assert EntryIn(e, h.files, p) == At(h, p, false) by { EntryOut(e, h, p); }
        assert EntriesIn(e, h.files, outs + [p]) == EntriesIn(e, h.files, outs) + [At(h, p, false)];
      }
    }
  }

  lemma EntriesPaths(e: Env, files: map<string, Option<Config>>, paths: seq<string>)
    ensures Paths(EntriesIn(e, files, paths)) == paths
  {
  }

  lemma EntryOut(e: Env, h: Home, p: string)
    requires LoadsAt(h, p) && !InDir(e.dir, p)
    ensures EntryIn(e, h.files, p) == At(h, p, false)
  {
    hide Loads, InDir, CanonicalName;
  }

  /** The second run lists exactly the kept and the added wrappers, by path, those of the directory first. */
  lemma ListedExactly(e: Env, h: Home, plan: Plan, h': Home)
    requires Applied(e, h, plan, h') && AllAddedLoad(plan) && Plannable(e, h')
    ensures ExistingIn(e, h') == Relisted(e, h, plan)
  {
    hide Facts, NewPlan, ReadBack, Apply, AddedPaths, Deleted, Loads, AddFiles, InDir, OwnPath, BuiltFrom, Key, PlanOf,
         ScanServers, CanonicalName, HomeOk, Less, IsPlan, FreshPaths, KeptPaths, AddPorts, KeptPorts;
    var next, inside, outside := plan.nextPaths, InOrOut(e, plan.nextPaths, true), InOrOut(e, plan.nextPaths, false);
    NextPathsStrict(e, h, plan);
    DirPathsAgain(e, h, plan, h');
    KeysAfter(e, h, plan, h', "");
    SameLength(e, h, plan, h');
    assert ListedPaths(h') == next;
    assert Distinct(next) by { StrictDistinct(next); }
    var managed := Managed(h', DirPaths(e, h'));
    assert Paths(managed) == inside;
    forall p | p in next ensures LoadsAt(h', p) && p != "" && (p in Paths(managed) <==> InDir(e.dir, p)) {
      InOrOutMember(e, next, true, p);
      FoundUnder(e, h, plan, h', p);
      NotBlank(e, h, plan, h', p);
    }
    UnmanagedAgain(e, h', managed, next, next);
    forall p | p in next ensures EntryIn(e, h'.files, p) == EntryIn(e, AddFiles(h.files, plan.added), p) {
      FoundUnder(e, h, plan, h', p);
      StillThere(e, h, plan, h', p);
    }
    SplitEntries(e, h'.files, AddFiles(h.files, plan.added), next);
    forall i | 0 <= i < |inside| ensures managed[i] == EntryIn(e, h'.files, inside[i]) {
      assert inside[i] in inside;
      InOrOutMember(e, next, true, inside[i]);
    }
    assert managed == EntriesIn(e, h'.files, inside);
  }

  lemma StrictDistinct(s: seq<string>)
    requires Strict(s)
    ensures Distinct(s)
  {
    hide Less;
    forall i, j | 0 <= i < j < |s| ensures s[i] != s[j] {
      LessTotal(s[i], s[j]);
    }
  }

  lemma NotBlank(e: Env, h: Home, plan: Plan, h': Home, p: string)
    requires Applied(e, h, plan, h') && AllAddedLoad(plan) && Plannable(e, h') && p in plan.nextPaths
    ensures p != ""
  {
    hide Facts, NewPlan, ReadBack, Apply, AddedPaths, Deleted, Loads, AddFiles, OwnPath, BuiltFrom, Key, PlanOf,
         Paths, ExistingIn, ScanServers, CanonicalName, HomeOk, IsPlan, FreshPaths;
    ListedAgain(e, h, plan, h', p);
    ExistingListed(e, h');
    assert Listable(e, h', ListedPaths(h'), p);
  }

  // What is there after the plan was there, or was added.
  lemma StillThere(e: Env, h: Home, plan: Plan, h': Home, p: string)
    requires Applied(e, h, plan, h') && LoadsAt(h', p)
    ensures p in AddFiles(h.files, plan.added) && AddFiles(h.files, plan.added)[p] == h'.files[p]
  {
    hide Facts, NewPlan, ReadBack, Deleted, Loads, AddFiles, HomeOk, IsPlan, FreshPaths, WrittenClients;
  }

  lemma SplitEntries(e: Env, files: map<string, Option<Config>>, same: map<string, Option<Config>>, next: seq<string>)
    requires forall p :: p in next ==> EntryIn(e, files, p) == EntryIn(e, same, p)
    ensures var inside, outside := InOrOut(e, next, true), InOrOut(e, next, false);
            EntriesIn(e, files, inside) + EntriesIn(e, files, outside) == EntriesIn(e, same, inside + outside)
  {
    hide EntryIn, InDir;
    var inside, outside := InOrOut(e, next, true), InOrOut(e, next, false);
    forall i | 0 <= i < |inside + outside| ensures EntryIn(e, files, (inside + outside)[i]) == EntryIn(e, same, (inside + outside)[i]) {
      var p := (inside + outside)[i];
      assert p in inside || p in outside;
      InOrOutMember(e, next, true, p);
      InOrOutMember(e, next, false, p);
    }
  }

  // Each key gets the same port from the second list as from the plan.
  ghost predicate PortsSettled(e: Env, h: Home, plan: Plan) { KeptPorts(Relisted(e, h, plan), []) == plan.ports }

  /** Clients are pointed to the same ports again exactly if the second list gives each key its port; it does if wrapper keys differ. */
  lemma PortsAgain(e: Env, h: Home, plan: Plan, h': Home)
    requires Applied(e, h, plan, h') && AllAddedLoad(plan) && StaysShown(e, h, plan) && StaysWrapped(e, h, plan)
    ensures NewPlan(e, h').Some? && (NewPlan(e, h').value.ports == plan.ports <==> PortsSettled(e, h, plan))
    ensures UniqueKeys(plan.existing) ==> PortsSettled(e, h, plan)
  {
    hide Applied, PlanOf, Plannable, AllAddedLoad, UniqueKeys, ExistingIn, AdditionsFor, KeptPorts, Relisted, StaysShown, StaysWrapped;
    NothingLeft(e, h, plan, h');
    ListedExactly(e, h, plan, h');
    if UniqueKeys(plan.existing) {
      PortsStay(e, h, plan, h');
    }
  }

  // --------------------------------------------------------------------------- client files

  /** Rewriting a server twice is rewriting it once. */
  lemma ReplaceTwice(w: World, s: RawServer, binary: string, socket: string, ports: map<string, nat>)
    ensures var t := Replace(w, s, binary, socket, ports);
            Replace(w, t, binary, socket, ports) == t
  {
    var t := Replace(w, s, binary, socket, ports);
    if Rewrites(w, ports, s) {
      RewrittenName(s, binary, socket, ports);
      CanonicalTwice(s.name);
      if s.url != "" {
        LocalAddressIsRef(w, t, if Key(s.name) in ports then ports[Key(s.name)] else 0);
        assert !Wrappable(w, t);
      } else {
        assert t.args[0] in t.args;
        assert !Wrappable(w, t);
      }
      hide Wrappable, CanonicalName, Lower;
    }
  }

  lemma {:induction false} NoRenderBlockers(w: World, ports: map<string, nat>, clients: seq<ClientFile>)
    requires forall i :: 0 <= i < |clients| && clients[i].format.JsonWithComments? ==> !AnyRewritten(w, ports, clients[i].servers)
    ensures RenderBlockers(w, ports, clients) == []
  {
    if clients != [] {
      hide AnyRewritten;
      NoRenderBlockers(w, ports, clients[..|clients| - 1]);
    }
  }

  // No server that a TOML file is merged to is rewritten again.
  ghost predicate MergedSettled(e: Env, h: Home, plan: Plan)
    requires |plan.updates| == |h.clients|
  {
    forall i, t :: 0 <= i < |h.clients| && h.clients[i].format.Toml? && t in e.w.merge(plan.updates[i]) ==> After(e, plan, t) == t
  }

  lemma EntriesSettled(e: Env, h: Home, plan: Plan, i: nat)
    requires IsPlan(e, h, plan) && i < |h.clients|
    ensures i < |plan.updates| && forall t :: t in plan.updates[i] ==> After(e, plan, t) == t
  {
    hide Replace, IsPlan;
    PlanUpdates(e, h, plan);
    forall t | t in plan.updates[i] ensures After(e, plan, t) == t {
      var j :| 0 <= j < |plan.updates[i]| && plan.updates[i][j] == t;
      ReplaceTwice(e.w, h.clients[i].servers[j], e.binary, plan.socket, plan.ports);
    }
  }

  /** With different names nothing is merged. */
  lemma DistinctSettled(e: Env, h: Home, plan: Plan)
    requires Facts(e.w) && IsPlan(e, h, plan) && |plan.updates| == |h.clients| && TomlDistinct(h, plan)
    ensures MergedSettled(e, h, plan)
  {
    hide Replace, IsPlan;
    forall i, t | 0 <= i < |h.clients| && h.clients[i].format.Toml? && t in e.w.merge(plan.updates[i]) ensures After(e, plan, t) == t {
      DistinctReadsAs(plan.updates[i], e.w.merge(plan.updates[i]));
      EntriesSettled(e, h, plan, i);
    }
  }

  // A client file is left as it is exactly if none of its servers is rewritten again.
  lemma ClientAgain(e: Env, h: Home, plan: Plan, h': Home, i: nat)
    requires Applied(e, h, plan, h') && i < |h.clients|
    ensures |h'.clients| == |h.clients| && |plan.updates| == |h.clients|
    ensures var servers := h'.clients[i].servers;
            ReplaceAll(e.w, servers, e.binary, plan.socket, plan.ports) == servers <==>
            h.clients[i].format.Toml? ==> forall t :: t in e.w.merge(plan.updates[i]) ==> After(e, plan, t) == t
    ensures h'.clients[i].format.JsonWithComments? ==> !AnyRewritten(e.w, plan.ports, h'.clients[i].servers)
  {
    hide Facts, HomeOk, NewPlan, FreshPaths, Replace, Rewrites, AddFiles, Deleted, IsPlan, Overwritten;
    SameLength(e, h, plan, h');
    NoBlockers(e, h, plan);
    CommentedUntouched(e.w, plan.ports, h.clients, i);
    EntriesSettled(e, h, plan, i);
    var servers := h'.clients[i].servers;
    AllSettled(e, plan, servers);
    match h.clients[i].format
    case Json =>
      forall t | t in servers ensures t in plan.updates[i] {
        OverwrittenStands(plan.updates[i], t);
      }
    case JsonWithComments => UntouchedFile(e, h, plan, i);
    case Toml =>
  }

  lemma AllSettled(e: Env, plan: Plan, servers: seq<RawServer>)
    ensures ReplaceAll(e.w, servers, e.binary, plan.socket, plan.ports) == servers <==> forall t :: t in servers ==> After(e, plan, t) == t
  {
    hide Replace;
    var r := ReplaceAll(e.w, servers, e.binary, plan.socket, plan.ports);
    if r == servers {
      forall t | t in servers ensures After(e, plan, t) == t {
        var j :| 0 <= j < |servers| && servers[j] == t;
        assert r[j] == After(e, plan, t);
      }
    }
    if forall t :: t in servers ==> After(e, plan, t) == t {
      forall j | 0 <= j < |servers| ensures r[j] == servers[j] {
        assert servers[j] in servers;
      }
    }
  }

  /**
    When nothing is added, removed or pointed to another port, planning again has no blocker, and
    it rewrites no client file exactly if no server that a TOML file is merged to is rewritten again.
  */
  lemma SecondRunIsEmpty(e: Env, h: Home, plan: Plan, h': Home)
    requires Applied(e, h, plan, h') && AllAddedLoad(plan) && StaysShown(e, h, plan) && StaysWrapped(e, h, plan) && PortsSettled(e, h, plan)
    ensures NewPlan(e, h').Some?
    ensures var again := NewPlan(e, h').value;
            && again.ports == plan.ports && again.blockers == [] && |again.updates| == |h'.clients| == |h.clients|
            && ((forall i :: 0 <= i < |h'.clients| ==> again.updates[i] == h'.clients[i].servers) <==> MergedSettled(e, h, plan))
  {
    hide Applied, PlanOf, Plannable, AllAddedLoad, UniqueKeys, ExistingIn, AdditionsFor, KeptPorts, ReplaceAll, AnyRewritten, RenderBlockers,
         StaysShown, StaysWrapped, PortsSettled, After;
    NothingLeft(e, h, plan, h');
    PortsAgain(e, h, plan, h');
    BinaryAndPaths(e, h, plan, h');
    UpdatesMatch(e, h, plan, h');
    AppliedLength(e, h, plan, h');
    forall i: nat | i < |h'.clients|
      ensures ReplaceAll(e.w, h'.clients[i].servers, e.binary, plan.socket, plan.ports) == h'.clients[i].servers <==>
              h.clients[i].format.Toml? ==> forall t :: t in e.w.merge(plan.updates[i]) ==> After(e, plan, t) == t
      ensures h'.clients[i].format.JsonWithComments? ==> !AnyRewritten(e.w, plan.ports, h'.clients[i].servers)
    {
      ClientAgain(e, h, plan, h', i);
    }
    NoRenderBlockers(e.w, plan.ports, h'.clients);
    PlanAgain(e, h', plan.ports, plan.socket);
  }

  lemma AppliedLength(e: Env, h: Home, plan: Plan, h': Home)
    requires Applied(e, h, plan, h')
    ensures |h'.clients| == |h.clients|
  {
    SameLength(e, h, plan, h');
  }

  lemma BinaryAndPaths(e: Env, h: Home, plan: Plan, h': Home)
    requires Applied(e, h, plan, h')
    ensures e.binary != "" && plan.nextPaths != []
  {
    NoBlockers(e, h, plan);
  }

  // A plan that adds and removes nothing, read off its parts.
  lemma PlanAgain(e: Env, h: Home, ports: map<string, nat>, socket: string)
    requires Plannable(e, h) && e.binary != "" && PlanOf(e, h).nextPaths != [] && PlanOf(e, h).socket == socket
    requires PlanOf(e, h).added == [] && PlanOf(e, h).removed == [] && KeptPorts(ExistingIn(e, h), []) == ports
    requires AdditionsFor(e, h).blockers == []
    requires RenderBlockers(e.w, ports, h.clients) == []
    ensures var again := PlanOf(e, h);
            && again.ports == ports && again.blockers == [] && |again.updates| == |h.clients|
            && forall i :: 0 <= i < |h.clients| ==> again.updates[i] == ReplaceAll(e.w, h.clients[i].servers, e.binary, socket, ports)
  {
    assert AddPorts(ports, []) == ports;
    hide ExistingIn, AdditionsFor, ScanServers, Absent, Sort, KeptPaths, KeptPorts, AddPorts, Paths, AddedPaths, ReplaceAll, RenderBlockers;
  }
}
