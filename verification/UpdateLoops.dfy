/**
  `setup update` as the program runs it: loops that fill maps and append to lists.  Together
  they compute the plan that `Update.NewPlan` defines.
*/
module UpdateLoops {
  import opened Options
  import opened Servers
  import opened Sorting
  import opened Update

  lemma ScanSnoc(w: World, socket: string, servers: seq<RawServer>, s: RawServer)
    ensures ScanServers(w, socket, servers + [s]) == Look(w, socket, ScanServers(w, socket, servers), s)
  {
    assert (servers + [s])[..|servers|] == servers;
  }

  lemma FilesInDir(e: Env, h: Home, keys: seq<string>)
    requires keys == Ascending(h.files.Keys)
    ensures Strict(Matching(e.dir, keys)) && Matching(e.dir, keys) == DirPaths(e, h)
  {
    MatchingMembers(e.dir, keys);
    StrictUnique(Matching(e.dir, keys), DirPaths(e, h));
  }

  // The paths of the wrapper directory among the given ones.
  function Matching(dir: string, keys: seq<string>): seq<string> {
    if keys == [] then []
    else Matching(dir, keys[..|keys| - 1]) + if InDir(dir, keys[|keys| - 1]) then [keys[|keys| - 1]] else []
  }

  lemma {:induction false} MatchingMembers(dir: string, keys: seq<string>)
    requires Strict(keys)
    ensures Strict(Matching(dir, keys))
    ensures forall p :: p in Matching(dir, keys) <==> p in keys && InDir(dir, p)
  {
    if keys != [] {
      hide InDir;
      var n := |keys| - 1;
      MatchingMembers(dir, keys[..n]);
      assert keys == keys[..n] + [keys[n]];
      forall p | p in keys[..n] ensures Less(p, keys[n]) {
      }
    }
  }

  method ListWrapperConfigs(e: Env, h: Home) returns (configs: Option<seq<Existing>>)
    ensures configs == if AllLoad(h, DirPaths(e, h)) then Some(Managed(h, DirPaths(e, h))) else None
  {
    hide LoadsAt, InDir, DirPaths, AllLoad, Managed, At, Matching;
    var keys := SortedKeys(h.files);
    FilesInDir(e, h, keys);
    NothingManaged(e, h);
    var list: seq<Existing> := [];
    for i := 0 to |keys|
      invariant AllLoad(h, Matching(e.dir, keys[..i])) && list == Managed(h, Matching(e.dir, keys[..i]))
    {
      OneMoreManaged(e, h, keys, i);
      if InDir(e.dir, keys[i]) {
        if !LoadsAt(h, keys[i]) {
          NotAllLoad(e, h, keys, keys[i]);
          return None;
        }
        list := list + [At(h, keys[i], true)];
      }
    }
    assert keys[..|keys|] == keys;
    return Some(list);
  }

  lemma NothingManaged(e: Env, h: Home)
    ensures Matching(e.dir, []) == [] && AllLoad(h, []) && Managed(h, []) == []
  {
  }

  lemma OneMoreManaged(e: Env, h: Home, keys: seq<string>, i: nat)
    requires i < |keys| && AllLoad(h, Matching(e.dir, keys[..i]))
    ensures var before, after := Matching(e.dir, keys[..i]), Matching(e.dir, keys[..i + 1]);
            && (!InDir(e.dir, keys[i]) ==> after == before)
            && (InDir(e.dir, keys[i]) && LoadsAt(h, keys[i]) ==>
                  AllLoad(h, after) && Managed(h, after) == Managed(h, before) + [At(h, keys[i], true)])
  {
    hide LoadsAt, InDir, At;
    assert keys[..i + 1][..i] == keys[..i];
  }

  lemma NotAllLoad(e: Env, h: Home, keys: seq<string>, p: string)
    requires keys == Ascending(h.files.Keys) && p in keys && InDir(e.dir, p) && !LoadsAt(h, p)
    ensures !AllLoad(h, DirPaths(e, h))
  {
    hide LoadsAt, InDir;
    var paths := DirPaths(e, h);
    assert p in paths;
    var i :| 0 <= i < |paths| && paths[i] == p;
  }

  method ListUpdateWrapperConfigs(e: Env, h: Home) returns (configs: Option<seq<Existing>>)
    ensures configs.Some? <==> AllLoad(h, DirPaths(e, h))
    ensures configs.Some? ==> configs.value == WithUnmanaged(h, Managed(h, DirPaths(e, h)), ListedPaths(h))
  {
    configs := ListWrapperConfigs(e, h);
    if configs.Some? {
      var list := AppendUnmanaged(h, configs.value, ListedPaths(h));
      configs := Some(list);
    }
  }

  method AppendUnmanaged(h: Home, managed: seq<Existing>, paths: seq<string>) returns (list: seq<Existing>)
    ensures list == WithUnmanaged(h, managed, paths)
  {
    hide Loads, CanonicalName;
    list := managed;
    var seen := set x | x in list :: x.path;
    forall p ensures p in seen <==> p in Paths(list) {
      PathsMember(list, p);
    }
    for i := 0 to |paths|
      invariant list == WithUnmanaged(h, managed, paths[..i])
      invariant forall p :: p in seen <==> p in Paths(list)
    {
      assert paths[..i + 1][..i] == paths[..i];
      if paths[i] == "" || paths[i] in seen || !LoadsAt(h, paths[i]) {
        continue;
      }
      ghost var before := list;
      list := list + [At(h, paths[i], false)];
      seen := seen + {paths[i]};
      assert Paths(list) == Paths(before) + [paths[i]];
    }
    assert paths[..|paths|] == paths;
  }

  // The inner loop, over the servers of a client file, continues the scan of the files before it.
  method ScanFile(w: World, socket: string, scan: Scan, servers: seq<RawServer>, ghost before: seq<RawServer>) returns (r: Scan)
    requires scan == ScanServers(w, socket, before)
    ensures r == ScanServers(w, socket, before + servers)
  {
    hide IsRef, CanWrap, Key, CanonicalName;
    var current, present := scan.current, scan.present;
    assert before + servers[..0] == before;
    for j := 0 to |servers|
      invariant Scan(current, present) == ScanServers(w, socket, before + servers[..j])
    {
      var server := servers[j];
      ScanSnoc(w, socket, before + servers[..j], server);
      assert before + servers[..j] + [server] == before + servers[..j + 1];
      var name, key := CanonicalName(server.name), Key(server.name);
      if IsRef(w, server, socket) {
        if name != "" {
          present := present + {key};
        }
        continue;
      }
      if !CanWrap(w, server) {
        continue;
      }
      present := present + {key};
      if key !in current {
        current := current[key := server.(name := name)];
      }
    }
    assert servers[..|servers|] == servers;
    return Scan(current, present);
  }

  method ScanClients(e: Env, h: Home) returns (scan: Option<Scan>)
    ensures scan == if Readable(h.clients) then Some(ScanServers(e.w, LooseSocket(e, h), AllServers(h.clients))) else None
  {
    hide ScanServers;
    var socket := LooseSocket(e, h);
    var found := Scan(map[], {});
    NothingScanned(e.w, socket);
    for i := 0 to |h.clients|
      invariant Readable(h.clients[..i])
      invariant found == ScanServers(e.w, socket, AllServers(h.clients[..i]))
    {
      if !h.clients[i].readable {
        return None;
      }
      assert h.clients[..i + 1][..i] == h.clients[..i];
      found := ScanFile(e.w, socket, found, h.clients[i].servers, AllServers(h.clients[..i]));
    }
    assert h.clients[..|h.clients|] == h.clients;
    return Some(found);
  }

  lemma NothingScanned(w: World, socket: string)
    ensures ScanServers(w, socket, []) == Scan(map[], {})
  {
  }

  /** The allotted port is the first one of the range that is neither used nor taken. */
  method AllocateLocalPort(w: World, used: set<nat>) returns (port: Option<nat>)
    ensures port == FreePort(w, used)
    ensures if port.Some? then FirstFree(w, used, port.value) else forall p: nat :: !Free(w, used, p)
  {
    for p := PORT_BASE to PORT_BASE + PORT_RANGE
      invariant forall q: nat :: q < p ==> !Free(w, used, q)
    {
      if p in used {
        continue;
      }
      if w.bindable(p) {
        FirstIsFree(w, used, p);
        return Some(p);
      }
    }
    return None;
  }

  lemma FirstIsFree(w: World, used: set<nat>, port: nat)
    requires FirstFree(w, used, port)
    ensures FreePort(w, used) == Some(port)
  {
    var p := FreePort(w, used).value;
    assert !(p < port) && !(port < p);
  }

  method ExistingLocalPorts(h: Home) returns (used: set<nat>)
    ensures used == UsedPorts(h, ListedPaths(h))
  {
    hide Loads;
    used := {};
    var paths := ListedPaths(h);
    for i := 0 to |paths|
      invariant used == UsedPorts(h, paths[..i])
    {
      assert paths[..i + 1][..i] == paths[..i];
      if LoadsAt(h, paths[i]) && h.files[paths[i]].value.localPort > 0 {
        used := used + {h.files[paths[i]].value.localPort};
      }
    }
    assert paths[..|paths|] == paths;
  }

  method AddWrapper(e: Env, a: Additions, server: RawServer) returns (r: Additions)
    ensures r == AddOne(e, a, server)
  {
    hide BuildConfig, OwnPath, FreePort;
    var content, used, blockers := BuildConfig(e.w, server, 0), a.used, a.blockers;
    if server.url != "" {
      var port := AllocateLocalPort(e.w, used);
      if port.None? {
        blockers := blockers + [NoPort(server.name)];
      } else {
        used := used + {port.value};
        content := BuildConfig(e.w, server, port.value);
      }
    }
    return Additions(a.added + [Added(server, OwnPath(e.dir, server.name), content)], used, blockers);
  }

  method AddWrappers(e: Env, current: map<string, RawServer>, existing: seq<Existing>, used: set<nat>) returns (a: Additions)
    ensures a == AddAll(e, current, Keys(existing), used, Ascending(current.Keys))
  {
    var taken := Keys(existing);
    hide AddOne, Key, Keys, AddAll;
    var keys := SortedKeys(current);
    NothingAdded(e, current, taken, used);
    a := Additions([], used, []);
    for i := 0 to |keys|
      invariant forall k :: 0 <= k < |keys| ==> keys[k] in current
      invariant a == AddAll(e, current, taken, used, keys[..i])
    {
      OneMoreAdded(e, current, taken, used, keys, i);
      if keys[i] in taken {
        continue;
      }
      a := AddWrapper(e, a, current[keys[i]]);
    }
    assert keys[..|keys|] == keys;
  }

  lemma NothingAdded(e: Env, current: map<string, RawServer>, taken: set<string>, used: set<nat>)
    ensures AddAll(e, current, taken, used, []) == Additions([], used, [])
  {
  }

  lemma OneMoreAdded(e: Env, current: map<string, RawServer>, taken: set<string>, used: set<nat>, keys: seq<string>, i: nat)
    requires i < |keys| && forall k :: 0 <= k < |keys| ==> keys[k] in current
    ensures var before := AddAll(e, current, taken, used, keys[..i]);
            AddAll(e, current, taken, used, keys[..i + 1]) == if keys[i] in taken then before else AddOne(e, before, current[keys[i]])
  {
    hide AddOne;
    assert keys[..i + 1][..i] == keys[..i];
  }

  method RemovedWrappers(existing: seq<Existing>, present: set<string>) returns (removed: seq<Existing>)
    ensures removed == Absent(existing, present)
  {
    hide Key;
    removed := [];
    for i := 0 to |existing|
      invariant removed == Absent(existing[..i], present)
    {
      assert existing[..i + 1][..i] == existing[..i];
      if Key(existing[i].name) !in present {
        removed := removed + [existing[i]];
      }
    }
    assert existing[..|existing|] == existing;
  }

  method NextPaths(existing: seq<Existing>, added: seq<Added>, removedWrappers: seq<Existing>) returns (paths: seq<string>)
    ensures paths == Sort(KeptPaths(existing, Paths(removedWrappers)) + AddedPaths(added))
  {
    var removed := set x | x in removedWrappers :: x.path;
    assert forall p :: p in removed <==> p in Paths(removedWrappers) by {
      forall p ensures p in removed <==> p in Paths(removedWrappers) {
        PathsMember(removedWrappers, p);
      }
    }
    paths := [];
    for i := 0 to |existing|
      invariant paths == KeptPaths(existing[..i], Paths(removedWrappers))
    {
      assert existing[..i + 1][..i] == existing[..i];
      if existing[i].path !in removed {
        paths := paths + [existing[i].path];
      }
    }
    assert existing[..|existing|] == existing;
    ghost var kept := paths;
    for i := 0 to |added|
      invariant paths == kept + AddedPaths(added)[..i]
    {
      paths := paths + [added[i].path];
    }
    assert AddedPaths(added)[..|added|] == AddedPaths(added);
    paths := Sort(paths);
  }

  method LocalPortsForUpdate(existing: seq<Existing>, added: seq<Added>, removed: seq<Existing>) returns (ports: map<string, nat>)
    ensures ports == AddPorts(KeptPorts(existing, removed), added)
  {
    hide Key;
    var removedByPath := set x | x in Paths(removed);
    var removedByName := Keys(removed);
    ports := map[];
    for i := 0 to |existing|
      invariant ports == KeptPorts(existing[..i], removed)
    {
      assert existing[..i + 1][..i] == existing[..i];
      var name := Key(existing[i].name);
      if existing[i].path in removedByPath || name in removedByName {
        continue;
      }
      if existing[i].port > 0 {
        ports := ports[name := existing[i].port];
      }
    }
    assert existing[..|existing|] == existing;
    ghost var kept := ports;
    for i := 0 to |added|
      invariant ports == AddPorts(kept, added[..i])
    {
      assert added[..i + 1][..i] == added[..i];
      if added[i].content.localPort > 0 {
        ports := ports[Key(added[i].content.name) := added[i].content.localPort];
      }
    }
    assert added[..|added|] == added;
  }

  method RewriteClients(e: Env, clients: seq<ClientFile>, socket: string, ports: map<string, nat>)
    returns (updates: seq<seq<RawServer>>, blockers: seq<Blocker>)
    ensures |updates| == |clients|
    ensures forall i :: 0 <= i < |clients| ==> updates[i] == ReplaceAll(e.w, clients[i].servers, e.binary, socket, ports)
    ensures blockers == RenderBlockers(e.w, ports, clients)
  {
    hide Rewrites, ReplaceAll;
    updates, blockers := [], [];
    for i := 0 to |clients|
      invariant |updates| == i && blockers == RenderBlockers(e.w, ports, clients[..i])
      invariant forall k :: 0 <= k < i ==> updates[k] == ReplaceAll(e.w, clients[k].servers, e.binary, socket, ports)
    {
      assert clients[..i + 1][..i] == clients[..i];
      var next := ReplaceWithWrapperRefs(e.w, clients[i].servers, e.binary, socket, ports);
      updates := updates + [next];
      if clients[i].format.JsonWithComments? && AnyRewritten(e.w, ports, clients[i].servers) {
        blockers := blockers + [NotRenderable(i)];
      }
    }
    assert clients[..|clients|] == clients;
  }

  /** The plan of the program is the plan as it is defined. */
  method NewUpdatePlan(e: Env, h: Home) returns (plan: Option<Plan>)
    ensures plan == NewPlan(e, h)
  {
    hide AllLoad, ScanServers, WithUnmanaged, Managed, AddAll, Absent, KeptPaths, KeptPorts, AddPorts, AddedPaths, Paths, Keys, Sort,
         UsedPorts, RenderBlockers, ReplaceAll, DirPaths, LooseSocket, ListedPaths, Readable;
    var listed := ListUpdateWrapperConfigs(e, h);
    if listed.None? {
      return None;
    }
    var scan := ScanClients(e, h);
    if scan.None? {
      return None;
    }
    var existing := listed.value;
    var used := ExistingLocalPorts(h);
    var additions := AddWrappers(e, scan.value.current, existing, used);
    var removed := RemovedWrappers(existing, scan.value.present);
    var nextPaths := NextPaths(existing, additions.added, removed);
    var ports := LocalPortsForUpdate(existing, additions.added, removed);
    var socket := StrictSocket(e, h);
    var updates, blocked := RewriteClients(e, h.clients, socket, ports);
    var blockers := if e.binary == "" then [NoBinary] else [];
    blockers := blockers + additions.blockers + (if nextPaths == [] then [NothingRemains] else []) + blocked;
    plan := Some(Plan(existing, additions.added, removed, socket, nextPaths, ports, updates, blockers));
    assert updates == PlanOf(e, h).updates;
  }
}
