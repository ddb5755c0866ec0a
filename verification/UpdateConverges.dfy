/**
  Convergence of `setup update`: once a plan is applied, planning again finds nothing to add
  and nothing to remove.
*/
module UpdateConverges {
  import opened Options
  import opened Sequences
  import opened Text
  import opened Servers
  import opened Sorting
  import opened Update

  // ------------------------------------------------------------------- what a scan finds

  predicate Shown(w: World, socket: string, s: RawServer) { IsRef(w, s, socket) || CanWrap(w, s) }

  predicate ToWrap(w: World, socket: string, s: RawServer) { !IsRef(w, s, socket) && CanWrap(w, s) }

  ghost predicate NamesOk(servers: seq<RawServer>) { forall s :: s in servers ==> CanonicalName(s.name) != "" }

  ghost predicate Shows(w: World, socket: string, servers: seq<RawServer>, k: string) {
    exists s :: s in servers && Shown(w, socket, s) && Key(s.name) == k
  }

  ghost predicate WrapsKey(w: World, socket: string, servers: seq<RawServer>, k: string) {
    exists s :: s in servers && ToWrap(w, socket, s) && Key(s.name) == k
  }

  lemma LookFinds(w: World, socket: string, sc: Scan, s: RawServer, k: string)
    requires CanonicalName(s.name) != ""
    ensures k in Look(w, socket, sc, s).present <==> k in sc.present || (Shown(w, socket, s) && Key(s.name) == k)
    ensures k in Look(w, socket, sc, s).current <==> k in sc.current || (ToWrap(w, socket, s) && Key(s.name) == k)
    ensures k in sc.current ==> k in Look(w, socket, sc, s).current && Look(w, socket, sc, s).current[k] == sc.current[k]
    ensures k !in sc.current && ToWrap(w, socket, s) && Key(s.name) == k ==>
            Look(w, socket, sc, s).current[k] == s.(name := CanonicalName(s.name))
  {
    hide IsRef, CanWrap, Key, CanonicalName;
  }

  /** A scan marks the keys that some server shows, and keeps, canonically named, a server to wrap for each of its keys. */
  lemma {:induction false} ScanFinds(w: World, socket: string, servers: seq<RawServer>, k: string)
    requires NamesOk(servers)
    ensures k in ScanServers(w, socket, servers).present <==> Shows(w, socket, servers, k)
    ensures k in ScanServers(w, socket, servers).current <==> WrapsKey(w, socket, servers, k)
  {
    if servers != [] {
      hide Look, Shown, ToWrap, Key, CanonicalName;
      var init, last := servers[..|servers| - 1], servers[|servers| - 1];
      assert servers == init + [last];
      assert forall s :: s in servers <==> s in init || s == last;
      ScanFinds(w, socket, init, k);
      LookFinds(w, socket, ScanServers(w, socket, init), last, k);
    }
  }

  // The server kept for a key is the first one of that key to be wrapped.
  ghost predicate FirstOf(w: World, socket: string, servers: seq<RawServer>, k: string, s: RawServer) {
    exists i :: 0 <= i < |servers| && ToWrap(w, socket, servers[i]) && Key(servers[i].name) == k
      && s == servers[i].(name := CanonicalName(servers[i].name))
      && forall j :: 0 <= j < i ==> !(ToWrap(w, socket, servers[j]) && Key(servers[j].name) == k)
  }

  lemma {:induction false} ScanKeepsFirst(w: World, socket: string, servers: seq<RawServer>, k: string)
    requires NamesOk(servers) && k in ScanServers(w, socket, servers).current
    ensures FirstOf(w, socket, servers, k, ScanServers(w, socket, servers).current[k])
  {
    hide Look, ToWrap, Key, CanonicalName;
    var n := |servers| - 1;
    var init := servers[..n];
    LookFinds(w, socket, ScanServers(w, socket, init), servers[n], k);
    assert forall s :: s in init ==> s in servers;
    if k in ScanServers(w, socket, init).current {
      ScanKeepsFirst(w, socket, init, k);
      var s := ScanServers(w, socket, init).current[k];
      var i :| 0 <= i < n && ToWrap(w, socket, init[i]) && Key(init[i].name) == k
        && s == init[i].(name := CanonicalName(init[i].name))
        && forall j :: 0 <= j < i ==> !(ToWrap(w, socket, init[j]) && Key(init[j].name) == k);
      assert servers[i] == init[i] && forall j :: 0 <= j < i ==> servers[j] == init[j];
    } else {
      ScanFinds(w, socket, init, k);
      forall j | 0 <= j < n ensures !(ToWrap(w, socket, servers[j]) && Key(servers[j].name) == k) {
        assert init[j] in init;
      }
      assert Key(servers[n].name) == k;
    }
  }

  lemma {:induction false} AllServersIn(clients: seq<ClientFile>, s: RawServer)
    ensures s in AllServers(clients) <==> exists i :: 0 <= i < |clients| && s in clients[i].servers
  {
    if clients != [] {
      var n := |clients| - 1;
      AllServersIn(clients[..n], s);
      if i :| 0 <= i < |clients| && s in clients[i].servers {
        assert i < n ==> clients[..n][i] == clients[i];
      }
    }
  }

  // --------------------------------------------------------------- what the lists contain

  // An entry of the list of wrappers is what its file says; the ones of the directory are managed.
  ghost predicate Entry(e: Env, h: Home, x: Existing) {
    LoadsAt(h, x.path) && x == At(h, x.path, InDir(e.dir, x.path))
  }

  ghost predicate Listable(e: Env, h: Home, listed: seq<string>, p: string) {
    LoadsAt(h, p) && (InDir(e.dir, p) || (p != "" && p in listed))
  }

  ghost predicate ListedAs(e: Env, h: Home, listed: seq<string>, existing: seq<Existing>) {
    && Distinct(Paths(existing))
    && (forall x :: x in existing ==> Entry(e, h, x))
    && (forall p :: p in Paths(existing) <==> Listable(e, h, listed, p))
  }

  lemma ManagedListed(e: Env, h: Home)
    requires AllLoad(h, DirPaths(e, h))
    ensures ListedAs(e, h, [], Managed(h, DirPaths(e, h)))
  {
    var paths := DirPaths(e, h);
    var m := Managed(h, paths);
    assert Paths(m) == paths;
    forall i, j | 0 <= i < j < |paths| ensures paths[i] != paths[j] {
      LessTotal(paths[i], paths[j]);
    }
    forall x | x in m ensures Entry(e, h, x) {
      var i :| 0 <= i < |m| && m[i] == x;
      assert paths[i] in paths;
    }
    forall p ensures p in paths <==> Listable(e, h, [], p) {
      assert Listable(e, h, [], p) ==> p in (set p | p in h.files && InDir(e.dir, p));
      assert p in paths ==> LoadsAt(h, p) by {
        if i :| 0 <= i < |paths| && paths[i] == p {
          assert LoadsAt(h, paths[i]);
        }
      }
    }
  }

  lemma OneMoreListed(e: Env, h: Home, listed: seq<string>, before: seq<Existing>, p: string)
    requires ListedAs(e, h, listed, before)
    ensures p == "" || p in Paths(before) || !LoadsAt(h, p) ==> ListedAs(e, h, listed + [p], before)
    ensures !(p == "" || p in Paths(before) || !LoadsAt(h, p)) ==> ListedAs(e, h, listed + [p], before + [At(h, p, false)])
  {
    hide Loads, InDir;
    if !(p == "" || p in Paths(before) || !LoadsAt(h, p)) {
      assert Listable(e, h, listed, p) ==> p in Paths(before);
      var after := before + [At(h, p, false)];
      assert Paths(after) == Paths(before) + [p];
    }
  }

  lemma {:induction false} UnmanagedListed(e: Env, h: Home, managed: seq<Existing>, listed: seq<string>)
    requires ListedAs(e, h, [], managed)
    ensures ListedAs(e, h, listed, WithUnmanaged(h, managed, listed))
  {
    if listed != [] {
      var init, p := listed[..|listed| - 1], listed[|listed| - 1];
      UnmanagedListed(e, h, managed, init);
      assert listed == init + [p];
      OneMoreListed(e, h, init, WithUnmanaged(h, managed, init), p);
    }
  }

  /** The list of wrappers holds every loadable file of the directory or of the daemon configuration, once. */
  lemma ExistingListed(e: Env, h: Home)
    requires Plannable(e, h)
    ensures ListedAs(e, h, ListedPaths(h), ExistingIn(e, h))
  {
    ManagedListed(e, h);
    UnmanagedListed(e, h, Managed(h, DirPaths(e, h)), ListedPaths(h));
  }

  lemma {:induction false} AbsentMember(existing: seq<Existing>, present: set<string>, x: Existing)
    ensures x in Absent(existing, present) <==> x in existing && Key(x.name) !in present
  {
    if existing != [] {
      hide Key;
      var n := |existing| - 1;
      AbsentMember(existing[..n], present, x);
      assert existing == existing[..n] + [existing[n]];
    }
  }

  lemma {:induction false} KeptMember(existing: seq<Existing>, removed: seq<string>, p: string)
    ensures p in KeptPaths(existing, removed) <==> p in Paths(existing) && p !in removed
  {
    if existing != [] {
      var n := |existing| - 1;
      KeptMember(existing[..n], removed, p);
      assert Paths(existing) == Paths(existing[..n]) + [existing[n].path];
    }
  }

  lemma {:induction false} KeptDistinct(existing: seq<Existing>, removed: seq<string>)
    requires Distinct(Paths(existing))
    ensures Distinct(KeptPaths(existing, removed))
  {
    if existing != [] {
      var n := |existing| - 1;
      assert Paths(existing) == Paths(existing[..n]) + [existing[n].path];
      assert forall i :: 0 <= i < n ==> Paths(existing[..n])[i] == Paths(existing)[i] != Paths(existing)[n];
      KeptDistinct(existing[..n], removed);
      KeptMember(existing[..n], removed, existing[n].path);
      assert existing[n].path !in KeptPaths(existing[..n], removed);
    }
  }

  // What is known of an added wrapper: it is named after a server of a key that had none.
  ghost predicate AddedOk(e: Env, current: map<string, RawServer>, taken: set<string>, keys: seq<string>, a: Added) {
    exists k :: k in keys && k !in taken && k in current && a.server == current[k]
      && a.path == OwnPath(e.dir, current[k].name) && BuiltFrom(e.w, current[k], a.content)
  }

  ghost predicate BuiltFrom(w: World, s: RawServer, c: Config) {
    exists port: nat :: c == BuildConfig(w, s, port) && (s.url == "" ==> port == 0)
  }

  lemma {:induction false} AddAllMembers(e: Env, current: map<string, RawServer>, taken: set<string>, used: set<nat>, keys: seq<string>)
    requires forall i :: 0 <= i < |keys| ==> keys[i] in current
    ensures var added := AddAll(e, current, taken, used, keys).added;
            && (forall a :: a in added ==> AddedOk(e, current, taken, keys, a))
            && (forall k :: k in keys && k !in taken ==> exists a :: a in added && a.server == current[k])
  {
    if keys != [] {
      hide BuildConfig, OwnPath, FreePort;
      var n := |keys| - 1;
      var init, k := keys[..n], keys[n];
      assert keys == init + [k];
      AddAllMembers(e, current, taken, used, init);
      var before := AddAll(e, current, taken, used, init);
      hide AddAll, AddOne, BuiltFrom;
      if k !in taken {
        var a := AddedOneMore(e, current, taken, used, keys);
        assert AddedOk(e, current, taken, keys, a);
        assert a in before.added + [a];
      } else {
        NoneAddedMore(e, current, taken, used, keys);
      }
      forall b | b in before.added ensures AddedOk(e, current, taken, keys, b) {
        AddedOkMore(e, current, taken, init, k, b);
      }
    }
  }

  lemma AddedOkMore(e: Env, current: map<string, RawServer>, taken: set<string>, init: seq<string>, k: string, a: Added)
    requires AddedOk(e, current, taken, init, a)
    ensures AddedOk(e, current, taken, init + [k], a)
  {
    hide BuiltFrom, OwnPath;
    var m :| m in init && m !in taken && m in current && a.server == current[m]
      && a.path == OwnPath(e.dir, current[m].name) && BuiltFrom(e.w, current[m], a.content);
    assert m in init + [k];
  }

  lemma NoneAddedMore(e: Env, current: map<string, RawServer>, taken: set<string>, used: set<nat>, keys: seq<string>)
    requires keys != [] && keys[|keys| - 1] in taken && forall i :: 0 <= i < |keys| ==> keys[i] in current
    ensures AddAll(e, current, taken, used, keys) == AddAll(e, current, taken, used, keys[..|keys| - 1])
  {
  }

  lemma AddedOneMore(e: Env, current: map<string, RawServer>, taken: set<string>, used: set<nat>, keys: seq<string>) returns (a: Added)
    requires keys != [] && keys[|keys| - 1] !in taken && forall i :: 0 <= i < |keys| ==> keys[i] in current
    ensures AddAll(e, current, taken, used, keys).added == AddAll(e, current, taken, used, keys[..|keys| - 1]).added + [a]
    ensures var s := current[keys[|keys| - 1]];
            a.server == s && a.path == OwnPath(e.dir, s.name) && BuiltFrom(e.w, s, a.content)
  {
    hide BuildConfig, OwnPath, FreePort;
    var before, after := AddAll(e, current, taken, used, keys[..|keys| - 1]), AddAll(e, current, taken, used, keys);
    a := after.added[|before.added|];
  }

  // --------------------------------------------------------------------- after the plan is applied

  // Names are not blank.
  ghost predicate HomeOk(h: Home) { NamesOk(AllServers(h.clients)) }

  // The files of added wrappers are new and different.
  ghost predicate FreshPaths(h: Home, plan: Plan) {
    && Distinct(AddedPaths(plan.added))
    && forall a :: a in plan.added ==> a.path !in h.files
  }

  ghost predicate AllAddedLoad(plan: Plan) { forall a :: a in plan.added ==> Loads(a.content) }

  // The plan of h, with a trigger that keeps its definition folded until a proof mentions it.
  ghost predicate IsPlan(e: Env, h: Home, plan: Plan) {
    forall k: Home {:trigger NewPlan(e, k)} :: k == h ==> NewPlan(e, k) == Some(plan)
  }

  // The plan of a home, and what applying it leaves.
  ghost predicate Applied(e: Env, h: Home, plan: Plan, h': Home) {
    && Facts(e.w) && e.defaultSocket != "" && HomeOk(h) && IsPlan(e, h, plan) && plan.blockers == []
    && FreshPaths(h, plan) && |plan.updates| == |h.clients| && h' == Apply(e, h, plan)
  }

  function Present(e: Env, h: Home): set<string> { ScanServers(e.w, LooseSocket(e, h), AllServers(h.clients)).present }

  function Current(e: Env, h: Home): map<string, RawServer> { ScanServers(e.w, LooseSocket(e, h), AllServers(h.clients)).current }

  lemma NoBlockers(e: Env, h: Home, plan: Plan)
    requires IsPlan(e, h, plan) && plan.blockers == []
    ensures e.binary != "" && plan.nextPaths != [] && RenderBlockers(e.w, plan.ports, h.clients) == []
  {
    hide ExistingIn, AdditionsFor, Absent, AddPorts, KeptPorts, KeptPaths, AddedPaths, Sort, Paths, ScanServers, RenderBlockers;
    assert NewPlan(e, h) == Some(plan);
  }

  lemma {:induction false} CommentedUntouched(w: World, ports: map<string, nat>, clients: seq<ClientFile>, i: nat)
    requires RenderBlockers(w, ports, clients) == [] && i < |clients|
    ensures clients[i].format.JsonWithComments? ==> !AnyRewritten(w, ports, clients[i].servers)
  {
    var n := |clients| - 1;
    if i < n {
      CommentedUntouched(w, ports, clients[..n], i);
    }
  }

  lemma PlanUpdates(e: Env, h: Home, plan: Plan)
    requires IsPlan(e, h, plan)
    ensures |plan.updates| == |h.clients| && plan.socket == StrictSocket(e, h) && Readable(h.clients)
    ensures forall i :: 0 <= i < |h.clients| ==>
              plan.updates[i] == ReplaceAll(e.w, h.clients[i].servers, e.binary, plan.socket, plan.ports)
  {
    hide ExistingIn, AdditionsFor, Absent, AddPorts, KeptPorts, KeptPaths, AddedPaths, Sort, Paths, ScanServers;
    assert NewPlan(e, h) == Some(plan);
  }

  lemma Untouched(e: Env, servers: seq<RawServer>, socket: string, ports: map<string, nat>)
    requires !AnyRewritten(e.w, ports, servers)
    ensures ReplaceAll(e.w, servers, e.binary, socket, ports) == servers
  {
    hide Rewrites, Rewrite;
  }

  // --------------------------------------------------------------------- keys before and after

  lemma CurrentNamed(e: Env, h: Home, k: string)
    requires NamesOk(AllServers(h.clients)) && k in Current(e, h)
    ensures Key(Current(e, h)[k].name) == k && k in Present(e, h)
    ensures CanonicalName(Current(e, h)[k].name) == Current(e, h)[k].name != ""
  {
    var servers, socket := AllServers(h.clients), LooseSocket(e, h);
    ScanKeepsFirst(e.w, socket, servers, k);
    ScanFinds(e.w, socket, servers, k);
    var i :| 0 <= i < |servers| && ToWrap(e.w, socket, servers[i]) && Key(servers[i].name) == k
      && Current(e, h)[k] == servers[i].(name := CanonicalName(servers[i].name));
    assert servers[i] in servers;
    CanonicalTwice(servers[i].name);
  }

  lemma {:induction false} KeptPortsMember(existing: seq<Existing>, removed: seq<Existing>, k: string)
    requires k in KeptPorts(existing, removed)
    ensures k in Keys(existing) && k !in Keys(removed)
  {
    hide Key;
    var n := |existing| - 1;
    if k in KeptPorts(existing[..n], removed) {
      KeptPortsMember(existing[..n], removed, k);
      var i :| 0 <= i < n && Key(existing[..n][i].name) == k;
      assert existing[i] == existing[..n][i];
    }
  }

  lemma {:induction false} AddPortsMember(ports: map<string, nat>, added: seq<Added>, k: string)
    requires k in AddPorts(ports, added)
    ensures k in ports || exists a :: a in added && Key(a.content.name) == k
  {
    if added != [] {
      hide Key;
      var n := |added| - 1;
      if k in AddPorts(ports, added[..n]) {
        AddPortsMember(ports, added[..n], k);
      } else {
        assert added[n] in added;
      }
    }
  }

  // Where an added wrapper comes from.
  lemma AddedFrom(e: Env, h: Home, plan: Plan, a: Added)
    requires HomeOk(h) && IsPlan(e, h, plan) && a in plan.added
    ensures Key(a.content.name) in Current(e, h) && Key(a.content.name) !in Keys(plan.existing)
    ensures a.server == Current(e, h)[Key(a.content.name)] && a.content.name == a.server.name
    ensures a.path == OwnPath(e.dir, a.server.name) && BuiltFrom(e.w, a.server, a.content)
  {
    hide Key, OwnPath, BuiltFrom, ScanServers, ExistingIn, Absent, AddPorts, KeptPorts, KeptPaths, AddedPaths, Sort, Paths, UsedPorts;
    assert NewPlan(e, h) == Some(plan);
    var current := Current(e, h);
    AddAllMembers(e, current, Keys(ExistingIn(e, h)), UsedPorts(h, ListedPaths(h)), Ascending(current.Keys));
    assert AddedOk(e, current, Keys(plan.existing), Ascending(current.Keys), a);
    var k :| k in current && k !in Keys(plan.existing) && a.server == current[k]
      && a.path == OwnPath(e.dir, current[k].name) && BuiltFrom(e.w, current[k], a.content);
    CurrentNamed(e, h, k);
    BuiltFromName(e.w, current[k], a.content);
  }

  lemma BuiltFromName(w: World, s: RawServer, c: Config)
    requires BuiltFrom(w, s, c)
    ensures c.name == s.name
  {
  }

  /** Every key without a wrapper gets one. */
  lemma AddedFor(e: Env, h: Home, plan: Plan, k: string)
    requires HomeOk(h) && IsPlan(e, h, plan) && k in Current(e, h) && k !in Keys(plan.existing)
    ensures exists a :: a in plan.added && Key(a.content.name) == k
  {
    hide Key, OwnPath, ScanServers, ExistingIn, Absent, AddPorts, KeptPorts, KeptPaths, AddedPaths, Sort, Paths, UsedPorts;
    assert NewPlan(e, h) == Some(plan);
    var current := Current(e, h);
    AddAllMembers(e, current, Keys(ExistingIn(e, h)), UsedPorts(h, ListedPaths(h)), Ascending(current.Keys));
    assert k in Ascending(current.Keys);
    var a :| a in plan.added && a.server == current[k];
    AddedFrom(e, h, plan, a);
    CurrentNamed(e, h, k);
    CurrentNamed(e, h, Key(a.content.name));
  }

  lemma PortsPresent(e: Env, h: Home, plan: Plan, k: string)
    requires HomeOk(h) && IsPlan(e, h, plan) && k in plan.ports
    ensures k in Present(e, h)
  {
    hide Key, OwnPath, ScanServers, ExistingIn, AddPorts, KeptPorts, KeptPaths, AddedPaths, Sort, Paths, UsedPorts, Absent, AdditionsFor;
    assert NewPlan(e, h) == Some(plan);
    AddPortsMember(KeptPorts(plan.existing, plan.removed), plan.added, k);
    if a :| a in plan.added && Key(a.content.name) == k {
      AddedFrom(e, h, plan, a);
      CurrentNamed(e, h, k);
    } else {
      KeptPortsMember(plan.existing, plan.removed, k);
      KeysMember(plan.existing, k);
      var x :| x in plan.existing && Key(x.name) == k;
      AbsentMember(plan.existing, Present(e, h), x);
      KeysMember(plan.removed, k);
    }
  }

  lemma PlanSocket(e: Env, h: Home, plan: Plan)
    requires IsPlan(e, h, plan) && e.defaultSocket != ""
    ensures plan.socket == StrictSocket(e, h) != ""
  {
    PlanUpdates(e, h, plan);
  }

  lemma RewrittenName(s: RawServer, binary: string, socket: string, ports: map<string, nat>)
    ensures CanonicalName(Rewrite(s, binary, socket, ports).name) == CanonicalName(s.name)
  {
    CanonicalTwice(s.name);
  }

  lemma SameLength(e: Env, h: Home, plan: Plan, h': Home)
    requires Applied(e, h, plan, h')
    ensures |h'.clients| == |h.clients| && h'.daemon == Some(DaemonFile(plan.socket, plan.nextPaths))
    ensures Readable(h'.clients) && h'.files == AddFiles(h.files, plan.added) - Deleted(plan.removed)
  {
    hide ReadBack, AddFiles, Deleted, IsPlan, HomeOk, Facts, FreshPaths;
    PlanUpdates(e, h, plan);
  }

  // The servers that clients are left with, once entries of one name in a file have replaced each other or merged.
  ghost function Remaining(e: Env, h: Home, plan: Plan): seq<RawServer>
    requires |plan.updates| == |h.clients|
  {
    AllServers(WrittenClients(e.w, h.clients, plan.updates))
  }

  // The key has a wrapper that the plan keeps or adds.
  ghost predicate Kept(e: Env, h: Home, plan: Plan, k: string) {
    (k in Keys(plan.existing) && k in Present(e, h)) || exists a :: a in plan.added && Key(a.content.name) == k
  }

  // Each key that keeps a wrapper is shown by a server that remains.
  ghost predicate StaysShown(e: Env, h: Home, plan: Plan)
    requires |plan.updates| == |h.clients|
  {
    forall k :: Kept(e, h, plan, k) ==> Shows(e.w, plan.socket, Remaining(e, h, plan), k)
  }

  // Each server that remains and is to be wrapped has a wrapper.
  ghost predicate StaysWrapped(e: Env, h: Home, plan: Plan)
    requires |plan.updates| == |h.clients|
  {
    forall k :: WrapsKey(e.w, plan.socket, Remaining(e, h, plan), k) ==> Kept(e, h, plan, k)
  }

  // Writing and reading back keeps the names of a client file.
  lemma ReadBackNames(w: World, c: ClientFile, next: seq<RawServer>, t: RawServer)
    requires Facts(w) && t in ReadBack(w, c, next)
    ensures HasName(next, t.name) || t in c.servers
  {
    hide Overwritten;
    OverwrittenReads(next);
    var r := ReadBack(w, c, next);
    var i :| 0 <= i < |r| && r[i] == t;
    assert HasName(r, t.name);
  }

  lemma RemainingNamed(e: Env, h: Home, plan: Plan)
    requires Facts(e.w) && HomeOk(h) && IsPlan(e, h, plan) && |plan.updates| == |h.clients|
    ensures NamesOk(Remaining(e, h, plan))
  {
    hide CanonicalName, ReadBack, Facts, IsPlan, Rewrites, Rewrite;
    PlanUpdates(e, h, plan);
    var after := WrittenClients(e.w, h.clients, plan.updates);
    forall t | t in Remaining(e, h, plan) ensures CanonicalName(t.name) != "" {
      AllServersIn(after, t);
      var i :| 0 <= i < |after| && t in after[i].servers;
      var servers := h.clients[i].servers;
      ReadBackNames(e.w, h.clients[i], plan.updates[i], t);
      if t in servers {
        AllServersIn(h.clients, t);
      } else {
        var j :| 0 <= j < |servers| && plan.updates[i][j].name == t.name;
        assert servers[j] in servers;
        AllServersIn(h.clients, servers[j]);
        RewrittenName(servers[j], e.binary, plan.socket, plan.ports);
      }
    }
  }

  /** After a plan is applied clients show, and leave to wrap, the keys of the servers that remain, under the socket that was written. */
  lemma KeysAfter(e: Env, h: Home, plan: Plan, h': Home, k: string)
    requires Applied(e, h, plan, h')
    ensures NamesOk(AllServers(h'.clients)) && LooseSocket(e, h') == StrictSocket(e, h') == plan.socket && DaemonLoads(h')
    ensures k in Present(e, h') <==> Shows(e.w, plan.socket, Remaining(e, h, plan), k)
    ensures k in Current(e, h') <==> WrapsKey(e.w, plan.socket, Remaining(e, h, plan), k)
  {
    hide NewPlan, FreshPaths, Shown, ToWrap, Key, CanonicalName, ScanServers, WrittenClients, AddFiles, Deleted;
    SameLength(e, h, plan, h');
    NoBlockers(e, h, plan);
    PlanSocket(e, h, plan);
    RemainingNamed(e, h, plan);
    ScanFinds(e.w, plan.socket, Remaining(e, h, plan), k);
  }

  // --------------------------------------------------------------------- files before and after

  lemma AddedPathsMember(added: seq<Added>, p: string)
    ensures p in AddedPaths(added) <==> exists a :: a in added && a.path == p
  {
    if p in AddedPaths(added) {
      var i :| 0 <= i < |added| && AddedPaths(added)[i] == p;
      assert added[i] in added;
    }
    if a :| a in added && a.path == p {
      var i :| 0 <= i < |added| && added[i] == a;
      assert AddedPaths(added)[i] == p;
    }
  }

  lemma {:induction false} AddFilesAt(files: map<string, Option<Config>>, added: seq<Added>, p: string)
    ensures p in AddFiles(files, added) <==> p in files || p in AddedPaths(added)
    ensures p in files && p !in AddedPaths(added) ==> AddFiles(files, added)[p] == files[p]
  {
    if added != [] {
      var n := |added| - 1;
      AddFilesAt(files, added[..n], p);
      assert AddedPaths(added) == AddedPaths(added[..n]) + [added[n].path];
    }
  }

  lemma {:induction false} AddFilesOwn(files: map<string, Option<Config>>, added: seq<Added>, a: Added)
    requires Distinct(AddedPaths(added)) && a in added
    ensures a.path in AddFiles(files, added) && AddFiles(files, added)[a.path] == Some(a.content)
  {
    var n := |added| - 1;
    assert AddedPaths(added) == AddedPaths(added[..n]) + [added[n].path];
    if a != added[n] {
      assert forall i :: 0 <= i < n ==> AddedPaths(added[..n])[i] == AddedPaths(added)[i] != AddedPaths(added)[n];
      var i :| 0 <= i < n && added[i] == a;
      assert added[..n][i] == a;
      AddFilesOwn(files, added[..n], a);
      assert AddedPaths(added)[i] == a.path;
    }
  }

  lemma OwnPathInDir(dir: string, name: string)
    ensures InDir(dir, OwnPath(dir, name)) && OwnPath(dir, name) != ""
  {
    var p := OwnPath(dir, name);
    assert p[..|dir| + 1] == dir + "/";
    assert p[|dir| + 1..] == SafeName(name) + ".json";
    assert p[|p| - 5..] == ".json";
  }

  lemma RemovedEntry(e: Env, h: Home, plan: Plan, x: Existing)
    requires IsPlan(e, h, plan) && x in plan.removed
    ensures Entry(e, h, x) && x in plan.existing
  {
    hide Key, Loads, InDir, ExistingIn, AdditionsFor, ScanServers, AddPorts, KeptPorts, KeptPaths, AddedPaths, Sort, CanonicalName, Absent, Paths;
    assert NewPlan(e, h) == Some(plan);
    ExistingListed(e, h);
    AbsentMember(plan.existing, Present(e, h), x);
  }

  // A file that is deleted is in the directory and was listed under a key that no client shows.
  lemma DeletedMember(e: Env, h: Home, plan: Plan, p: string)
    requires IsPlan(e, h, plan)
    ensures p in Deleted(plan.removed) <==> p in Paths(plan.removed) && InDir(e.dir, p)
    ensures p in Paths(plan.removed) ==> p in Paths(plan.existing) && LoadsAt(h, p)
  {
    hide Loads, InDir, NewPlan, Paths, CanonicalName;
    PathsMember(plan.removed, p);
    PathsMember(plan.existing, p);
    if p in Deleted(plan.removed) {
      var i :| 0 <= i < |plan.removed| && plan.removed[i].managed && plan.removed[i].path == p;
      RemovedEntry(e, h, plan, plan.removed[i]);
    }
    if p in Paths(plan.removed) {
      var x :| x in plan.removed && x.path == p;
      RemovedEntry(e, h, plan, x);
      var i :| 0 <= i < |plan.removed| && plan.removed[i] == x;
      assert plan.removed[i].managed == InDir(e.dir, p);
    }
  }

  lemma OldFileAfter(e: Env, h: Home, plan: Plan, h': Home, p: string)
    requires Applied(e, h, plan, h') && p !in AddedPaths(plan.added)
    ensures p in h'.files <==> p in h.files && p !in Deleted(plan.removed)
    ensures p in h'.files ==> h'.files[p] == h.files[p]
    ensures LoadsAt(h', p) <==> LoadsAt(h, p) && p !in Deleted(plan.removed)
  {
    hide Facts, HomeOk, NewPlan, ReadBack, FreshPaths, Apply, AddedPaths, Deleted, Loads, AddFiles;
    SameLength(e, h, plan, h');
    AddFilesAt(h.files, plan.added, p);
  }

  lemma NewFileAfter(e: Env, h: Home, plan: Plan, h': Home, a: Added)
    requires Applied(e, h, plan, h') && a in plan.added
    ensures a.path in h'.files && h'.files[a.path] == Some(a.content) && InDir(e.dir, a.path) && a.path != ""
    ensures LoadsAt(h', a.path) <==> Loads(a.content)
    ensures a.path !in Paths(plan.existing)
  {
    hide Facts, NewPlan, ReadBack, Apply, Deleted, Loads, AddFiles, InDir, OwnPath, BuiltFrom, Key, ScanServers;
    SameLength(e, h, plan, h');
    AddFilesOwn(h.files, plan.added, a);
    DeletedMember(e, h, plan, a.path);
    AddedFrom(e, h, plan, a);
    OwnPathInDir(e.dir, a.server.name);
    ListedInFiles(e, h, plan, a.path);
  }

  lemma ListedInFiles(e: Env, h: Home, plan: Plan, p: string)
    requires IsPlan(e, h, plan)
    ensures p in Paths(plan.existing) ==> LoadsAt(h, p) && p in h.files
  {
    hide Key, Loads, InDir, ExistingIn, AdditionsFor, ScanServers, AddPorts, KeptPorts, KeptPaths, AddedPaths, Sort, CanonicalName, Absent, Paths;
    assert NewPlan(e, h) == Some(plan);
    ExistingListed(e, h);
  }

  /** The wrapper directory can be read again exactly if every added configuration passes the loader's checks. */
  lemma ReadableAgain(e: Env, h: Home, plan: Plan, h': Home)
    requires Applied(e, h, plan, h')
    ensures Plannable(e, h') <==> AllAddedLoad(plan)
  {
    hide Facts, HomeOk, ReadBack, FreshPaths, Apply, Deleted, Loads, AddFiles, InDir, OwnPath, BuiltFrom, Key, PlanOf, AddedPaths;
    SameLength(e, h, plan, h');
    var paths := DirPaths(e, h');
    if Plannable(e, h') {
      forall a | a in plan.added ensures Loads(a.content) {
        NewFileAfter(e, h, plan, h', a);
        assert a.path in paths;
        var i :| 0 <= i < |paths| && paths[i] == a.path;
        assert LoadsAt(h', paths[i]);
      }
    }
    if AllAddedLoad(plan) {
      forall i | 0 <= i < |paths| ensures LoadsAt(h', paths[i]) {
        LoadedAgain(e, h, plan, h', paths[i]);
      }
    }
  }

  lemma LoadedAgain(e: Env, h: Home, plan: Plan, h': Home, p: string)
    requires Applied(e, h, plan, h') && AllAddedLoad(plan) && p in DirPaths(e, h')
    ensures LoadsAt(h', p)
  {
    hide Facts, HomeOk, ReadBack, FreshPaths, Apply, Deleted, Loads, AddFiles, InDir, OwnPath, BuiltFrom, Key, PlanOf, AddedPaths;
    assert NewPlan(e, h) == Some(plan);
    AddedPathsMember(plan.added, p);
    if a :| a in plan.added && a.path == p {
      NewFileAfter(e, h, plan, h', a);
    } else {
      OldFileAfter(e, h, plan, h', p);
      assert p in DirPaths(e, h);
      var i :| 0 <= i < |DirPaths(e, h)| && DirPaths(e, h)[i] == p;
      assert LoadsAt(h, DirPaths(e, h)[i]);
    }
  }

  lemma NextPathsMember(e: Env, h: Home, plan: Plan, p: string)
    requires IsPlan(e, h, plan)
    ensures p in plan.nextPaths <==> (p in Paths(plan.existing) && p !in Paths(plan.removed)) || p in AddedPaths(plan.added)
  {
    hide ExistingIn, AdditionsFor, ScanServers, AddPorts, KeptPorts, Paths, AddedPaths, Absent, KeptPaths, Sort;
    assert NewPlan(e, h) == Some(plan);
    var next := KeptPaths(plan.existing, Paths(plan.removed)) + AddedPaths(plan.added);
    SortSorts(next);
    SameMembers(Sort(next), next);
    KeptMember(plan.existing, Paths(plan.removed), p);
  }

  lemma ConcatDistinct(a: seq<string>, b: seq<string>)
    requires Distinct(a) && Distinct(b) && forall x :: x in a ==> x !in b
    ensures Distinct(a + b)
  {
    forall i, j | 0 <= i < j < |a + b| ensures (a + b)[i] != (a + b)[j] {
      if i < |a| <= j {
        assert a[i] in a && b[j - |a|] in b;
      }
    }
  }

  lemma NextPathsStrict(e: Env, h: Home, plan: Plan)
    requires IsPlan(e, h, plan) && FreshPaths(h, plan)
    ensures Strict(plan.nextPaths)
  {
    hide Loads, InDir, Key, ExistingIn, AdditionsFor, ScanServers, AddPorts, KeptPorts, Paths, AddedPaths, Absent, KeptPaths, Sort;
    assert NewPlan(e, h) == Some(plan);
    ExistingListed(e, h);
    var kept, added := KeptPaths(plan.existing, Paths(plan.removed)), AddedPaths(plan.added);
    KeptDistinct(plan.existing, Paths(plan.removed));
    forall p | p in kept ensures p !in added {
      KeptMember(plan.existing, Paths(plan.removed), p);
      ListedInFiles(e, h, plan, p);
      AddedPathsMember(plan.added, p);
    }
    ConcatDistinct(kept, added);
    SortStrict(kept + added);
  }

  // The wrappers that are found again are those that were kept or added.
  lemma ListedAgain(e: Env, h: Home, plan: Plan, h': Home, p: string)
    requires Applied(e, h, plan, h') && AllAddedLoad(plan) && Plannable(e, h')
    ensures p in Paths(ExistingIn(e, h')) <==> p in plan.nextPaths
  {
    hide Facts, HomeOk, NewPlan, ReadBack, FreshPaths, Apply, AddedPaths, Deleted, Loads, AddFiles, InDir, OwnPath, BuiltFrom, Key, PlanOf,
         Paths, ExistingIn, ScanServers, Plannable;
    ExistingListed(e, h');
    KeysAfter(e, h, plan, h', "");
    SameLength(e, h, plan, h');
    NextPathsMember(e, h, plan, p);
    AddedPathsMember(plan.added, p);
    if a :| a in plan.added && a.path == p {
      NewFileAfter(e, h, plan, h', a);
    } else {
      OldFileAfter(e, h, plan, h', p);
      DeletedMember(e, h, plan, p);
      OldListed(e, h, plan, p);
    }
    assert ListedPaths(h') == plan.nextPaths;
    assert Listable(e, h', plan.nextPaths, p) <==> p in plan.nextPaths;
  }

  lemma OldListed(e: Env, h: Home, plan: Plan, p: string)
    requires IsPlan(e, h, plan)
    ensures p in Paths(plan.existing) <==> Listable(e, h, ListedPaths(h), p)
  {
    hide Key, Loads, InDir, ExistingIn, AdditionsFor, ScanServers, AddPorts, KeptPorts, KeptPaths, AddedPaths, Sort, CanonicalName, Absent, Paths;
    assert NewPlan(e, h) == Some(plan);
    ExistingListed(e, h);
  }

  // ------------------------------------------------------------------------ planning again

  // What is found under a kept or added path has a key that keeps a wrapper.
  lemma KeyAgain(e: Env, h: Home, plan: Plan, h': Home, x: Existing)
    requires Applied(e, h, plan, h') && AllAddedLoad(plan) && Plannable(e, h') && x in ExistingIn(e, h')
    ensures Kept(e, h, plan, Key(x.name))
  {
    hide Facts, NewPlan, ReadBack, FreshPaths, Apply, AddedPaths, Deleted, Loads, AddFiles, InDir, OwnPath, BuiltFrom, Key, PlanOf,
         Paths, ExistingIn, ScanServers, Plannable, CanonicalName;
    ExistingListed(e, h');
    PathsMember(ExistingIn(e, h'), x.path);
    ListedAgain(e, h, plan, h', x.path);
    NextPathsMember(e, h, plan, x.path);
    AddedPathsMember(plan.added, x.path);
    if a :| a in plan.added && a.path == x.path {
      NewFileAfter(e, h, plan, h', a);
      AddedFrom(e, h, plan, a);
      CurrentNamed(e, h, Key(a.content.name));
    } else {
      OldFileAfter(e, h, plan, h', x.path);
      KeptEntry(e, h, plan, x.path);
      KeysMember(plan.existing, Key(x.name));
    }
  }

  lemma KeptEntry(e: Env, h: Home, plan: Plan, p: string)
    requires IsPlan(e, h, plan) && p in Paths(plan.existing) && p !in Paths(plan.removed)
    ensures LoadsAt(h, p) && Key(At(h, p, InDir(e.dir, p)).name) in Present(e, h)
    ensures At(h, p, InDir(e.dir, p)) in plan.existing
  {
    hide Key, Loads, InDir, ExistingIn, AdditionsFor, ScanServers, AddPorts, KeptPorts, KeptPaths, AddedPaths, Sort, CanonicalName, Absent, Paths;
    assert NewPlan(e, h) == Some(plan);
    ExistingListed(e, h);
    PathsMember(plan.existing, p);
    var x :| x in plan.existing && x.path == p;
    AbsentMember(plan.existing, Present(e, h), x);
    PathsMember(plan.removed, p);
  }

  // The wrappers that are found again have the keys of those that were kept or added.
  lemma KeysFound(e: Env, h: Home, plan: Plan, h': Home, k: string)
    requires Applied(e, h, plan, h') && AllAddedLoad(plan) && Plannable(e, h')
    ensures k in Keys(ExistingIn(e, h')) <==> Kept(e, h, plan, k)
  {
    hide Facts, NewPlan, ReadBack, FreshPaths, Apply, AddedPaths, Deleted, Loads, AddFiles, InDir, OwnPath, BuiltFrom, Key, PlanOf,
         Paths, ExistingIn, ScanServers, Plannable, CanonicalName, Keys, Kept;
    KeysMember(ExistingIn(e, h'), k);
    if x :| x in ExistingIn(e, h') && Key(x.name) == k {
      KeyAgain(e, h, plan, h', x);
    }
    if Kept(e, h, plan, k) {
      ExistingListed(e, h');
      var p := PathForKey(e, h, plan, h', k);
      ListedAgain(e, h, plan, h', p);
      PathsMember(ExistingIn(e, h'), p);
    }
  }

  lemma PathForKey(e: Env, h: Home, plan: Plan, h': Home, k: string) returns (p: string)
    requires Applied(e, h, plan, h') && AllAddedLoad(plan) && Kept(e, h, plan, k)
    ensures p in plan.nextPaths && LoadsAt(h', p) && Key(CanonicalName(h'.files[p].value.name)) == k
  {
    hide Facts, ReadBack, FreshPaths, Apply, AddedPaths, Deleted, Loads, AddFiles, InDir, OwnPath, BuiltFrom, Key, PlanOf,
         Paths, ExistingIn, ScanServers, Plannable, CanonicalName, Keys;
    if a :| a in plan.added && Key(a.content.name) == k {
      p := a.path;
      AddedPathsMember(plan.added, p);
      NextPathsMember(e, h, plan, p);
      NewFileAfter(e, h, plan, h', a);
      AddedFrom(e, h, plan, a);
      CurrentNamed(e, h, k);
    } else {
      var x := KeptByKey(e, h, plan, k);
      p := x.path;
      NextPathsMember(e, h, plan, p);
      OldFileByPath(e, h, plan, h', p);
    }
  }

  lemma KeptByKey(e: Env, h: Home, plan: Plan, k: string) returns (x: Existing)
    requires IsPlan(e, h, plan) && k in Keys(plan.existing) && k in Present(e, h)
    ensures Entry(e, h, x) && Key(x.name) == k && x.path in Paths(plan.existing) && x.path !in Paths(plan.removed)
  {
    hide Key, Loads, InDir, ExistingIn, AdditionsFor, ScanServers, AddPorts, KeptPorts, KeptPaths, AddedPaths, Sort, CanonicalName, Absent, Paths;
    assert NewPlan(e, h) == Some(plan);
    ExistingListed(e, h);
    KeysMember(plan.existing, k);
    x :| x in plan.existing && Key(x.name) == k;
    PathsMember(plan.existing, x.path);
    PathsMember(plan.removed, x.path);
    if y :| y in plan.removed && y.path == x.path {
      RemovedEntry(e, h, plan, y);
      AbsentMember(plan.existing, Present(e, h), y);
    }
  }

  lemma OldFileByPath(e: Env, h: Home, plan: Plan, h': Home, p: string)
    requires Applied(e, h, plan, h') && p in Paths(plan.existing) && p !in Paths(plan.removed)
    ensures LoadsAt(h, p) && LoadsAt(h', p) && h'.files[p] == h.files[p]
  {
    hide Facts, NewPlan, ReadBack, Apply, AddedPaths, Deleted, Loads, AddFiles, InDir, OwnPath, BuiltFrom, Key, PlanOf,
         Paths, ExistingIn, ScanServers, Plannable, CanonicalName, Keys;
    ListedInFiles(e, h, plan, p);
    AddedPathsMember(plan.added, p);
    DeletedMember(e, h, plan, p);
    OldFileAfter(e, h, plan, h', p);
  }

  lemma NoneAbsent(existing: seq<Existing>, present: set<string>)
    ensures Absent(existing, present) == [] <==> forall x :: x in existing ==> Key(x.name) in present
  {
    hide Key, Absent;
    forall x: Existing ensures x in Absent(existing, present) <==> x in existing && Key(x.name) !in present {
      AbsentMember(existing, present, x);
    }
    if Absent(existing, present) != [] {
      assert Absent(existing, present)[0] in Absent(existing, present);
    }
  }

  lemma {:induction false} NoneAdded(e: Env, current: map<string, RawServer>, taken: set<string>, used: set<nat>, keys: seq<string>)
    requires forall i :: 0 <= i < |keys| ==> keys[i] in current && keys[i] in taken
    ensures AddAll(e, current, taken, used, keys) == Additions([], used, [])
  {
    if keys != [] {
      NoneAdded(e, current, taken, used, keys[..|keys| - 1]);
    }
  }

  lemma {:induction false} NoneDropped(existing: seq<Existing>)
    ensures KeptPaths(existing, []) == Paths(existing)
  {
    if existing != [] {
      var n := |existing| - 1;
      NoneDropped(existing[..n]);
      assert Paths(existing) == Paths(existing[..n]) + [existing[n].path];
    }
  }

  // What a plan is when nothing is absent and nothing is left to wrap.
  lemma EmptyPlan(e: Env, h: Home)
    requires Plannable(e, h)
    requires forall x :: x in ExistingIn(e, h) ==> Key(x.name) in Present(e, h)
    requires forall k :: k in Current(e, h) ==> k in Keys(ExistingIn(e, h))
    ensures var p := PlanOf(e, h);
            && p.added == [] && p.removed == [] && p.nextPaths == Sort(Paths(ExistingIn(e, h)))
            && p.socket == StrictSocket(e, h) && p.existing == ExistingIn(e, h)
            && p.ports == KeptPorts(p.existing, []) && AdditionsFor(e, h).blockers == []
  {
    assert Paths([]) == [] && AddedPaths([]) == [];
    assert forall ports :: AddPorts(ports, []) == ports;
    hide Key, Keys, ScanServers, ExistingIn, Sort, Paths, KeptPorts, UsedPorts, RenderBlockers, AddPorts, AddedPaths, KeptPaths, Absent, AddAll;
    var current := Current(e, h);
    NoneAbsent(ExistingIn(e, h), Present(e, h));
    NoneAdded(e, current, Keys(ExistingIn(e, h)), UsedPorts(h, ListedPaths(h)), Ascending(current.Keys));
    NoneDropped(ExistingIn(e, h));
    assert Paths(ExistingIn(e, h)) + [] == Paths(ExistingIn(e, h));
  }

  lemma PlanParts(e: Env, h: Home)
    requires Plannable(e, h)
    ensures var p := PlanOf(e, h);
            && p.removed == Absent(ExistingIn(e, h), Present(e, h)) && p.added == AdditionsFor(e, h).added
            && p.existing == ExistingIn(e, h) && p.socket == StrictSocket(e, h)
  {
    hide Key, Keys, ScanServers, ExistingIn, Sort, Paths, KeptPorts, UsedPorts, RenderBlockers, AddPorts, AddedPaths, KeptPaths, Absent, AddAll,
         AdditionsFor, ReplaceAll;
  }

  // A plan adds nothing exactly if every key to be wrapped has a wrapper.
  lemma NothingToAdd(e: Env, h: Home)
    requires Plannable(e, h)
    ensures PlanOf(e, h).added == [] <==> forall k :: k in Current(e, h) ==> k in Keys(ExistingIn(e, h))
  {
    hide Key, Keys, ScanServers, ExistingIn, Sort, Paths, KeptPorts, UsedPorts, RenderBlockers, AddPorts, AddedPaths, KeptPaths, Absent, AddAll,
         Ascending;
    PlanParts(e, h);
    var current, taken, used := Current(e, h), Keys(ExistingIn(e, h)), UsedPorts(h, ListedPaths(h));
    AddAllMembers(e, current, taken, used, Ascending(current.Keys));
    if forall k :: k in current ==> k in taken {
      NoneAdded(e, current, taken, used, Ascending(current.Keys));
    } else {
      var k :| k in current && k !in taken;
      assert k in Ascending(current.Keys);
    }
  }

  lemma AgainRemoves(e: Env, h: Home, plan: Plan, h': Home)
    requires Applied(e, h, plan, h') && AllAddedLoad(plan) && Plannable(e, h')
    ensures PlanOf(e, h').removed == [] <==> StaysShown(e, h, plan)
  {
    hide Applied, Plannable, PlanOf, Kept, Shows, Key, ExistingIn, ScanServers, Absent, Keys, WrittenClients;
    assert |plan.updates| == |h.clients| by { UpdatesMatch(e, h, plan, h'); }
    var existing := ExistingIn(e, h');
    PlanParts(e, h');
    NoneAbsent(existing, Present(e, h'));
    forall k ensures k in Present(e, h') <==> Shows(e.w, plan.socket, Remaining(e, h, plan), k) {
      KeysAfter(e, h, plan, h', k);
    }
    forall k ensures Kept(e, h, plan, k) <==> exists x :: x in existing && Key(x.name) == k {
      KeysFound(e, h, plan, h', k);
      KeysMember(existing, k);
    }
  }

  lemma AgainAdds(e: Env, h: Home, plan: Plan, h': Home)
    requires Applied(e, h, plan, h') && AllAddedLoad(plan) && Plannable(e, h')
    ensures PlanOf(e, h').added == [] <==> StaysWrapped(e, h, plan)
  {
    hide Applied, Plannable, PlanOf, Kept, WrapsKey, Key, ExistingIn, ScanServers, Absent, Keys, WrittenClients;
    assert |plan.updates| == |h.clients| by { UpdatesMatch(e, h, plan, h'); }
    NothingToAdd(e, h');
    forall k ensures k in Current(e, h') <==> WrapsKey(e.w, plan.socket, Remaining(e, h, plan), k) {
      KeysAfter(e, h, plan, h', k);
    }
    forall k ensures Kept(e, h, plan, k) <==> k in Keys(ExistingIn(e, h')) {
      KeysFound(e, h, plan, h', k);
    }
  }

  lemma UpdatesMatch(e: Env, h: Home, plan: Plan, h': Home)
    requires Applied(e, h, plan, h')
    ensures |plan.updates| == |h.clients|
  {
  }

  lemma NothingLeft(e: Env, h: Home, plan: Plan, h': Home)
    requires Applied(e, h, plan, h') && AllAddedLoad(plan) && StaysShown(e, h, plan) && StaysWrapped(e, h, plan)
    ensures Plannable(e, h') && AdditionsFor(e, h').blockers == []
    ensures var again := PlanOf(e, h');
            && again.added == [] && again.removed == [] && again.nextPaths == plan.nextPaths && again.socket == plan.socket
            && again.ports == KeptPorts(ExistingIn(e, h'), [])
  {
    hide Applied, StaysShown, StaysWrapped, Plannable, PlanOf, Kept, Key, ExistingIn, ScanServers, Absent, Keys, WrittenClients, AddAll, AdditionsFor,
         Sort, KeptPorts, Paths;
    ReadableAgain(e, h, plan, h');
    AgainRemoves(e, h, plan, h');
    AgainAdds(e, h, plan, h');
    PlanParts(e, h');
    NoneAbsent(ExistingIn(e, h'), Present(e, h'));
    NothingToAdd(e, h');
    EmptyPlan(e, h');
    KeysAfter(e, h, plan, h', "");
    SamePaths(e, h, plan, h');
  }

  /**
    Applying a plan without blockers and planning again succeeds exactly if every added wrapper
    configuration passes the loader's checks.  Then nothing is removed exactly if each key that keeps
    a wrapper is shown by a server that remains, nothing is added exactly if each remaining server
    to be wrapped has a wrapper, and if both hold the daemon configuration stays as it was written.
  */
  lemma UpdateConverges(e: Env, h: Home, plan: Plan, h': Home)
    requires Applied(e, h, plan, h')
    ensures NewPlan(e, h').Some? <==> AllAddedLoad(plan)
    ensures NewPlan(e, h').Some? ==>
              var again := NewPlan(e, h').value;
              && (again.removed == [] <==> StaysShown(e, h, plan))
              && (again.added == [] <==> StaysWrapped(e, h, plan))
              && (StaysShown(e, h, plan) && StaysWrapped(e, h, plan) ==>
                    again.nextPaths == plan.nextPaths && again.socket == plan.socket)
  {
    hide Applied, PlanOf, Plannable, AllAddedLoad, StaysShown, StaysWrapped;
    assert |plan.updates| == |h.clients| by { UpdatesMatch(e, h, plan, h'); }
    ReadableAgain(e, h, plan, h');
    if AllAddedLoad(plan) {
      AgainRemoves(e, h, plan, h');
      AgainAdds(e, h, plan, h');
      if StaysShown(e, h, plan) && StaysWrapped(e, h, plan) {
        NothingLeft(e, h, plan, h');
      }
    }
  }

  lemma SamePaths(e: Env, h: Home, plan: Plan, h': Home)
    requires Applied(e, h, plan, h') && AllAddedLoad(plan) && Plannable(e, h')
    ensures Sort(Paths(ExistingIn(e, h'))) == plan.nextPaths
  {
    hide Facts, HomeOk, ReadBack, Apply, Deleted, Loads, AddFiles, InDir, OwnPath, BuiltFrom, Key, PlanOf,
         Paths, ExistingIn, ScanServers, Plannable, Keys, Sort, Listable, Entry;
    ExistingListed(e, h');
    var paths := Paths(ExistingIn(e, h'));
    SortStrict(paths);
    NextPathsStrict(e, h, plan);
    forall p ensures p in paths <==> p in plan.nextPaths {
      ListedAgain(e, h, plan, h', p);
    }
    StrictUnique(Sort(paths), plan.nextPaths);
  }

  // -------------------------------------------------------- when the hypotheses are met

  // The servers whose wrapper configuration the loader accepts.
  predicate Supported(w: World, s: RawServer) {
    s.url == "" ||
    (&& EffectiveKind(s) in ["http", "streamable-http"]
     && (s.auth == "" || EqualFold(s.auth, "none") || EqualFold(s.auth, "oauth"))
     && (EqualFold(s.auth, "oauth") && TrimSpace(s.url) == "" ==> Stateful(s)))
  }

  lemma BlankIsBlank()
    ensures TrimSpace("") == "" && Lower("") == "" && Lower("jsonl") == "jsonl" && TrimSpace("jsonl") == "jsonl"
    ensures Lower("oauth") == "oauth" && Lower("none") == "none" && Lower("chatgpt") == "chatgpt"
  {
    TrimFixed("jsonl", IsSpace);
  }

  /** A server with a URL is wrapped whatever its kind and its authentication are called; the wrapper only loads for some. */
  lemma LoadsIffSupported(w: World, s: RawServer, port: int)
    requires Facts(w) && CanWrap(w, s) && s.name != ""
    ensures Loads(BuildConfig(w, s, port)) <==> Supported(w, s)
  {
    BlankIsBlank();
    hide Stateful, Facts, Local, ExplicitAuth, NodeRepl, HostIs, InlineCommand, Lower, TrimSpace, IsHTTPRef;
    if s.url == "" {
      assert Wrappable(w, s) && EffectiveKind(s) == "stdio";
      SplitHasCommand(w, s);
    } else {
      assert SplitCommand(w, s) == s;
      assert Stateful(s) || OAuthManaged(w, s) <==> BuildConfig(w, s, port).sharing == "session";
    }
  }

  lemma SplitHasCommand(w: World, s: RawServer)
    requires Facts(w) && s.command != ""
    ensures SplitCommand(w, s).command != "" && SplitCommand(w, s).(command := s.command, args := s.args) == s
  {
  }

  /** A server of kind stdio with both a command and a URL is wrapped, and its wrapper does not load. */
  lemma CommandWithUrl(w: World, s: RawServer)
    requires s.kind == "stdio" && s.command != "" && s.url != "" && s.args == []
    requires !NodeRepl(w, s) && !OAuthManaged(w, s) && w.base(s.command) != WRAPPER && !IsHTTPRef(w, s)
    ensures ToWrap(w, "socket", s) && !Supported(w, s)
  {
    hide NodeRepl, OAuthManaged, IsHTTPRef;
  }

  lemma {:induction false} AddedKeysDistinct(e: Env, current: map<string, RawServer>, taken: set<string>, used: set<nat>, keys: seq<string>, i: nat, j: nat)
    requires forall i :: 0 <= i < |keys| ==> keys[i] in current
    requires forall k :: k in current ==> Key(current[k].name) == k
    requires Strict(keys) && i < j < |AddAll(e, current, taken, used, keys).added|
    ensures var added := AddAll(e, current, taken, used, keys).added;
            Key(added[i].server.name) != Key(added[j].server.name)
  {
    hide Key, BuildConfig, OwnPath, FreePort, BuiltFrom;
    var n := |keys| - 1;
    var init, k := keys[..n], keys[n];
    var before, after := AddAll(e, current, taken, used, init), AddAll(e, current, taken, used, keys);
    if j < |before.added| {
      AddedKeysDistinct(e, current, taken, used, init, i, j);
    } else {
      AddAllMembers(e, current, taken, used, init);
      assert before.added[i] in before.added;
      var k' :| k' in init && k' in current && before.added[i].server == current[k'];
      LessTotal(k', k);
      assert after.added[i] == before.added[i] && after.added[j].server == current[k];
    }
  }

  ghost predicate OwnPaths(e: Env, plan: Plan) {
    forall x :: x in plan.existing && x.managed ==> x.path == OwnPath(e.dir, x.name)
  }

  ghost predicate InUse(plan: Plan, name: string) {
    (exists x :: x in plan.existing && x.name == name) || (exists a :: a in plan.added && a.server.name == name)
  }

  ghost predicate SafeNamesDiffer(plan: Plan) {
    forall m, n :: InUse(plan, m) && InUse(plan, n) && SafeName(m) == SafeName(n) ==> m == n
  }

  lemma OwnPathName(dir: string, m: string, n: string)
    requires OwnPath(dir, m) == OwnPath(dir, n)
    ensures SafeName(m) == SafeName(n)
  {
    assert OwnPath(dir, m)[|dir| + 1..|OwnPath(dir, m)| - 5] == SafeName(m);
    assert OwnPath(dir, n)[|dir| + 1..|OwnPath(dir, n)| - 5] == SafeName(n);
  }

  /**
    Added files are new and different when every managed file is stored under its own name and
    the names in use stay different as file names.
  */
  lemma FreshFromNames(e: Env, h: Home, plan: Plan)
    requires HomeOk(h) && IsPlan(e, h, plan) && OwnPaths(e, plan) && SafeNamesDiffer(plan)
    ensures FreshPaths(h, plan)
  {
    hide HomeOk, NewPlan, OwnPaths, SafeNamesDiffer;
    forall i, j | 0 <= i < j < |plan.added| ensures AddedPaths(plan.added)[i] != AddedPaths(plan.added)[j] {
      AddedApart(e, h, plan, i, j);
    }
    forall a | a in plan.added ensures a.path !in h.files {
      AddedIsNew(e, h, plan, a);
    }
  }

  lemma AddedApart(e: Env, h: Home, plan: Plan, i: nat, j: nat)
    requires HomeOk(h) && IsPlan(e, h, plan) && SafeNamesDiffer(plan) && i < j < |plan.added|
    ensures plan.added[i].path != plan.added[j].path
  {
    hide ScanServers, ExistingIn, Key, OwnPath, SafeName, BuiltFrom, Loads, InDir, KeptPaths, KeptPorts, AddPorts, Sort, Absent, UsedPorts,
         CanonicalName, HomeOk, Entry, Keys, Paths, AddAll, AddedPaths;
    assert NewPlan(e, h) == Some(plan);
    var current := Current(e, h);
    HomeNames(h);
    forall k | k in current ensures Key(current[k].name) == k {
      CurrentNamed(e, h, k);
    }
    var a, b := plan.added[i], plan.added[j];
    AddedKeysDistinct(e, current, Keys(ExistingIn(e, h)), UsedPorts(h, ListedPaths(h)), Ascending(current.Keys), i, j);
    AddedFrom(e, h, plan, a);
    AddedFrom(e, h, plan, b);
    assert InUse(plan, a.server.name) && InUse(plan, b.server.name);
    if a.path == b.path {
      OwnPathName(e.dir, a.server.name, b.server.name);
    }
  }

  lemma HomeNames(h: Home)
    requires HomeOk(h)
    ensures NamesOk(AllServers(h.clients))
  {
  }

  lemma AddedIsNew(e: Env, h: Home, plan: Plan, a: Added)
    requires HomeOk(h) && IsPlan(e, h, plan) && OwnPaths(e, plan) && SafeNamesDiffer(plan) && a in plan.added
    ensures a.path !in h.files
  {
    hide ScanServers, ExistingIn, AdditionsFor, Key, OwnPath, SafeName, BuiltFrom, Loads, InDir, KeptPaths, KeptPorts, AddPorts, Sort,
         Absent, CanonicalName, HomeOk, Keys, Paths;
    AddedFrom(e, h, plan, a);
    OwnPathInDir(e.dir, a.server.name);
    if a.path in h.files {
      var x := FileIsListed(e, h, plan, a.path);
      assert InUse(plan, x.name) && InUse(plan, a.server.name);
      KeysMember(plan.existing, Key(x.name));
      OwnPathName(e.dir, x.name, a.server.name);
    }
  }

  lemma FileIsListed(e: Env, h: Home, plan: Plan, p: string) returns (x: Existing)
    requires IsPlan(e, h, plan) && p in h.files && InDir(e.dir, p)
    ensures x in plan.existing && x.managed && x.path == p
  {
    hide ScanServers, ExistingIn, AdditionsFor, Key, Loads, InDir, KeptPaths, KeptPorts, AddPorts, Sort, Absent, CanonicalName, Keys, Paths;
    assert NewPlan(e, h) == Some(plan);
    ExistingListed(e, h);
    var paths := DirPaths(e, h);
    assert p in paths;
    var i :| 0 <= i < |paths| && paths[i] == p;
    assert LoadsAt(h, paths[i]);
    assert Listable(e, h, ListedPaths(h), p);
    PathsMember(plan.existing, p);
    x :| x in plan.existing && x.path == p;
    assert Entry(e, h, x);
  }
}
