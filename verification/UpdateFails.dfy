/**
  Two homes for which `setup update` does not converge: the second run removes a wrapper that the
  first one added or kept.
*/
module UpdateFails {
  import opened Options
  import opened Sequences
  import opened Text
  import opened Servers
  import opened Sorting
  import opened Update
  import opened UpdateConverges
  import opened UpdateExact
  import opened UpdateStable

  function Command(name: string, command: string, args: seq<string>): RawServer {
    RawServer(name, "", "", "", "", [], command, args, map[], "", map[])
  }

  function Remote(name: string, kind: string, url: string): RawServer {
    RawServer(name, kind, "", "", "", [], "", [], map[], url, map[])
  }

  // What is asked of the world: some paths and addresses and how they are taken apart.
  ghost predicate Ordinary(e: Env) {
    && Facts(e.w) && e.binary != "" && e.defaultSocket != "" && e.defaultSocket != "/x"
    && e.w.base("npx") == "npx" && e.w.base("/opt/lmw") == "lmw"
    && e.w.parseUrl("") == Some(("", "")) && e.w.parseUrl("https://h/sse") == Some(("https", "h"))
  }

  lemma Words()
    ensures TrimSpace("") == "" && TrimSpace("foo") == "foo" && TrimSpace(" foo") == "foo" && TrimSpace("bar") == "bar"
    ensures TrimSpace("https://h/sse") == "https://h/sse"
    ensures CanonicalName("foo") == "foo" && CanonicalName(" foo") == "foo" && CanonicalName("bar") == "bar"
    ensures Key("foo") == "foo" && Key(" foo") == "foo" && Key("bar") == "bar"
  {
    TrimFixed("foo", IsSpace);
    TrimFixed("bar", IsSpace);
    TrimFixed("https://h/sse", IsSpace);
    TrimPadded(" ", "foo", "", IsSpace);
    assert " " + "foo" + "" == " foo";
    assert Lower("playwright") == "playwright";
    assert |Lower("foo")| == 3 && |Lower("bar")| == 3;
    assert Lower("foo") == "foo" && Lower("bar") == "bar";
  }

  // ------------------------------------------------------------- a home with one server to wrap

  ghost predicate OneToWrap(e: Env, h: Home, s: RawServer) {
    && Ordinary(e) && |h.clients| == 1 && h.clients[0].readable && h.clients[0].format == Json
    && Plannable(e, h) && HomeOk(h) && s.url == "" && s in h.clients[0].servers
    && CanWrap(e.w, s.(name := CanonicalName(s.name)))
    && (forall t :: t in h.clients[0].servers ==> (ToWrap(e.w, LooseSocket(e, h), t) <==> t == s))
    && Key(s.name) !in Keys(ExistingIn(e, h)) && OwnPath(e.dir, CanonicalName(s.name)) !in h.files
  }

  lemma OnlyCurrent(e: Env, h: Home, s: RawServer, k: string)
    requires OneToWrap(e, h, s)
    ensures k in Current(e, h) <==> k == Key(s.name)
    ensures k in Current(e, h) ==> Current(e, h)[k] == s.(name := CanonicalName(s.name))
  {
    hide ToWrap, Key, CanonicalName, ScanServers, Plannable, OwnPath, ExistingIn, Ordinary, LooseSocket;
    var servers, socket := AllServers(h.clients), LooseSocket(e, h);
    forall t ensures t in servers <==> t in h.clients[0].servers {
      AllServersIn(h.clients, t);
    }
    ScanFinds(e.w, socket, servers, k);
    if k in Current(e, h) {
      ScanKeepsFirst(e.w, socket, servers, k);
    }
  }

  lemma {:induction false} NoPortsAsked(e: Env, current: map<string, RawServer>, taken: set<string>, used: set<nat>, keys: seq<string>)
    requires forall i :: 0 <= i < |keys| ==> keys[i] in current && current[keys[i]].url == ""
    ensures AddAll(e, current, taken, used, keys).blockers == []
  {
    if keys != [] {
      hide BuildConfig, OwnPath, FreePort;
      NoPortsAsked(e, current, taken, used, keys[..|keys| - 1]);
    }
  }

  lemma AddedOnly(e: Env, h: Home, s: RawServer, plan: Plan, a: Added)
    requires OneToWrap(e, h, s) && IsPlan(e, h, plan) && a in plan.added
    ensures Key(a.content.name) == Key(s.name) && a.path == OwnPath(e.dir, CanonicalName(s.name)) && a.path !in h.files
    ensures Loads(a.content) && a.content.localPort == 0
  {
    hide ToWrap, Key, CanonicalName, ScanServers, Plannable, OwnPath, ExistingIn, NewPlan, BuildConfig, Loads, LooseSocket;
    AddedFrom(e, h, plan, a);
    var k := Key(a.content.name);
    OnlyCurrent(e, h, s, k);
    CurrentNamed(e, h, k);
    var port: nat :| a.content == BuildConfig(e.w, a.server, port) && (a.server.url == "" ==> port == 0);
    LoadsIffSupported(e.w, a.server, port);
    PortGiven(e.w, a.server, port);
  }

  lemma PortGiven(w: World, s: RawServer, port: int)
    ensures BuildConfig(w, s, port).localPort == port
  {
  }

  // The plan of such a home is not blocked, and adds just the one wrapper.
  lemma OnePlan(e: Env, h: Home, s: RawServer) returns (plan: Plan, h': Home)
    requires OneToWrap(e, h, s)
    ensures Applied(e, h, plan, h') && AllAddedLoad(plan) && Kept(e, h, plan, Key(s.name)) && |plan.updates| == 1
    ensures forall a :: a in plan.added ==> Key(a.content.name) == Key(s.name) && a.content.localPort == 0
    ensures plan.existing == ExistingIn(e, h)
  {
    hide OneToWrap, ToWrap, Key, CanonicalName, ScanServers, Plannable, OwnPath, ExistingIn, Loads, LooseSocket, AddAll, AdditionsFor, Absent,
         KeptPaths, AddPorts, KeptPorts, ReplaceAll, FreePort, Paths, AddedPaths, Sort;
    OneToWrapParts(e, h, s);
    plan := PlanOf(e, h);
    assert IsPlan(e, h, plan);
    forall a | a in plan.added
      ensures Key(a.content.name) == Key(s.name) && a.content.localPort == 0 && Loads(a.content) && a.path !in h.files
    {
      AddedOnly(e, h, s, plan, a);
    }
    OnlyCurrent(e, h, s, Key(s.name));
    AddedFor(e, h, plan, Key(s.name));
    OneAdded(e, h, s, plan);
    NotBlocked(e, h, s, plan);
    PlanUpdates(e, h, plan);
    h' := Apply(e, h, plan);
  }

  lemma OneToWrapParts(e: Env, h: Home, s: RawServer)
    requires OneToWrap(e, h, s)
    ensures Ordinary(e) && Plannable(e, h) && HomeOk(h) && Key(s.name) !in Keys(ExistingIn(e, h)) && |h.clients| == 1
    ensures h.clients[0].format == Json && Facts(e.w) && e.binary != "" && e.defaultSocket != ""
  {
    hide Facts, Plannable, ExistingIn, ToWrap, CanWrap, Key;
  }

  lemma OneAdded(e: Env, h: Home, s: RawServer, plan: Plan)
    requires OneToWrap(e, h, s) && IsPlan(e, h, plan)
    ensures Distinct(AddedPaths(plan.added))
  {
    hide OneToWrap, ToWrap, Key, CanonicalName, ScanServers, Plannable, OwnPath, ExistingIn, Loads, LooseSocket, AddAll, Absent,
         KeptPaths, AddPorts, KeptPorts, ReplaceAll, FreePort, Paths, Sort, Keys, UsedPorts, Ordinary;
    OneToWrapParts(e, h, s);
    assert NewPlan(e, h) == Some(plan);
    var current := Current(e, h);
    forall k | k in current ensures Key(current[k].name) == k {
      CurrentNamed(e, h, k);
    }
    if |plan.added| > 1 {
      AddedKeysDistinct(e, current, Keys(ExistingIn(e, h)), UsedPorts(h, ListedPaths(h)), Ascending(current.Keys), 0, 1);
      SameServerKey(e, h, s, plan, plan.added[0]);
      SameServerKey(e, h, s, plan, plan.added[1]);
      assert false;
    }
  }

  lemma SameServerKey(e: Env, h: Home, s: RawServer, plan: Plan, a: Added)
    requires OneToWrap(e, h, s) && IsPlan(e, h, plan) && a in plan.added
    ensures Key(a.server.name) == Key(s.name)
  {
    hide OneToWrap, Key, NewPlan, BuiltFrom, OwnPath, IsPlan, ScanServers;
    OneToWrapParts(e, h, s);
    AddedOnly(e, h, s, plan, a);
    AddedFrom(e, h, plan, a);
  }

  lemma PlanBlockers(e: Env, h: Home, plan: Plan)
    requires Plannable(e, h) && IsPlan(e, h, plan) && e.binary != "" && plan.nextPaths != []
    requires AdditionsFor(e, h).blockers == [] && RenderBlockers(e.w, plan.ports, h.clients) == []
    ensures plan.blockers == []
  {
    hide ScanServers, Plannable, ExistingIn, Absent, KeptPaths, AddPorts, KeptPorts, ReplaceAll, Paths, Sort, AdditionsFor, RenderBlockers, AddedPaths;
    assert NewPlan(e, h) == Some(plan);
  }

  lemma NotBlocked(e: Env, h: Home, s: RawServer, plan: Plan)
    requires OneToWrap(e, h, s) && IsPlan(e, h, plan) && plan.added != []
    ensures plan.blockers == []
  {
    hide OneToWrap, Key, CanonicalName, ScanServers, Plannable, ExistingIn, LooseSocket, AddAll, IsPlan, NewPlan, Keys, UsedPorts, Ordinary,
         RenderBlockers, AddedPaths, Paths, AnyRewritten;
    OneToWrapParts(e, h, s);
    var current := Current(e, h);
    forall k | k in current ensures current[k].url == "" {
      OnlyCurrent(e, h, s, k);
      NoUrl(e, h, s);
    }
    NoPortsAsked(e, current, Keys(ExistingIn(e, h)), UsedPorts(h, ListedPaths(h)), Ascending(current.Keys));
    AddedPathsMember(plan.added, plan.added[0].path);
    NextPathsMember(e, h, plan, plan.added[0].path);
    NoRenderBlockers(e.w, plan.ports, h.clients);
    PlanBlockers(e, h, plan);
  }

  lemma NoUrl(e: Env, h: Home, s: RawServer)
    requires OneToWrap(e, h, s)
    ensures s.url == ""
  {
  }

  // The name has no local port when no wrapper of its key has one.
  lemma NoPort(e: Env, h: Home, plan: Plan, k: string)
    requires HomeOk(h) && IsPlan(e, h, plan) && plan.existing == []
    requires forall a :: a in plan.added && Key(a.content.name) == k ==> a.content.localPort == 0
    ensures k !in plan.ports
  {
    hide ScanServers, ExistingIn, AdditionsFor, Key, KeptPaths, Sort, Absent, UsedPorts, HomeOk, Paths, AddedPaths, RenderBlockers, AddPorts;
    assert NewPlan(e, h) == Some(plan);
    var kept := KeptPorts(plan.existing, plan.removed);
    assert kept == map[];
    AddPortsPositive(kept, plan.added);
    if k in plan.ports {
      AddPortsMember(kept, plan.added, k);
      var a :| a in plan.added && Key(a.content.name) == k;
      PlannedAddedPort(e, h, plan, a);
    }
  }

  // ------------------------------------------------------------ a wrapper that is overwritten

  // Two names that differ by a blank: the first server is wrapped, the second one can not be.
  function BlankNamed(): Home {
    Home([ClientFile(true, Json, [Command(" foo", "npx", []), Remote("foo", "sse", "https://h/sse")])], map[], None)
  }

  lemma BlankNamedServers(e: Env)
    requires Ordinary(e)
    ensures var s, t := BlankNamed().clients[0].servers[0], BlankNamed().clients[0].servers[1];
            && Wrappable(e.w, s.(name := "foo")) && !Wrappable(e.w, t) && s != t
            && forall socket :: ToWrap(e.w, socket, s) && !Shown(e.w, socket, t)
  {
    hide Ordinary, Wrappable, IsRef, CanWrap;
    var s, t := BlankNamed().clients[0].servers[0], BlankNamed().clients[0].servers[1];
    assert |Lower(" foo")| == 4 && |Lower("foo")| == 3;
    forall socket ensures ToWrap(e.w, socket, s) {
      CommandToWrap(e, s, socket);
    }
    CommandToWrap(e, s.(name := "foo"), "");
    RemoteNotShown(e, t);
  }

  lemma BlankNamedHome(e: Env)
    requires Ordinary(e)
    ensures OneToWrap(e, BlankNamed(), BlankNamed().clients[0].servers[0]) && ExistingIn(e, BlankNamed()) == []
    ensures forall socket :: !Shown(e.w, socket, BlankNamed().clients[0].servers[1])
    ensures !Wrappable(e.w, BlankNamed().clients[0].servers[1])
  {
    hide Shown, ToWrap, Wrappable, CanonicalName, Key, TrimSpace, ExistingIn, Ordinary, Plannable, OwnPath, LooseSocket;
    var h := BlankNamed();
    Words();
    NothingListed(e, h);
    BlankNamedServers(e);
    AllServersOf(h);
    ShownIs(e);
    assert Keys([]) == {};
  }

  lemma ShownIs(e: Env)
    ensures forall socket, s :: ToWrap(e.w, socket, s) ==> Shown(e.w, socket, s)
  {
    hide IsRef, CanWrap;
  }

  lemma AllServersOf(h: Home)
    requires |h.clients| == 1
    ensures forall s :: s in AllServers(h.clients) <==> s in h.clients[0].servers
  {
    forall s ensures s in AllServers(h.clients) <==> s in h.clients[0].servers {
      AllServersIn(h.clients, s);
    }
  }

  lemma NothingListed(e: Env, h: Home)
    requires h.files == map[] && h.daemon == None && Readable(h.clients)
    ensures Plannable(e, h) && ExistingIn(e, h) == []
  {
    var paths := DirPaths(e, h);
    HasMember(paths);
    assert paths == [];
  }

  lemma CommandToWrap(e: Env, s: RawServer, socket: string)
    requires Ordinary(e) && s == Command(s.name, "npx", []) && Lower(s.name) != "node_repl"
    ensures ToWrap(e.w, socket, s) && Wrappable(e.w, s)
  {
    Words();
    assert |Lower("npx")| == 3;
    assert !Contains(Lower("npx"), "node_repl");
    assert Lower("node_repl") == "node_repl";
  }

  lemma RemoteNotShown(e: Env, s: RawServer)
    requires Ordinary(e) && s == Remote("foo", "sse", "https://h/sse")
    ensures !Wrappable(e.w, s) && forall socket :: !Shown(e.w, socket, s)
  {
    Words();
    BlankIsBlank();
    assert |Lower("h")| == 1 && |Lower("mcp.figma.com")| == 13 && |Lower("")| == 0;
    assert !OAuthManaged(e.w, s);
    assert "https://h/sse"[0..5] == "https" && LOCAL_PREFIX[0..5] == "http:";
    assert !IsHTTPRef(e.w, s);
    hide Contains, TrimSpace;
  }

  /**
    The wrapper that the first run adds for " foo" is removed by the second one: the entry that
    points to it is written under the name foo, and the server foo is written over it.
  */
  lemma OverwrittenWrapperLost(e: Env) returns (plan: Plan, h': Home)
    requires Ordinary(e)
    ensures Applied(e, BlankNamed(), plan, h') && AllAddedLoad(plan)
    ensures NewPlan(e, h').Some? && NewPlan(e, h').value.removed != []
  {
    hide OneToWrap, Ordinary, Applied, AllAddedLoad, Kept, Survives, NewPlan, IsPlan, Shown, Wrappable, ExistingIn;
    var h := BlankNamed();
    var s, t := h.clients[0].servers[0], h.clients[0].servers[1];
    BlankNamedHome(e);
    plan, h' := OnePlan(e, h, s);
    BlankNamedAfter(e, plan, h');
    assert TomlDistinct(h, plan);
    ConvergesIffSurvives(e, h, plan, h');
    assert !Survives(e, h, plan, "foo") by { FooIsGone(e, plan, h'); }
    Words();
  }

  // What the two servers are rewritten to.
  lemma BlankNamedAfter(e: Env, plan: Plan, h': Home)
    requires Ordinary(e) && Applied(e, BlankNamed(), plan, h') && plan.existing == []
    requires forall a :: a in plan.added ==> a.content.localPort == 0
    ensures |plan.updates| == 1 && |plan.updates[0]| == 2
    ensures plan.updates[0][0].name == "foo" && plan.updates[0][1] == BlankNamed().clients[0].servers[1]
  {
    hide Ordinary, IsPlan, NewPlan, FreshPaths, Facts, Shown, CanonicalName, Key, Apply;
    var h := BlankNamed();
    Words();
    BlankNamedHome(e);
    PlanUpdates(e, h, plan);
    CommandToWrap(e, h.clients[0].servers[0], "");
    NoPort(e, h, plan, "foo");
    hide Wrappable;
  }

  lemma FooIsGone(e: Env, plan: Plan, h': Home)
    requires Ordinary(e) && |plan.updates| == 1 && |plan.updates[0]| == 2
    requires plan.updates[0][0].name == "foo" && plan.updates[0][1] == BlankNamed().clients[0].servers[1]
    ensures !Survives(e, BlankNamed(), plan, "foo")
  {
    hide Ordinary, Shown;
    var h := BlankNamed();
    BlankNamedHome(e);
    assert !Last(plan.updates[0], 0);
    forall i: nat, j: nat, t | Stands(h, plan, i, j, t) ensures !Shown(e.w, plan.socket, t) {
      assert i == 0 && j == 1;
    }
  }

  // ----------------------------------------------------------------- a wrapper lost to a socket

  function FooRef(): RawServer { Command("foo", "/opt/lmw", ["client", "--socket", "/x", "--name", "foo"]) }

  function FooConfig(): Config {
    Config(1, "foo", "shared", "npx", [], map[], "", "", "", "", "", "", "", [], map[], 0, "jsonl")
  }

  // The daemon configuration names a socket and lists nothing; foo has a wrapper and bar is to be wrapped.
  function OtherSocket(dir: string): Home {
    Home([ClientFile(true, Json, [Command("bar", "npx", []), FooRef()])],
         map[OwnPath(dir, "foo") := Some(FooConfig())], Some(DaemonFile("/x", [])))
  }

  lemma FooLoads()
    ensures Loads(FooConfig())
  {
    BlankIsBlank();
  }

  lemma FooOnly(e: Env, socket: string)
    requires Ordinary(e)
    ensures IsCommandRef(e.w, FooRef(), "/x") && !CanWrap(e.w, FooRef()) && !IsHTTPRef(e.w, FooRef())
    ensures socket != "/x" && socket != "" ==> OnlyUnder(e.w, FooRef(), "/x", socket)
  {
    hide NodeRepl, Facts;
    BlankIsBlank();
    FooArgs(socket);
    FooNotWrappable(e);
  }

  lemma FooArgs(socket: string)
    ensures var args := FooRef().args;
            && "client" in args && "--name" in args && args[0] == "client" && SocketArg(args, "/x")
            && (socket != "/x" && socket != "" ==> !SocketArg(args, socket))
  {
    var args := FooRef().args;
    assert args[0] == "client" && args[1] == "--socket" && args[2] == "/x" && args[3] == "--name";
  }

  lemma OtherSocketListed(e: Env)
    requires Ordinary(e)
    ensures var h := OtherSocket(e.dir);
            && Plannable(e, h) && Keys(ExistingIn(e, h)) == {"foo"}
            && OwnPath(e.dir, "bar") !in h.files && LooseSocket(e, h) == "/x" && StrictSocket(e, h) == e.defaultSocket
  {
    hide Loads, InDir, ExistingIn, OwnPath, CanonicalName, Key, Ordinary;
    var h, p := OtherSocket(e.dir), OwnPath(e.dir, "foo");
    FooLoads();
    Words();
    OwnPathInDir(e.dir, "foo");
    assert SafeName("bar")[0] == 'b' && SafeName("foo")[0] == 'f';
    if OwnPath(e.dir, "bar") == p {
      OwnPathName(e.dir, "bar", "foo");
      assert false;
    }
    forall i | 0 <= i < |DirPaths(e, h)| ensures LoadsAt(h, DirPaths(e, h)[i]) {
      assert DirPaths(e, h)[i] in DirPaths(e, h);
    }
    OneListed(e, h, p);
  }

  // One file in the directory, and nothing listed by the daemon.
  lemma OneListed(e: Env, h: Home, p: string)
    requires Plannable(e, h) && ListedPaths(h) == [] && h.files.Keys == {p} && LoadsAt(h, p) && InDir(e.dir, p)
    ensures Keys(ExistingIn(e, h)) == {Key(CanonicalName(h.files[p].value.name))}
  {
    hide Loads, InDir, ExistingIn, CanonicalName, Key, Plannable, Paths;
    var existing := ExistingIn(e, h);
    ExistingListed(e, h);
    assert Listable(e, h, [], p);
    PathsMember(existing, p);
    forall x | x in existing ensures x == At(h, p, true) {
      PathsMember(existing, x.path);
      assert Listable(e, h, [], x.path) && Entry(e, h, x);
    }
    var x :| x in existing && x.path == p;
    var k := Key(CanonicalName(h.files[p].value.name));
    forall j ensures j in Keys(existing) <==> j == k {
      KeysMember(existing, j);
    }
  }

  lemma OtherSocketHome(e: Env)
    requires Ordinary(e)
    ensures OneToWrap(e, OtherSocket(e.dir), OtherSocket(e.dir).clients[0].servers[0])
    ensures "foo" in Present(e, OtherSocket(e.dir)) && "foo" in Keys(ExistingIn(e, OtherSocket(e.dir)))
  {
    hide IsCommandRef, IsHTTPRef, CanWrap, CanonicalName, Key, TrimSpace, ExistingIn, Plannable, OwnPath, LooseSocket, ScanServers, Ordinary, Wrappable;
    var h := OtherSocket(e.dir);
    var bar := h.clients[0].servers[0];
    Words();
    OtherSocketListed(e);
    FooOnly(e, "");
    assert |Lower("bar")| == 3;
    CommandToWrap(e, bar, "/x");
    AllServersOf(h);
    ScanFinds(e.w, "/x", AllServers(h.clients), "foo");
    assert Shown(e.w, "/x", FooRef()) && FooRef() in h.clients[0].servers;
    Wraps(e, bar);
  }

  lemma Wraps(e: Env, s: RawServer)
    requires Wrappable(e.w, s)
    ensures CanWrap(e.w, s)
  {
  }

  // The reference is left as it is, and no longer recognised.
  lemma FooStays(e: Env, plan: Plan)
    requires Ordinary(e) && IsPlan(e, OtherSocket(e.dir), plan)
    ensures plan.socket == e.defaultSocket && After(e, plan, FooRef()) == FooRef()
    ensures LeftAlone(e.w, plan.ports, FooRef(), "/x", plan.socket) && !Shown(e.w, plan.socket, FooRef())
  {
    hide Ordinary, IsPlan, IsHTTPRef, CanWrap, IsCommandRef, Wrappable, OnlyUnder, Rewrite;
    PlanUpdates(e, OtherSocket(e.dir), plan);
    OtherSocketListed(e);
    Sockets(e);
    FooOnly(e, plan.socket);
    FooNotWrappable(e);
    StopsIff(e, plan, FooRef(), "/x");
  }

  // Both entries keep their names.
  lemma NamesStay(e: Env, plan: Plan)
    requires IsPlan(e, OtherSocket(e.dir), plan)
    ensures UpdatesDistinct(plan)
  {
    hide IsPlan, Wrappable, CanonicalName;
    Words();
    PlanUpdates(e, OtherSocket(e.dir), plan);
    assert plan.updates[0][0].name == "bar" && plan.updates[0][1].name == "foo";
  }

  lemma OtherSocketAfter(e: Env, plan: Plan)
    requires Ordinary(e) && IsPlan(e, OtherSocket(e.dir), plan)
    ensures !ShownAfter(e, OtherSocket(e.dir), plan, "foo")
  {
    hide Ordinary, IsPlan, Shown, CanonicalName, Key, After, LeftAlone;
    var h := OtherSocket(e.dir);
    Words();
    FooStays(e, plan);
    AllServersOf(h);
    forall s | s in AllServers(h.clients) && Key(s.name) == "foo" ensures !Shown(e.w, plan.socket, After(e, plan, s)) {
      assert s == h.clients[0].servers[0] || s == FooRef();
    }
  }

  lemma FooNotWrappable(e: Env)
    ensures !Wrappable(e.w, FooRef())
  {
    assert FooRef().args[0] in FooRef().args;
    hide NodeRepl, OAuthManaged;
  }

  lemma Sockets(e: Env)
    requires Ordinary(e)
    ensures e.defaultSocket != "/x" && e.defaultSocket != ""
  {
  }

  /**
    The wrapper foo is kept by the first run, for a reference to the socket that the daemon
    configuration names; the run writes another socket, and the second one removes the wrapper.
  */
  lemma OtherSocketLost(e: Env) returns (plan: Plan, h': Home)
    requires Ordinary(e)
    ensures Applied(e, OtherSocket(e.dir), plan, h') && AllAddedLoad(plan) && "foo" !in Keys(plan.removed)
    ensures NewPlan(e, h').Some? && NewPlan(e, h').value.removed != []
  {
    hide OneToWrap, Ordinary, AllAddedLoad, NewPlan, IsPlan, Shown, Wrappable, ExistingIn, LeftAlone, ShownAfter, CanWrap, ScanServers, Keys,
         UpdatesDistinct, Facts, FreshPaths, HomeOk, Apply, Key;
    var h := OtherSocket(e.dir);
    Words();
    OtherSocketHome(e);
    OtherSocketListed(e);
    plan, h' := OnePlan(e, h, h.clients[0].servers[0]);
    FooStays(e, plan);
    NamesStay(e, plan);
    OtherSocketAfter(e, plan);
    ConvergesIffDistinct(e, h, plan, h');
    FooOnly(e, "");
    AllServersOf(h);
    assert FooRef() in h.clients[0].servers;
    KeptNotRemoved(e, h, plan, "foo");
  }

  lemma KeptNotRemoved(e: Env, h: Home, plan: Plan, k: string)
    requires IsPlan(e, h, plan) && k in Present(e, h)
    ensures k !in Keys(plan.removed)
  {
    hide Key, Loads, InDir, ExistingIn, AdditionsFor, ScanServers, AddPorts, KeptPorts, KeptPaths, AddedPaths, Sort, CanonicalName, Absent, Paths;
    assert NewPlan(e, h) == Some(plan);
    KeysMember(plan.removed, k);
    if x :| x in plan.removed && Key(x.name) == k {
      AbsentMember(plan.existing, Present(e, h), x);
    }
  }
}
