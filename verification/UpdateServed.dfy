/**
  Whether an entry that `setup update` writes reaches a wrapper: the daemon serves a name only as some
  configuration spells it, and an address leads somewhere only if the wrapper of its key has a port.
*/
module UpdateServed {
  import opened Options
  import opened Sequences
  import opened Text
  import Decimal
  import opened Servers
  import opened Sorting
  import opened Update
  import opened UpdateConverges
  import opened UpdateExact
  import opened UpdateStable
  import opened UpdateFails
  import opened UpdateEntries

  // -------------------------------------------------------------------------- names served

  // The daemon configuration lists a file that loads and spells its name like this.
  ghost predicate Serves(h: Home, name: string) {
    h.daemon.Some? && exists p :: p in h.daemon.value.configs && LoadsAt(h, p) && h.files[p].value.name == name
  }

  // A listed wrapper spells its name like this.
  ghost predicate Spelled(h: Home, existing: seq<Existing>, name: string) {
    exists x :: x in existing && LoadsAt(h, x.path) && h.files[x.path].value.name == name
  }

  lemma EntryKey(e: Env, h: Home, x: Existing)
    requires Entry(e, h, x)
    ensures x.name == CanonicalName(h.files[x.path].value.name) && Key(x.name) == Key(h.files[x.path].value.name)
  {
    hide Loads, CanonicalName;
    CanonicalTwice(h.files[x.path].value.name);
  }

  lemma ExistingEntry(e: Env, h: Home, plan: Plan, x: Existing)
    requires IsPlan(e, h, plan) && x in plan.existing
    ensures Entry(e, h, x)
  {
    hide Key, ScanServers, ExistingIn, AddPorts, KeptPorts, KeptPaths, AddedPaths, Sort, Paths, Absent, AdditionsFor, Loads, InDir, CanonicalName;
    assert NewPlan(e, h) == Some(plan);
    ExistingListed(e, h);
  }

  // A name that is served after the run comes from a wrapper that was kept or added.
  lemma ServedFrom(e: Env, h: Home, plan: Plan, h': Home, name: string)
    requires Applied(e, h, plan, h') && Serves(h', name)
    ensures Spelled(h, plan.existing, name) || exists a :: a in plan.added && a.content.name == name
  {
    hide Applied, IsPlan, Loads, Key, Paths, AddedPaths, InDir, ExistingIn;
    AppliedParts(e, h, plan, h');
    SameLength(e, h, plan, h');
    var p :| p in plan.nextPaths && LoadsAt(h', p) && h'.files[p].value.name == name;
    NextPathsMember(e, h, plan, p);
    if p in AddedPaths(plan.added) {
      AddedPathsMember(plan.added, p);
      var a :| a in plan.added && a.path == p;
      NewFileAfter(e, h, plan, h', a);
    } else {
      OldFileByPath(e, h, plan, h', p);
      PathsMember(plan.existing, p);
    }
  }

  lemma AppliedParts(e: Env, h: Home, plan: Plan, h': Home)
    requires Applied(e, h, plan, h')
    ensures IsPlan(e, h, plan) && HomeOk(h) && Facts(e.w) && e.defaultSocket != ""
  {
    hide IsPlan, HomeOk, Facts, Apply, FreshPaths;
  }

  lemma AddedServed(e: Env, h: Home, plan: Plan, h': Home, a: Added)
    requires Applied(e, h, plan, h') && AllAddedLoad(plan) && a in plan.added
    ensures Serves(h', a.content.name)
  {
    hide Applied, IsPlan, Loads, Key, Paths, AddedPaths, InDir;
    AppliedParts(e, h, plan, h');
    SameLength(e, h, plan, h');
    AddedPathsMember(plan.added, a.path);
    NextPathsMember(e, h, plan, a.path);
    NewFileAfter(e, h, plan, h', a);
  }

  lemma KeptServed(e: Env, h: Home, plan: Plan, h': Home, x: Existing)
    requires Applied(e, h, plan, h') && x in plan.existing && Key(x.name) in Present(e, h)
    ensures LoadsAt(h, x.path) && Serves(h', h.files[x.path].value.name)
  {
    hide Applied, IsPlan, Loads, Key, Paths, AddedPaths, InDir, ScanServers;
    AppliedParts(e, h, plan, h');
    SameLength(e, h, plan, h');
    PathsMember(plan.existing, x.path);
    NotRemoved(e, h, plan, x);
    NextPathsMember(e, h, plan, x.path);
    OldFileByPath(e, h, plan, h', x.path);
  }

  /**
    The name that an entry for a command asks the daemon for is served if and only if, when its key already
    has wrappers, one of them spells it so, and, when it has none, the first server of the key to be wrapped does.
  */
  lemma NameServedIff(e: Env, h: Home, plan: Plan, h': Home, s: RawServer)
    requires Applied(e, h, plan, h') && AllAddedLoad(plan)
    requires s in AllServers(h.clients) && Wrappable(e.w, s) && s.url == ""
    ensures Key(s.name) in Current(e, h)
    ensures Serves(h', CanonicalName(s.name)) <==>
            if Key(s.name) in Keys(plan.existing) then Spelled(h, plan.existing, CanonicalName(s.name))
            else Current(e, h)[Key(s.name)].name == CanonicalName(s.name)
  {
    hide Applied, IsPlan, Wrappable, Facts, HomeOk, Loads, CanonicalName, Key, ScanServers, Keys, AllAddedLoad, LooseSocket, Serves, Spelled, BuiltFrom, OwnPath;
    AppliedParts(e, h, plan, h');
    var k, name := Key(s.name), CanonicalName(s.name);
    WrappedIsNew(e.w, s, LooseSocket(e, h));
    ScanFinds(e.w, LooseSocket(e, h), AllServers(h.clients), k) by { HomeNames(h); }
    assert WrapsKey(e.w, LooseSocket(e, h), AllServers(h.clients), k);
    CurrentNamed(e, h, k) by { HomeNames(h); }
    assert Key(name) == k by { CanonicalTwice(s.name); KeyOfCanonical(s.name); }
    if k in Keys(plan.existing) {
      if Serves(h', name) {
        ServedFrom(e, h, plan, h', name);
        NotAdded(e, h, plan, name);
      }
      if Spelled(h, plan.existing, name) {
        SpelledServed(e, h, plan, h', name);
      }
    } else {
      if Serves(h', name) {
        ServedFrom(e, h, plan, h', name);
        NotSpelled(e, h, plan, name);
        var a :| a in plan.added && a.content.name == name;
        AddedFrom(e, h, plan, a);
      }
      AddedFor(e, h, plan, k);
      var a :| a in plan.added && Key(a.content.name) == k;
      AddedFrom(e, h, plan, a);
      AddedServed(e, h, plan, h', a);
    }
  }

  lemma KeyOfCanonical(name: string)
    ensures Key(CanonicalName(name)) == Key(name)
  {
    CanonicalTwice(name);
  }

  lemma NotAdded(e: Env, h: Home, plan: Plan, name: string)
    requires IsPlan(e, h, plan) && HomeOk(h) && Key(name) in Keys(plan.existing)
    ensures forall a :: a in plan.added ==> a.content.name != name
  {
    hide IsPlan, Key, Keys, BuiltFrom, OwnPath, ScanServers;
    forall a | a in plan.added ensures a.content.name != name {
      AddedFrom(e, h, plan, a);
    }
  }

  lemma NotSpelled(e: Env, h: Home, plan: Plan, name: string)
    requires IsPlan(e, h, plan) && Key(name) !in Keys(plan.existing)
    ensures !Spelled(h, plan.existing, name)
  {
    hide IsPlan, Key, Keys, Loads;
    forall x | x in plan.existing && LoadsAt(h, x.path) ensures h.files[x.path].value.name != name {
      ExistingEntry(e, h, plan, x);
      EntryKey(e, h, x);
      KeysMember(plan.existing, Key(x.name));
    }
  }

  lemma SpelledServed(e: Env, h: Home, plan: Plan, h': Home, name: string)
    requires Applied(e, h, plan, h') && Key(name) in Present(e, h) && Spelled(h, plan.existing, name)
    ensures Serves(h', name)
  {
    hide Applied, IsPlan, Key, Keys, Loads, ScanServers, Serves;
    AppliedParts(e, h, plan, h');
    var x :| x in plan.existing && LoadsAt(h, x.path) && h.files[x.path].value.name == name;
    ExistingEntry(e, h, plan, x);
    EntryKey(e, h, x);
    KeptServed(e, h, plan, h', x);
  }

  // -------------------------------------------------------------------- addresses with a port

  // Without a blocker every added wrapper for a URL has a port.
  lemma {:induction false} AddedPorts(e: Env, current: map<string, RawServer>, taken: set<string>, used: set<nat>, keys: seq<string>, a: Added)
    requires forall i :: 0 <= i < |keys| ==> keys[i] in current
    requires AddAll(e, current, taken, used, keys).blockers == [] && a in AddAll(e, current, taken, used, keys).added
    ensures a.content.localPort > 0 <==> a.server.url != ""
  {
    if keys != [] {
      hide OwnPath, FreePort, SplitCommand, Stateful, OAuthManaged;
      var n := |keys| - 1;
      var before := AddAll(e, current, taken, used, keys[..n]);
      if a in before.added {
        AddedPorts(e, current, taken, used, keys[..n], a);
      } else {
        AddedPort(e, before, current[keys[n]]);
      }
    }
  }

  lemma AddedPort(e: Env, before: Additions, s: RawServer)
    requires AddOne(e, before, s).blockers == []
    ensures before.blockers == []
    ensures var all := AddOne(e, before, s).added;
            all == before.added + [all[|all| - 1]] && all[|all| - 1].server == s && (all[|all| - 1].content.localPort > 0 <==> s.url != "")
  {
    hide OwnPath, Stateful, OAuthManaged, InlineCommand;
  }

  lemma PlanAddedPorts(e: Env, h: Home, plan: Plan, a: Added)
    requires IsPlan(e, h, plan) && plan.blockers == [] && a in plan.added
    ensures a.content.localPort > 0 <==> a.server.url != ""
  {
    hide ScanServers, ExistingIn, AddAll, AddPorts, KeptPorts, KeptPaths, AddedPaths, Sort, Paths, Absent, RenderBlockers, Plannable, UsedPorts;
    assert NewPlan(e, h) == Some(plan);
    var current := Current(e, h);
    AddedPorts(e, current, Keys(ExistingIn(e, h)), UsedPorts(h, ListedPaths(h)), Ascending(current.Keys), a);
  }

  /**
    In a run without blockers the key of a server to be wrapped has a port, and an address that is written
    for it leads to one, if and only if, when the key already has wrappers, one of them has a port, and, when
    it has none, the first server of the key to be wrapped has a URL.
  */
  lemma PortGivenIff(e: Env, h: Home, plan: Plan, s: RawServer)
    requires HomeOk(h) && IsPlan(e, h, plan) && plan.blockers == []
    requires s in AllServers(h.clients) && ToWrap(e.w, LooseSocket(e, h), s)
    ensures Key(s.name) in Current(e, h)
    ensures Key(s.name) in plan.ports <==>
            if Key(s.name) in Keys(plan.existing) then exists x :: x in plan.existing && Key(x.name) == Key(s.name) && x.port > 0
            else Current(e, h)[Key(s.name)].url != ""
  {
    hide IsPlan, HomeOk, Key, ScanServers, Keys, LooseSocket, ToWrap, BuiltFrom, OwnPath;
    var k := Key(s.name);
    ScanFinds(e.w, LooseSocket(e, h), AllServers(h.clients), k) by { HomeNames(h); }
    assert WrapsKey(e.w, LooseSocket(e, h), AllServers(h.clients), k);
    CurrentNamed(e, h, k) by { HomeNames(h); }
    PortListens(e, h, plan, k);
    forall a | a in plan.added && Key(a.content.name) == k
      ensures k !in Keys(plan.existing) && (a.content.localPort > 0 <==> Current(e, h)[k].url != "")
    {
      AddedFrom(e, h, plan, a);
      PlanAddedPorts(e, h, plan, a);
    }
    KeysMember(plan.existing, k);
    if x :| x in plan.existing && Key(x.name) == k && x.port > 0 {
      assert Listens(e, h, plan, k, x.port);
    }
    if k !in Keys(plan.existing) {
      AddedFor(e, h, plan, k);
      var a :| a in plan.added && Key(a.content.name) == k;
      assert Current(e, h)[k].url != "" ==> Listens(e, h, plan, k, a.content.localPort);
    }
  }

  // ------------------------------------------------------- entries that lead nowhere

  function FooRemote(): RawServer { Remote("FOO", "http", "https://h/sse").(auth := "none") }

  // The wrapper is spelled Foo and has no port; clients list a command foo and a URL FOO.
  function MixedCase(dir: string): Home {
    Home([ClientFile(true, Json, [Command("foo", "npx", []), FooRemote()])],
         map[OwnPath(dir, "foo") := Some(FooConfig().(name := "Foo"))], None)
  }

  lemma MoreWords()
    ensures CanonicalName("Foo") == "Foo" && CanonicalName("FOO") == "FOO" && Key("Foo") == "foo" && Key("FOO") == "foo"
    ensures CanonicalName("foo") == "foo" && Key("foo") == "foo"
  {
    TrimFixed("foo", IsSpace);
    TrimFixed("Foo", IsSpace);
    TrimFixed("FOO", IsSpace);
    hide TrimSpace;
    assert |Lower("playwright")| == 10 && |Lower("foo")| == 3 && |Lower("Foo")| == 3 && |Lower("FOO")| == 3;
    assert Lower("foo") == "foo" && Lower("Foo") == "foo" && Lower("FOO") == "foo";
  }

  lemma RemoteParts(e: Env, s: RawServer)
    requires Ordinary(e) && e.w.base("") == "." && s == Remote(s.name, "http", "https://h/sse").(auth := "none") && |s.name| == 3
    ensures !NodeRepl(e.w, s) && !OAuthManaged(e.w, s) && !IsHTTPRef(e.w, s) && EqualFold(s.auth, "none")
  {
    hide Facts;
    Words();
    BlankIsBlank();
    assert |Lower("h")| == 1 && |Lower("mcp.figma.com")| == 13 && |Lower(s.name)| == 3 && |Lower("node_repl")| == 9 && |Lower(".")| == 1;
    assert !Contains(Lower("."), "node_repl");
    hide TrimSpace, Contains;
    assert "https://h/sse"[0..5] == "https" && LOCAL_PREFIX[0..5] == "http:";
  }

  lemma RemoteToWrap(e: Env, socket: string, s: RawServer)
    requires Ordinary(e) && e.w.base("") == "." && s == Remote(s.name, "http", "https://h/sse").(auth := "none") && |s.name| == 3
    ensures Wrappable(e.w, s) && ToWrap(e.w, socket, s)
  {
    hide Ordinary, NodeRepl, OAuthManaged, IsHTTPRef, Lower, Local, ExplicitAuth;
    RemoteParts(e, s);
  }

  lemma MixedCaseListed(e: Env)
    requires Ordinary(e)
    ensures Plannable(e, MixedCase(e.dir)) && Keys(ExistingIn(e, MixedCase(e.dir))) == {"foo"}
    ensures forall x :: x in ExistingIn(e, MixedCase(e.dir)) ==> x.path == OwnPath(e.dir, "foo") && x.port == 0
  {
    hide Loads, InDir, ExistingIn, OwnPath, CanonicalName, Key, Ordinary;
    var h, p := MixedCase(e.dir), OwnPath(e.dir, "foo");
    assert Loads(FooConfig().(name := "Foo")) by { MixedLoads(); }
    MoreWords();
    OwnPathInDir(e.dir, "foo");
    forall i | 0 <= i < |DirPaths(e, h)| ensures LoadsAt(h, DirPaths(e, h)[i]) {
      assert DirPaths(e, h)[i] in DirPaths(e, h);
    }
    OneListed(e, h, p);
    ExistingListed(e, h);
    forall x | x in ExistingIn(e, h) ensures x.path == p && x.port == 0 {
      assert Entry(e, h, x);
    }
  }

  lemma MixedLoads()
    ensures Loads(FooConfig().(name := "Foo"))
  {
    BlankIsBlank();
  }

  // Both servers are to be wrapped, and their key is taken.
  lemma MixedCaseKeys(e: Env)
    requires Ordinary(e) && e.w.base("") == "."
    ensures var h := MixedCase(e.dir);
            && HomeOk(h) && "foo" in Present(e, h) && (forall k :: k in Current(e, h) ==> k == "foo")
            && (forall s :: s in AllServers(h.clients) <==> s == Command("foo", "npx", []) || s == FooRemote())
  {
    hide ToWrap, Wrappable, CanonicalName, Key, Ordinary, LooseSocket, ScanServers;
    var h := MixedCase(e.dir);
    var servers, socket := AllServers(h.clients), LooseSocket(e, h);
    MoreWords();
    AllServersOf(h);
    CommandToWrap(e, Command("foo", "npx", []), socket) by { NotNodeRepl(); }
    RemoteToWrap(e, socket, FooRemote());
    assert h.clients[0].servers[0] in h.clients[0].servers && h.clients[0].servers[1] in h.clients[0].servers;
    ShownIs(e);
    hide Shown;
    assert Shows(e.w, socket, servers, "foo");
    forall k ensures k in Present(e, h) <==> Shows(e.w, socket, servers, k)
             ensures k in Current(e, h) <==> WrapsKey(e.w, socket, servers, k) {
      ScanFinds(e.w, socket, servers, k);
    }
  }

  lemma NotNodeRepl()
    ensures Lower("foo") != "node_repl"
  {
    assert |Lower("foo")| == 3;
  }

  // The plan adds nothing and is not blocked.
  lemma MixedCasePlan(e: Env, h: Home) returns (plan: Plan, h': Home)
    requires Ordinary(e) && e.w.base("") == "." && h == MixedCase(e.dir)
    ensures Applied(e, h, plan, h') && plan.added == [] && Keys(plan.existing) == {"foo"} && |plan.updates| == 1
    ensures forall x :: x in plan.existing ==> x.path == OwnPath(e.dir, "foo") && x.port == 0
  {
    hide Ordinary, ToWrap, Key, CanonicalName, ScanServers, Plannable, OwnPath, ExistingIn, Loads, LooseSocket, AddAll, AdditionsFor, Absent,
         KeptPaths, AddPorts, KeptPorts, ReplaceAll, FreePort, Paths, AddedPaths, Sort, Keys, RenderBlockers, UsedPorts, InDir, AnyRewritten;
    MixedCaseListed(e);
    MixedCaseKeys(e);
    plan := PlanOf(e, h);
    assert IsPlan(e, h, plan);
    NothingToAdd(e, h);
    PlanUpdates(e, h, plan);
    NothingAsked(e, h);
    KeysMember(plan.existing, "foo");
    MoreWords();
    var x :| x in plan.existing && Key(x.name) == "foo";
    NotRemoved(e, h, plan, x);
    PathsMember(plan.existing, x.path);
    NextPathsMember(e, h, plan, x.path);
    NoRenderBlockers(e.w, plan.ports, h.clients);
    assert e.binary != "" && e.defaultSocket != "" && Facts(e.w) by { OrdinaryParts(e); }
    PlanBlockers(e, h, plan);
    NoneFresh(h, plan);
    h' := Apply(e, h, plan);
  }

  lemma NoneFresh(h: Home, plan: Plan)
    requires plan.added == []
    ensures FreshPaths(h, plan)
  {
  }

  lemma OrdinaryParts(e: Env)
    requires Ordinary(e)
    ensures e.binary != "" && e.defaultSocket != "" && Facts(e.w)
  {
    hide Facts;
  }

  lemma NothingAsked(e: Env, h: Home)
    requires Plannable(e, h) && forall k :: k in Current(e, h) ==> k in Keys(ExistingIn(e, h))
    ensures AdditionsFor(e, h).blockers == []
  {
    hide ScanServers, ExistingIn, AddAll, Plannable, Keys, UsedPorts;
    var current := Current(e, h);
    NoneAdded(e, current, Keys(ExistingIn(e, h)), UsedPorts(h, ListedPaths(h)), Ascending(current.Keys));
  }

  lemma ZeroAddress(e: Env, plan: Plan, s: RawServer)
    requires Wrappable(e.w, s) && s.url != "" && Key(s.name) !in plan.ports
    ensures After(e, plan, s).url == "http://127.0.0.1:0"
  {
    hide Wrappable, CanonicalName;
    assert Decimal.Digits(0) == [0];
    assert Decimal.Numeral(0) == "0";
    assert LOCAL_PREFIX + "0" == "http://127.0.0.1:0";
  }

  // What the two entries are rewritten to.
  lemma MixedCaseWritten(e: Env, h: Home, plan: Plan)
    requires h == MixedCase(e.dir) && IsPlan(e, h, plan) && Wrappable(e.w, h.clients[0].servers[0])
    requires Wrappable(e.w, FooRemote()) && "foo" !in plan.ports
    ensures |plan.updates| == 1 && |plan.updates[0]| == 2
    ensures plan.updates[0][0].args == ["client", "--socket", plan.socket, "--name", "foo"]
    ensures plan.updates[0][1].url == "http://127.0.0.1:0"
  {
    hide IsPlan, Wrappable, Key, CanonicalName, LocalAddress;
    MoreWords();
    PlanUpdates(e, h, plan);
    ZeroAddress(e, plan, FooRemote());
    assert plan.updates[0][0] == After(e, plan, h.clients[0].servers[0]) && plan.updates[0][1] == After(e, plan, FooRemote());
  }

  /** A home whose entries lead nowhere after the run: the daemon has no foo, only Foo, and the address has port 0. */
  lemma EntriesLeadNowhere(e: Env, h: Home) returns (plan: Plan, h': Home)
    requires Ordinary(e) && e.w.base("") == "." && h == MixedCase(e.dir)
    ensures Applied(e, h, plan, h') && AllAddedLoad(plan) && |plan.updates| == 1 && |plan.updates[0]| == 2
    ensures plan.updates[0][0].args == ["client", "--socket", plan.socket, "--name", "foo"] && !Serves(h', "foo")
    ensures plan.updates[0][1].url == "http://127.0.0.1:0"
  {
    hide Ordinary, Applied, IsPlan, ToWrap, Wrappable, Key, CanonicalName, ScanServers, ExistingIn, LooseSocket, Keys, Serves, OwnPath, Loads;
    plan, h' := MixedCasePlan(e, h);
    AppliedParts(e, h, plan, h');
    MixedCaseKeys(e);
    MoreWords();
    CommandToWrap(e, h.clients[0].servers[0], LooseSocket(e, h)) by { NotNodeRepl(); }
    RemoteToWrap(e, LooseSocket(e, h), FooRemote());
    NameServedIff(e, h, plan, h', h.clients[0].servers[0]);
    OnlyFoo(e, h, plan);
    NotBlockedHere(e, h, plan, h');
    PortGivenIff(e, h, plan, FooRemote());
    MixedCaseWritten(e, h, plan);
  }

  lemma OnlyFoo(e: Env, h: Home, plan: Plan)
    requires h == MixedCase(e.dir) && forall x :: x in plan.existing ==> x.path == OwnPath(e.dir, "foo")
    ensures !Spelled(h, plan.existing, "foo")
  {
    hide Loads, OwnPath;
    assert "Foo"[0] == 'F' && "foo"[0] == 'f';
  }

  lemma NotBlockedHere(e: Env, h: Home, plan: Plan, h': Home)
    requires Applied(e, h, plan, h')
    ensures plan.blockers == []
  {
    hide IsPlan, HomeOk, Facts, Apply, FreshPaths;
  }
}
