/**
  What `setup update` writes: an entry of a client file starts the wrapper binary for its name, or
  points to the local port of its wrapper, or is left alone; an added wrapper starts what the
  server started.
*/
module UpdateEntries {
  import opened Options
  import opened Sequences
  import opened Text
  import Decimal
  import opened Servers
  import opened Sorting
  import opened Update
  import opened UpdateConverges
  import opened UpdateExact
  import opened UpdateStable

  // -------------------------------------------------------------------------- command lines

  // The word after the flag.
  predicate Gives(args: seq<string>, flag: string, value: string) {
    exists i :: 0 <= i < |args| - 1 && args[i] == flag && args[i + 1] == value && flag !in args[..i]
  }

  lemma WrittenEntry(e: Env, h: Home, plan: Plan, i: nat, j: nat)
    requires IsPlan(e, h, plan) && i < |h.clients| && j < |h.clients[i].servers|
    ensures i < |plan.updates| && j < |plan.updates[i]| && plan.updates[i][j] == After(e, plan, h.clients[i].servers[j])
    ensures h.clients[i].servers[j] in AllServers(h.clients)
  {
    hide Replace, IsPlan;
    PlanUpdates(e, h, plan);
    AllServersIn(h.clients, h.clients[i].servers[j]);
  }

  lemma WrappedIsNew(w: World, s: RawServer, socket: string)
    requires Facts(w) && Wrappable(w, s) && s.url == ""
    ensures ToWrap(w, socket, s)
  {
    BlankIsBlank();
    hide NodeRepl, Lower;
  }

  /**
    A server without URL that can be wrapped is rewritten to the wrapper binary, with the socket that
    is written and its canonical name; there is a wrapper for its key.
  */
  lemma CommandEntry(e: Env, h: Home, plan: Plan, i: nat, j: nat)
    requires Facts(e.w) && HomeOk(h) && IsPlan(e, h, plan) && i < |h.clients| && j < |h.clients[i].servers|
    requires var s := h.clients[i].servers[j]; Wrappable(e.w, s) && s.url == ""
    ensures i < |plan.updates| && j < |plan.updates[i]|
    ensures var s, t := h.clients[i].servers[j], plan.updates[i][j];
            && t.name == CanonicalName(s.name) && t.kind == "stdio" && t.url == "" && t.env == map[]
            && t.command == e.binary && |t.args| == 5 && t.args[0] == "client"
            && Gives(t.args, "--socket", plan.socket) && (plan.socket != "--name" ==> Gives(t.args, "--name", CanonicalName(s.name)))
    ensures Kept(e, h, plan, Key(h.clients[i].servers[j].name))
  {
    hide Facts, HomeOk, IsPlan, Wrappable, CanonicalName, Key, Kept, LooseSocket;
    var s := h.clients[i].servers[j];
    WrittenEntry(e, h, plan, i, j);
    var t := plan.updates[i][j];
    assert t.args[0] == "client" && t.args[1] == "--socket" && t.args[2] == plan.socket && t.args[3] == "--name";
    assert t.args[..1] == ["client"] && t.args[..3] == ["client", "--socket", plan.socket];
    assert t.args[4] == CanonicalName(s.name);
    WrappedIsNew(e.w, s, LooseSocket(e, h));
    NewIsKept(e, h, plan, s);
  }

  // What else such a server says is kept.
  lemma CommandKeeps(e: Env, h: Home, plan: Plan, i: nat, j: nat)
    requires IsPlan(e, h, plan) && i < |h.clients| && j < |h.clients[i].servers|
    requires var s := h.clients[i].servers[j]; Wrappable(e.w, s) && s.url == ""
    ensures i < |plan.updates| && j < |plan.updates[i]|
    ensures var s, t := h.clients[i].servers[j], plan.updates[i][j];
            s == t.(name := s.name, kind := s.kind, command := s.command, args := s.args, env := s.env)
  {
    hide IsPlan, Wrappable, CanonicalName;
    WrittenEntry(e, h, plan, i, j);
  }

  /** A server that can not be wrapped, and has no URL or no port for its name, is left as it is. */
  lemma OtherEntry(e: Env, h: Home, plan: Plan, i: nat, j: nat)
    requires IsPlan(e, h, plan) && i < |h.clients| && j < |h.clients[i].servers|
    requires var s := h.clients[i].servers[j]; !Wrappable(e.w, s) && (s.url == "" || Key(s.name) !in plan.ports)
    ensures i < |plan.updates| && j < |plan.updates[i]| && plan.updates[i][j] == h.clients[i].servers[j]
  {
    hide IsPlan, Wrappable, Key;
    WrittenEntry(e, h, plan, i, j);
  }

  // ------------------------------------------------------------------------------- addresses

  /** A server with a URL that is rewritten points to the local port that the plan gives its key, 0 if none, and says nothing else. */
  lemma AddressEntry(e: Env, h: Home, plan: Plan, i: nat, j: nat)
    requires IsPlan(e, h, plan) && i < |h.clients| && j < |h.clients[i].servers|
    requires var s := h.clients[i].servers[j]; s.url != "" && (Wrappable(e.w, s) || Key(s.name) in plan.ports)
    ensures i < |plan.updates| && j < |plan.updates[i]|
    ensures var s, t := h.clients[i].servers[j], plan.updates[i][j];
            && HasPrefix(t.url, "http://127.0.0.1:") && Decimal.AllDigits(t.url[17..])
            && Decimal.ReadNumeral(t.url[17..]) == PortOf(plan.ports, Key(s.name))
            && t == RawServer(CanonicalName(s.name), EffectiveKind(s), "", "", "", [], "", [], map[], t.url, map[])
  {
    hide IsPlan, Wrappable, CanonicalName;
    var s := h.clients[i].servers[j];
    WrittenEntry(e, h, plan, i, j);
    var port := PortOf(plan.ports, Key(s.name));
    Decimal.NumeralReads(port);
    assert plan.updates[i][j].url == LOCAL_PREFIX + Decimal.Numeral(port) && |LOCAL_PREFIX| == 17;
    assert plan.updates[i][j].url[17..] == Decimal.Numeral(port);
  }

  // Some wrapper that is kept or added for the key listens on the port.
  ghost predicate Listens(e: Env, h: Home, plan: Plan, k: string, port: int) {
    || (exists a :: a in plan.added && Key(a.content.name) == k && a.content.localPort == port)
    || (k in Present(e, h) && exists x :: x in plan.existing && Key(x.name) == k && x.port == port)
  }

  lemma {:induction false} KeptPortIs(existing: seq<Existing>, removed: seq<Existing>, k: string)
    requires k in KeptPorts(existing, removed)
    ensures exists x :: x in existing && Key(x.name) == k && x.port == KeptPorts(existing, removed)[k] > 0
  {
    hide Key, Paths, Keys;
    var n := |existing| - 1;
    var x := existing[n];
    if x.path in Paths(removed) || Key(x.name) in Keys(removed) || x.port <= 0 || Key(x.name) != k {
      KeptPortIs(existing[..n], removed, k);
      var y :| y in existing[..n] && Key(y.name) == k && y.port == KeptPorts(existing[..n], removed)[k] > 0;
      assert y in existing;
    } else {
      assert x in existing;
    }
  }

  lemma {:induction false} KeptPortHas(existing: seq<Existing>, removed: seq<Existing>, x: Existing)
    requires x in existing && x.port > 0 && x.path !in Paths(removed) && Key(x.name) !in Keys(removed)
    ensures Key(x.name) in KeptPorts(existing, removed)
  {
    hide Key, Paths, Keys;
    var n := |existing| - 1;
    if x != existing[n] {
      assert x in existing[..n];
      KeptPortHas(existing[..n], removed, x);
    }
  }

  lemma {:induction false} AddPortIs(ports: map<string, nat>, added: seq<Added>, k: string)
    ensures k in AddPorts(ports, added) <==> k in ports || exists a :: a in added && Key(a.content.name) == k && a.content.localPort > 0
    ensures k in AddPorts(ports, added) ==>
              (k in ports && AddPorts(ports, added)[k] == ports[k])
              || exists a :: a in added && Key(a.content.name) == k && a.content.localPort == AddPorts(ports, added)[k]
  {
    if added != [] {
      hide Key;
      var n := |added| - 1;
      var a := added[n];
      assert added == added[..n] + [a];
      AddPortIs(ports, added[..n], k);
      assert a in added;
    }
  }

  /** The port the plan gives a key is one that a wrapper for it listens on, and it gives one exactly if some wrapper for it has one. */
  lemma PortListens(e: Env, h: Home, plan: Plan, k: string)
    requires IsPlan(e, h, plan)
    ensures k in plan.ports ==> plan.ports[k] > 0 && Listens(e, h, plan, k, plan.ports[k])
    ensures k in plan.ports <==> exists port: int :: port > 0 && Listens(e, h, plan, k, port)
  {
    hide Key, OwnPath, ScanServers, ExistingIn, AddPorts, KeptPorts, KeptPaths, AddedPaths, Sort, Paths, Keys, UsedPorts, Absent, AdditionsFor, NewPlan;
    PlanPorts(e, h, plan);
    var kept := KeptPorts(plan.existing, plan.removed);
    AddPortIs(kept, plan.added, k);
    KeptPortsPositive(plan.existing, plan.removed);
    AddPortsPositive(kept, plan.added);
    if k in kept {
      KeptPortIs(plan.existing, plan.removed, k);
      KeptIsPresent(e, h, plan, k);
    }
    if x :| k in Present(e, h) && x in plan.existing && Key(x.name) == k && x.port > 0 {
      NotRemoved(e, h, plan, x);
      KeptPortHas(plan.existing, plan.removed, x);
    }
  }

  lemma PlanPorts(e: Env, h: Home, plan: Plan)
    requires IsPlan(e, h, plan)
    ensures plan.ports == AddPorts(KeptPorts(plan.existing, plan.removed), plan.added)
    ensures Plannable(e, h) && plan.removed == Absent(plan.existing, Present(e, h)) && plan.existing == ExistingIn(e, h)
  {
    hide ScanServers, ExistingIn, AddPorts, KeptPorts, KeptPaths, AddedPaths, Sort, Paths, Absent, AdditionsFor, Plannable;
    assert NewPlan(e, h) == Some(plan);
  }

  lemma KeptIsPresent(e: Env, h: Home, plan: Plan, k: string)
    requires IsPlan(e, h, plan) && k in KeptPorts(plan.existing, plan.removed)
    ensures k in Present(e, h)
  {
    hide Key, ScanServers, ExistingIn, AddPorts, KeptPorts, Paths, Keys, Absent, NewPlan;
    PlanPorts(e, h, plan);
    KeptPortsMember(plan.existing, plan.removed, k);
    KeysMember(plan.existing, k);
    KeysMember(plan.removed, k);
    var x :| x in plan.existing && Key(x.name) == k;
    AbsentMember(plan.existing, Present(e, h), x);
  }

  lemma NotRemoved(e: Env, h: Home, plan: Plan, x: Existing)
    requires IsPlan(e, h, plan) && x in plan.existing && Key(x.name) in Present(e, h)
    ensures x.path !in Paths(plan.removed) && Key(x.name) !in Keys(plan.removed)
  {
    hide Key, ScanServers, ExistingIn, AddPorts, KeptPorts, Paths, Keys, Absent, NewPlan, Loads, InDir, CanonicalName;
    PlanPorts(e, h, plan);
    ExistingListed(e, h);
    PathsMember(plan.removed, x.path);
    KeysMember(plan.removed, Key(x.name));
    forall y | y in plan.removed ensures y.path != x.path && Key(y.name) != Key(x.name) {
      AbsentMember(plan.existing, Present(e, h), y);
      assert Entry(e, h, y) && Entry(e, h, x);
    }
  }

  // ---------------------------------------------------------------------------- wrappers

  // The words that start the server: its command and arguments, or, for a known launcher whose
  // arguments are all in the command, the words of that.
  function StartsWith(w: World, s: RawServer): seq<string> {
    var words := w.fields(s.command);
    if s.args == [] && |words| > 1 && w.base(words[0]) in ["npx", "npm", "pnpm", "yarn", "bun", "uvx"] then words else [s.command] + s.args
  }

  /** An added wrapper is for the first server of its key that is to be wrapped, and has its canonical name. */
  lemma AddedForFirst(e: Env, h: Home, plan: Plan, a: Added)
    requires HomeOk(h) && IsPlan(e, h, plan) && a in plan.added
    ensures a.content.name == a.server.name
    ensures FirstOf(e.w, LooseSocket(e, h), AllServers(h.clients), Key(a.content.name), a.server)
  {
    hide ScanServers, BuiltFrom, OwnPath, IsPlan, FirstOf, Key;
    AddedFrom(e, h, plan, a);
    ScanKeepsFirst(e.w, LooseSocket(e, h), AllServers(h.clients), Key(a.content.name));
  }

  /** The wrapper that is added for a command starts the words of that command in its environment, and has nothing else to reach. */
  lemma AddedCommand(e: Env, h: Home, plan: Plan, a: Added)
    requires HomeOk(h) && IsPlan(e, h, plan) && a in plan.added && a.server.url == ""
    ensures var s, c := a.server, a.content;
            && [c.command] + c.args == StartsWith(e.w, s) && c.env == s.env
            && c.url == "" && c.headers == map[] && c.localPort == 0 && c.framing == "jsonl" && c.schemaVersion == 1
  {
    hide ScanServers, OwnPath, IsPlan, Key, Stateful, OAuthManaged;
    AddedFrom(e, h, plan, a);
    var port: nat :| a.content == BuildConfig(e.w, a.server, port) && (a.server.url == "" ==> port == 0);
    var words := e.w.fields(a.server.command);
    assert |words| > 1 ==> [words[0]] + words[1..] == words;
  }

  /** The wrapper that is added for a URL reaches that URL with the headers and the authentication of the server, and starts nothing. */
  lemma AddedRemote(e: Env, h: Home, plan: Plan, a: Added)
    requires HomeOk(h) && IsPlan(e, h, plan) && a in plan.added && a.server.url != ""
    ensures var s, c := a.server, a.content;
            && c.url == s.url && c.headers == s.headers && c.protocol == EffectiveKind(s)
            && c.oauthClientID == s.oauthClientID && c.oauthResource == s.oauthResource && c.oauthScopes == s.oauthScopes
            && (c.auth == s.auth || (s.auth == "" && c.auth == "oauth" && OAuthManaged(e.w, s)))
            && (s.auth == "" && OAuthManaged(e.w, s) ==> c.auth == "oauth")
            && c.command == "" && c.args == [] && c.env == map[] && c.framing == "" && c.schemaVersion == 1
  {
    hide ScanServers, OwnPath, IsPlan, Key, Stateful, OAuthManaged, InlineCommand;
    AddedFrom(e, h, plan, a);
  }

  /** Each client gets a session of its own exactly if playwright is mentioned or the server's logins are managed. */
  lemma AddedSharing(e: Env, h: Home, plan: Plan, a: Added)
    requires HomeOk(h) && IsPlan(e, h, plan) && a in plan.added
    ensures a.content.sharing == "session" || a.content.sharing == "shared"
    ensures a.content.sharing == "session" <==>
            || OAuthManaged(e.w, a.server)
            || (if a.server.url == "" then Stateful(a.server.(command := a.content.command, args := a.content.args)) else Stateful(a.server))
  {
    hide ScanServers, OwnPath, IsPlan, Key, InlineCommand, Contains, Lower, TrimSpace, Join;
    AddedFrom(e, h, plan, a);
    var s := SplitCommand(e.w, a.server);
    assert s.url == a.server.url && s.auth == a.server.auth;
    assert a.server.url == "" ==> s == a.server.(command := a.content.command, args := a.content.args);
    assert OAuthManaged(e.w, s) == OAuthManaged(e.w, a.server);
  }
}
