/**
  Which servers `setup update` wraps, in terms of what a client file says about them, and which ports
  the wrappers it adds get.
*/
module UpdateWraps {
  import opened Options
  import opened Text
  import opened Servers
  import opened Sorting
  import opened Update
  import opened UpdateConverges
  import opened UpdateExact
  import opened UpdateFails
  import UpdateEntries
  import opened UpdateStable
  import opened UpdateServed

  // -------------------------------------------------------------------------------- names

  /** A name is playwright if that is the word, in any case; any other name is only trimmed. */
  lemma CanonicalIs(name: string)
    ensures IsWord(name, "playwright") ==> CanonicalName(name) == "playwright"
    ensures !IsWord(name, "playwright") ==>
              Trimmed(CanonicalName(name), IsSpace)
              && exists lead, tail :: name == lead + CanonicalName(name) + tail && AllCut(lead, IsSpace) && AllCut(tail, IsSpace)
  {
    hide Lower, IsWord, Trim;
    var lead, tail := TrimSplit(name, IsSpace);
    LowWords();
    IsWordIff(name, "playwright");
  }

  lemma LowWords()
    ensures Lower("playwright") == "playwright" && Trimmed("playwright", IsSpace) && IsLower("playwright")
    ensures IsLower("node_repl") && IsLower("chatgpt") && IsLower("oauth") && IsLower("none") && IsLower("mcp.figma.com") && IsLower("localhost")
    ensures IsLower("authorization") && IsLower("x-api-key") && IsLower("token") && IsLower("api-key")
    ensures Lower("node_repl") == "node_repl" && Lower("chatgpt") == "chatgpt" && Lower("oauth") == "oauth" && Lower("none") == "none"
    ensures Lower("mcp.figma.com") == "mcp.figma.com" && Lower("localhost") == "localhost"
  {
  }

  // ------------------------------------------------------------------------ what is wrapped

  // The word occurs in the text, in any case.
  predicate Occurs(text: string, word: string) { exists i: nat | i <= |text| :: OccursAt(text, i, word) }

  predicate OccursAt(text: string, i: nat, word: string) {
    i + |word| <= |text| && InAnyCase(text[i..i + |word|], word)
  }

  lemma OccursIff(text: string, word: string)
    requires IsLower(word)
    ensures Contains(Lower(text), word) <==> Occurs(text, word)
  {
    var n := |word|;
    forall i: nat | i <= |text| ensures HasPrefix(Lower(text)[i..], word) <==> OccursAt(text, i, word) {
      if i + n <= |text| {
        LowerIs(text[i..i + n], word);
        assert Lower(text)[i..][..n] == Lower(text[i..i + n]);
      }
    }
  }

  // The REPL of a client is left to the client.
  predicate IsRepl(w: World, s: RawServer) { InAnyCase(s.name, "node_repl") || Occurs(w.base(s.command), "node_repl") }

  // A command that is no wrapper, and is not told to be one.
  predicate PlainCommand(w: World, s: RawServer) {
    s.command != "" && w.base(s.command) != "lazy-mcp-wrapper" && "client" !in s.args && "--config" !in s.args
  }

  // The logins of the server are managed by the client: by OAuth, not by ChatGPT.
  predicate LoginsManaged(w: World, s: RawServer) {
    && !AllCut(s.url, IsSpace) && !InAnyCase(s.auth, "chatgpt")
    && (InAnyCase(s.auth, "oauth")
        || (w.parseUrl(TrimSpace(s.url)).Some? && InAnyCase(w.parseUrl(TrimSpace(s.url)).value.1, "mcp.figma.com")))
  }

  // The address of a wrapper.
  predicate WrapperAddress(w: World, s: RawServer) {
    "http://127.0.0.1:" <= TrimSpace(s.url) || w.parseUrl(TrimSpace(s.url)) == Some(("http", "127.0.0.1"))
  }

  predicate OnThisHost(w: World, s: RawServer) {
    var u := w.parseUrl(TrimSpace(s.url));
    u.Some? && (u.value.1 == "127.0.0.1" || u.value.1 == "::1" || InAnyCase(u.value.1, "localhost"))
  }

  // A header that authenticates, with a value.
  predicate HasKey(s: RawServer) {
    exists k | k in s.headers ::
      !AllCut(s.headers[k], IsSpace)
      && (InAnyCase(k, "authorization") || InAnyCase(k, "x-api-key") || Occurs(k, "token") || Occurs(k, "api-key"))
  }

  // The kind is said, or follows from what there is.
  function KindOf(s: RawServer): string { if s.kind != "" then s.kind else if s.url != "" then "streamable-http" else "stdio" }

  predicate NeedsWrapper(w: World, socket: string, s: RawServer) {
    if s.url != "" && WrapperAddress(w, s) then false
    else if LoginsManaged(w, s) then w.credential(s) && !IsCommandRef(w, s, socket)
    else if KindOf(s) == "stdio" then PlainCommand(w, s) && !IsRepl(w, s)
    else if KindOf(s) == "http" || KindOf(s) == "streamable-http" then
      s.url != "" && !IsRepl(w, s) && (OnThisHost(w, s) || InAnyCase(s.auth, "none") || HasKey(s))
    else false
  }

  lemma SameFold(a: string, word: string)
    requires IsLower(word) && Lower(word) == word
    ensures EqualFold(a, word) <==> InAnyCase(a, word)
  {
    LowerIs(a, word);
  }

  lemma BlankIff(s: string)
    ensures TrimSpace(s) == "" <==> AllCut(s, IsSpace)
  {
    var lead, tail := TrimSplit(s, IsSpace);
    if AllCut(s, IsSpace) {
      assert s + "" + "" == s;
      TrimPadded(s, "", "", IsSpace);
    }
  }

  lemma ReplIff(w: World, s: RawServer)
    ensures NodeRepl(w, s) <==> IsRepl(w, s)
  {
    hide Lower, Contains, Occurs, InAnyCase;
    LowWords();
    SameFold(s.name, "node_repl");
    OccursIff(w.base(s.command), "node_repl");
  }

  lemma ManagedIff(w: World, s: RawServer)
    ensures OAuthManaged(w, s) <==> LoginsManaged(w, s)
  {
    hide Lower, InAnyCase, TrimSpace, EqualFold, AllCut;
    LowWords();
    BlankIff(s.url);
    SameFold(s.auth, "chatgpt");
    SameFold(s.auth, "oauth");
    if w.parseUrl(TrimSpace(s.url)).Some? {
      SameFold(w.parseUrl(TrimSpace(s.url)).value.1, "mcp.figma.com");
    }
  }

  lemma AddressIff(w: World, s: RawServer)
    ensures IsHTTPRef(w, s) <==> WrapperAddress(w, s)
  {
    hide TrimSpace;
    var url := TrimSpace(s.url);
    assert LOCAL_PREFIX == "http://127.0.0.1:";
    assert HasPrefix(url, LOCAL_PREFIX) <==> LOCAL_PREFIX <= url;
  }

  lemma LocalIff(w: World, s: RawServer)
    ensures Local(w, s) <==> OnThisHost(w, s)
  {
    hide Lower, InAnyCase, TrimSpace, EqualFold;
    LowWords();
    if w.parseUrl(TrimSpace(s.url)).Some? {
      SameFold(w.parseUrl(TrimSpace(s.url)).value.1, "localhost");
    }
  }

  lemma KeyIff(s: RawServer)
    ensures ExplicitAuth(s) <==> HasKey(s)
  {
    hide Lower, InAnyCase, TrimSpace, Contains, Occurs, AllCut;
    LowWords();
    forall k: string ensures AuthHeader(Lower(k)) <==>
        InAnyCase(k, "authorization") || InAnyCase(k, "x-api-key") || Occurs(k, "token") || Occurs(k, "api-key") {
      LowerIs(k, "authorization");
      LowerIs(k, "x-api-key");
      OccursIff(k, "token");
      OccursIff(k, "api-key");
    }
    forall k | k in s.headers ensures TrimSpace(s.headers[k]) == "" <==> AllCut(s.headers[k], IsSpace) {
      BlankIff(s.headers[k]);
    }
  }

  lemma NoUrlNoAddress(w: World, s: RawServer)
    requires Facts(w) && s.url == ""
    ensures !IsHTTPRef(w, s) && !OAuthManaged(w, s)
  {
    BlankIff("");
  }

  lemma NeedsWrapperIff(w: World, socket: string, s: RawServer)
    requires Facts(w)
    ensures ToWrap(w, socket, s) <==> NeedsWrapper(w, socket, s)
  {
    hide NodeRepl, OAuthManaged, IsHTTPRef, Local, ExplicitAuth, IsRepl, LoginsManaged, WrapperAddress, OnThisHost, HasKey, InAnyCase, EqualFold, Facts, SocketArg;
    ReplIff(w, s);
    ManagedIff(w, s);
    AddressIff(w, s);
    LocalIff(w, s);
    KeyIff(s);
    LowWords();
    SameFold(s.auth, "none");
    if s.url == "" {
      NoUrlNoAddress(w, s);
    }
    assert EffectiveKind(s) == KindOf(s);
    assert s.args != [] ==> s.args[0] in s.args;
  }

  /** A run looks for wrappers for exactly the keys of the servers that need one. */
  lemma WrappedKeys(e: Env, h: Home, k: string)
    requires Facts(e.w) && HomeOk(h)
    ensures k in Current(e, h) <==>
            exists s :: s in AllServers(h.clients) && Key(s.name) == k && NeedsWrapper(e.w, LooseSocket(e, h), s)
  {
    hide NeedsWrapper, ToWrap, Key, ScanServers, LooseSocket, Facts;
    HomeNames(h);
    ScanFinds(e.w, LooseSocket(e, h), AllServers(h.clients), k);
    forall s ensures ToWrap(e.w, LooseSocket(e, h), s) <==> NeedsWrapper(e.w, LooseSocket(e, h), s) {
      NeedsWrapperIff(e.w, LooseSocket(e, h), s);
    }
  }

  /** A server keeps state for its client exactly if playwright is mentioned in its name, command or arguments, in any case. */
  lemma StatefulIff(s: RawServer)
    ensures Stateful(s) <==> Occurs(s.name + " " + s.command + " " + Join(s.args), "playwright")
  {
    hide Join;
    LowWords();
    OccursIff(s.name + " " + s.command + " " + Join(s.args), "playwright");
  }

  // ---------------------------------------------------------------------------- the directory

  // A character that a file name can not hold, and its stand-in.
  predicate Unsafe(c: char) { c == '/' || c == '\\' || c == ' ' || c == ':' }

  /** Two names share a file exactly if they differ at most where each has an unsafe character or a hyphen; no file name holds an unsafe character. */
  lemma SameFileIff(dir: string, m: string, n: string)
    ensures OwnPath(dir, m) == OwnPath(dir, n) <==>
            |m| == |n| && forall i :: 0 <= i < |m| ==> m[i] == n[i] || ((Unsafe(m[i]) || m[i] == '-') && (Unsafe(n[i]) || n[i] == '-'))
    ensures OwnPath(dir, m) == dir + "/" + SafeName(m) + ".json" && forall c :: c in SafeName(m) ==> !Unsafe(c)
  {
    var a, b := SafeName(m), SafeName(n);
    if OwnPath(dir, m) == OwnPath(dir, n) {
      OwnPathName(dir, m, n);
    }
    forall i | 0 <= i < |m| && |m| == |n|
      ensures a[i] == b[i] <==> m[i] == n[i] || ((Unsafe(m[i]) || m[i] == '-') && (Unsafe(n[i]) || n[i] == '-'))
    {
    }
  }

  /** The files of the wrapper directory are the ones right inside it that end in .json. */
  lemma InDirIff(dir: string, path: string)
    ensures InDir(dir, path) <==> exists name :: path == dir + "/" + name + ".json" && '/' !in name
  {
    if InDir(dir, path) {
      var name := path[|dir| + 1..|path| - 5];
      assert path == path[..|dir| + 1] + name + path[|path| - 5..];
      forall c | c in name ensures c in path[|dir| + 1..] {
        var i :| 0 <= i < |name| && name[i] == c;
        assert path[|dir| + 1..][i] == c;
      }
    }
    if name :| path == dir + "/" + name + ".json" && '/' !in name {
      assert path[..|dir| + 1] == dir + "/" && path[|dir| + 1..] == name + ".json" && path[|path| - 5..] == ".json";
    }
  }

  // ------------------------------------------------------------------------------- ports

  // The local ports that a list of files has taken.
  ghost predicate Taken(h: Home, listed: seq<string>, port: nat) {
    exists p :: p in listed && LoadsAt(h, p) && h.files[p].value.localPort == port > 0
  }

  lemma {:induction false} UsedIff(h: Home, listed: seq<string>, port: nat)
    ensures port in UsedPorts(h, listed) <==> Taken(h, listed, port)
  {
    hide Loads;
    if listed != [] {
      var n := |listed| - 1;
      UsedIff(h, listed[..n], port);
      assert listed == listed[..n] + [listed[n]];
      assert forall p :: p in listed <==> p in listed[..n] || p == listed[n];
    }
  }

  // Some added wrapper for a URL got the port.
  predicate Given(added: seq<Added>, port: nat) { exists i :: 0 <= i < |added| && added[i].server.url != "" && added[i].content.localPort == port > 0 }

  // Each added wrapper for a URL has the first of the 200 ports that was neither taken nor given before, or none if there was none.
  ghost predicate FirstComeFirstServed(w: World, used: set<nat>, added: seq<Added>, i: nat)
    requires i < |added|
  {
    var port := added[i].content.localPort;
    && (port == 0 ==> forall p: nat :: 54300 <= p < 54500 ==> p in used || Given(added[..i], p) || !w.bindable(p))
    && (port != 0 ==>
          && 54300 <= port < 54500 && port !in used && !Given(added[..i], port) && w.bindable(port)
          && forall p: nat :: 54300 <= p < port ==> p in used || Given(added[..i], p) || !w.bindable(p))
  }

  ghost predicate PortsOk(w: World, used: set<nat>, added: seq<Added>) {
    forall i: nat :: i < |added| && added[i].server.url != "" ==> FirstComeFirstServed(w, used, added, i)
  }

  lemma FreePortIs(w: World, used: set<nat>)
    ensures FreePort(w, used).None? <==> forall p: nat :: !Free(w, used, p)
    ensures FreePort(w, used).Some? ==> FirstFree(w, used, FreePort(w, used).value)
  {
    if p: nat :| Free(w, used, p) {
      LeastFree(w, used, p);
    }
  }

  lemma {:induction false} LeastFree(w: World, used: set<nat>, p: nat)
    requires Free(w, used, p)
    ensures exists q: nat :: FirstFree(w, used, q)
  {
    if q: nat :| q < p && Free(w, used, q) {
      LeastFree(w, used, q);
    } else {
      assert FirstFree(w, used, p);
    }
  }

  lemma OnePort(e: Env, before: Additions, used: set<nat>, s: RawServer)
    requires PortsOk(e.w, used, before.added) && (forall p: nat :: p in before.used <==> p in used || Given(before.added, p))
    ensures var after := AddOne(e, before, s);
            && PortsOk(e.w, used, after.added) && (forall p: nat :: p in after.used <==> p in used || Given(after.added, p))
  {
    hide OwnPath, SplitCommand, Stateful, OAuthManaged, FreePort, FirstComeFirstServed;
    var after := AddOne(e, before, s);
    var n := |before.added|;
    FreePortIs(e.w, before.used);
    assert after.added[..n] == before.added;
    assert after.added[n].server == s;
    forall p: nat ensures Given(after.added, p) <==> Given(before.added, p) || (s.url != "" && after.added[n].content.localPort == p > 0) {
      GivenMore(before.added, after.added[n], p);
    }
    forall i: nat | i < |after.added| && after.added[i].server.url != "" ensures FirstComeFirstServed(e.w, used, after.added, i) {
      if i < n {
        assert FirstComeFirstServed(e.w, used, before.added, i);
        EarlierSame(e.w, used, before.added, after.added[n], i);
      } else {
        LastServed(e, before, used, s);
      }
    }
  }

  lemma GivenMore(added: seq<Added>, a: Added, p: nat)
    ensures Given(added + [a], p) <==> Given(added, p) || (a.server.url != "" && a.content.localPort == p > 0)
  {
    if Given(added, p) {
      var i :| 0 <= i < |added| && added[i].server.url != "" && added[i].content.localPort == p > 0;
      assert (added + [a])[i] == added[i];
    }
    if a.server.url != "" && a.content.localPort == p > 0 {
      assert (added + [a])[|added|] == a;
    }
  }

  lemma EarlierSame(w: World, used: set<nat>, added: seq<Added>, a: Added, i: nat)
    requires i < |added| && FirstComeFirstServed(w, used, added, i)
    ensures FirstComeFirstServed(w, used, added + [a], i)
  {
    hide Given;
    assert (added + [a])[..i] == added[..i];
  }

  lemma LastServed(e: Env, before: Additions, used: set<nat>, s: RawServer)
    requires s.url != "" && (forall p: nat :: p in before.used <==> p in used || Given(before.added, p))
    ensures FirstComeFirstServed(e.w, used, AddOne(e, before, s).added, |before.added|)
  {
    hide OwnPath, SplitCommand, Stateful, OAuthManaged, FreePort, Given;
    var added := AddOne(e, before, s).added;
    FreePortIs(e.w, before.used);
    assert added[..|before.added|] == before.added;
    forall p: nat | 54300 <= p < 54500 ensures Free(e.w, before.used, p) <==> !(p in used || Given(before.added, p) || !e.w.bindable(p)) {
    }
  }

  lemma {:induction false} AllPorts(e: Env, current: map<string, RawServer>, taken: set<string>, used: set<nat>, keys: seq<string>)
    requires forall i :: 0 <= i < |keys| ==> keys[i] in current
    ensures var r := AddAll(e, current, taken, used, keys);
            PortsOk(e.w, used, r.added) && forall p: nat :: p in r.used <==> p in used || Given(r.added, p)
  {
    hide PortsOk, AddOne, Given;
    if keys == [] {
      NoneGiven(e.w, used);
    } else {
      var n := |keys| - 1;
      AllPorts(e, current, taken, used, keys[..n]);
      if keys[n] !in taken {
        OnePort(e, AddAll(e, current, taken, used, keys[..n]), used, current[keys[n]]);
      }
    }
  }

  lemma NoneGiven(w: World, used: set<nat>)
    ensures PortsOk(w, used, []) && forall p: nat :: !Given([], p)
  {
  }

  /**
    The wrappers that a run adds for URLs get, in their order, the first ports from 54300 to 54499 that can
    be bound and that no other of them and no configuration listed by the daemon has.
  */
  lemma PortsGiven(e: Env, h: Home, plan: Plan)
    requires IsPlan(e, h, plan)
    ensures forall i: nat :: i < |plan.added| && plan.added[i].server.url != "" ==>
              FirstComeFirstServed(e.w, UsedPorts(h, ListedPaths(h)), plan.added, i)
    ensures forall port: nat :: port in UsedPorts(h, ListedPaths(h)) <==> Taken(h, ListedPaths(h), port)
  {
    hide ScanServers, ExistingIn, AddAll, AddPorts, KeptPorts, KeptPaths, AddedPaths, Sort, Paths, Absent, RenderBlockers, Plannable, UsedPorts,
         FirstComeFirstServed, Taken;
    assert NewPlan(e, h) == Some(plan);
    var current := Current(e, h);
    AllPorts(e, current, Keys(ExistingIn(e, h)), UsedPorts(h, ListedPaths(h)), Ascending(current.Keys));
    forall port: nat ensures port in UsedPorts(h, ListedPaths(h)) <==> Taken(h, ListedPaths(h), port) {
      UsedIff(h, ListedPaths(h), port);
    }
  }

  /** No two added wrappers share a port, and none shares one with a wrapper that the daemon lists. */
  lemma PortsApart(e: Env, h: Home, plan: Plan, i: nat)
    requires IsPlan(e, h, plan) && i < |plan.added| && plan.added[i].server.url != "" && plan.added[i].content.localPort != 0
    ensures forall j: nat :: j < i && plan.added[j].server.url != "" ==> plan.added[j].content.localPort != plan.added[i].content.localPort
    ensures forall x :: x in plan.existing && x.path in ListedPaths(h) ==> x.port != plan.added[i].content.localPort
  {
    hide IsPlan, UsedPorts, Loads, InDir, CanonicalName;
    PortsGiven(e, h, plan);
    var port := plan.added[i].content.localPort;
    assert FirstComeFirstServed(e.w, UsedPorts(h, ListedPaths(h)), plan.added, i);
    forall j: nat | j < i && plan.added[j].server.url != "" ensures plan.added[j].content.localPort != port {
      assert plan.added[..i][j] == plan.added[j];
    }
    forall x | x in plan.existing && x.path in ListedPaths(h) ensures x.port != port {
      ExistingEntry(e, h, plan, x);
      ListedTaken(e, h, x);
    }
  }

  lemma ListedTaken(e: Env, h: Home, x: Existing)
    requires Entry(e, h, x) && x.path in ListedPaths(h)
    ensures forall port: nat :: port == x.port > 0 ==> Taken(h, ListedPaths(h), port)
  {
    hide Loads, InDir, CanonicalName;
  }

  // ------------------------------------------------------------------- a port taken twice

  // The wrapper foo has a port; no daemon configuration lists it, and the URL bar is to be wrapped.
  function Unlisted(dir: string): Home {
    Home([ClientFile(true, Json, [Remote("foo", "http", "http://127.0.0.1:54300"), Remote("bar", "http", "https://h/sse").(auth := "none")])],
         map[OwnPath(dir, "foo") := Some(FooConfig().(localPort := 54300))], None)
  }

  lemma UnlistedListed(e: Env, h: Home)
    requires Ordinary(e) && h == Unlisted(e.dir)
    ensures Plannable(e, h) && Keys(ExistingIn(e, h)) == {"foo"} && forall x :: x in ExistingIn(e, h) ==> x.port == 54300
  {
    hide Loads, InDir, ExistingIn, OwnPath, CanonicalName, Key, Ordinary;
    var p := OwnPath(e.dir, "foo");
    assert Loads(FooConfig().(localPort := 54300)) by { PortLoads(); }
    Words();
    OwnPathInDir(e.dir, "foo");
    forall i | 0 <= i < |DirPaths(e, h)| ensures LoadsAt(h, DirPaths(e, h)[i]) {
      assert DirPaths(e, h)[i] in DirPaths(e, h);
    }
    OneListed(e, h, p);
    ExistingListed(e, h);
    forall x | x in ExistingIn(e, h) ensures x.port == 54300 {
      assert Entry(e, h, x);
    }
  }

  lemma PortLoads()
    ensures Loads(FooConfig().(localPort := 54300))
  {
    BlankIsBlank();
  }

  lemma FooShown(e: Env, socket: string)
    ensures var s := Remote("foo", "http", "http://127.0.0.1:54300"); IsRef(e.w, s, socket)
  {
    var s := Remote("foo", "http", "http://127.0.0.1:54300");
    TrimFixed(s.url, IsSpace);
    assert s.url[..17] == LOCAL_PREFIX;
    hide TrimSpace;
  }

  lemma UnlistedServers(e: Env, h: Home, socket: string) returns (foo: RawServer, bar: RawServer)
    requires Ordinary(e) && e.w.base("") == "." && h == Unlisted(e.dir)
    ensures forall s :: s in AllServers(h.clients) <==> s == foo || s == bar
    ensures ToWrap(e.w, socket, bar) && !ToWrap(e.w, socket, foo) && Shown(e.w, socket, foo)
    ensures Key(foo.name) == "foo" && Key(bar.name) == "bar" && CanonicalName(foo.name) != "" && CanonicalName(bar.name) != "" && bar.url != ""
  {
    hide ToWrap, Shown, Wrappable, CanonicalName, Key, Ordinary, IsRef;
    foo, bar := h.clients[0].servers[0], h.clients[0].servers[1];
    Words();
    AllServersOf(h);
    RemoteToWrap(e, socket, bar);
    FooShown(e, socket);
    RefNotToWrap(e, socket, foo);
  }

  lemma UnlistedKeys(e: Env, h: Home)
    requires Ordinary(e) && e.w.base("") == "." && h == Unlisted(e.dir)
    ensures HomeOk(h) && "foo" in Present(e, h) && "bar" in Current(e, h)
    ensures forall k :: k in Current(e, h) ==> k == "bar" && Current(e, h)[k].url != ""
  {
    hide Unlisted, ToWrap, Shown, CanonicalName, Key, Ordinary, LooseSocket, ScanServers, AllServers;
    var servers, socket := AllServers(h.clients), LooseSocket(e, h);
    var foo, bar := UnlistedServers(e, h, socket);
    assert foo in servers && bar in servers;
    assert Shows(e.w, socket, servers, "foo") && WrapsKey(e.w, socket, servers, "bar");
    forall k ensures k in Present(e, h) <==> Shows(e.w, socket, servers, k)
             ensures k in Current(e, h) <==> WrapsKey(e.w, socket, servers, k) {
      ScanFinds(e.w, socket, servers, k);
    }
    forall k | k in Current(e, h) ensures k == "bar" && Current(e, h)[k].url != "" {
      ScanKeepsFirst(e.w, socket, servers, k);
    }
  }

  lemma RefNotToWrap(e: Env, socket: string, s: RawServer)
    requires IsRef(e.w, s, socket)
    ensures !ToWrap(e.w, socket, s) && Shown(e.w, socket, s)
  {
  }

  lemma OnlyBar(e: Env, h: Home, plan: Plan)
    requires HomeOk(h) && IsPlan(e, h, plan) && forall k :: k in Current(e, h) ==> k == "bar"
    ensures |plan.added| <= 1
  {
    hide ScanServers, Plannable, ExistingIn, AddAll, Absent, KeptPaths, AddPorts, KeptPorts, ReplaceAll, FreePort, Paths, Sort, Keys, UsedPorts,
         Key, BuiltFrom, OwnPath, AddedPaths;
    assert NewPlan(e, h) == Some(plan);
    HomeNames(h);
    var current := Current(e, h);
    forall k | k in current ensures Key(current[k].name) == k {
      CurrentNamed(e, h, k);
    }
    if |plan.added| > 1 {
      AddedKeysDistinct(e, current, Keys(ExistingIn(e, h)), UsedPorts(h, ListedPaths(h)), Ascending(current.Keys), 0, 1);
      AddedFrom(e, h, plan, plan.added[0]);
      AddedFrom(e, h, plan, plan.added[1]);
      assert false;
    }
  }

  lemma {:induction false} NoneBlocked(e: Env, current: map<string, RawServer>, taken: set<string>, used: set<nat>, keys: seq<string>)
    requires forall i :: 0 <= i < |keys| ==> keys[i] in current
    requires forall a :: a in AddAll(e, current, taken, used, keys).added && a.server.url != "" ==> a.content.localPort != 0
    ensures AddAll(e, current, taken, used, keys).blockers == []
  {
    if keys != [] {
      hide OwnPath, FreePort, SplitCommand, Stateful, OAuthManaged;
      var n := |keys| - 1;
      var before := AddAll(e, current, taken, used, keys[..n]);
      assert forall a :: a in before.added ==> a in AddAll(e, current, taken, used, keys).added;
      NoneBlocked(e, current, taken, used, keys[..n]);
      if keys[n] !in taken {
        var all := AddOne(e, before, current[keys[n]]).added;
        assert all[|before.added|] in all;
      }
    }
  }

  lemma AdditionsFree(e: Env, h: Home, plan: Plan)
    requires IsPlan(e, h, plan) && forall a :: a in plan.added && a.server.url != "" ==> a.content.localPort != 0
    ensures Plannable(e, h) && AdditionsFor(e, h).blockers == []
  {
    hide ScanServers, Plannable, ExistingIn, AddAll, Absent, KeptPaths, AddPorts, KeptPorts, ReplaceAll, FreePort, Paths, Sort, Keys, UsedPorts,
         AddedPaths, RenderBlockers;
    assert NewPlan(e, h) == Some(plan);
    var current := Current(e, h);
    NoneBlocked(e, current, Keys(ExistingIn(e, h)), UsedPorts(h, ListedPaths(h)), Ascending(current.Keys));
  }

  // The added wrapper gets the first port.
  lemma FirstPort(e: Env, h: Home, plan: Plan)
    requires IsPlan(e, h, plan) && |plan.added| == 1 && plan.added[0].server.url != "" && e.w.bindable(54300) && ListedPaths(h) == []
    ensures plan.added[0].content.localPort == 54300
  {
    hide IsPlan;
    PortsGiven(e, h, plan);
    assert FirstComeFirstServed(e.w, UsedPorts(h, []), plan.added, 0);
    assert plan.added[..0] == [] && UsedPorts(h, []) == {};
  }

  /** A home for which a run adds a wrapper on the port of a kept one: the daemon configuration does not list that one. */
  lemma PortTakenTwice(e: Env, h: Home) returns (plan: Plan, x: Existing)
    requires Ordinary(e) && e.w.base("") == "." && e.w.bindable(54300) && h == Unlisted(e.dir)
    ensures IsPlan(e, h, plan) && plan.blockers == [] && |plan.added| == 1
    ensures x in plan.existing && x.path !in Paths(plan.removed) && x.port == plan.added[0].content.localPort == 54300
  {
    hide Ordinary, ToWrap, Key, CanonicalName, ScanServers, Plannable, OwnPath, ExistingIn, Loads, LooseSocket, AddAll, AdditionsFor, Absent,
         KeptPaths, AddPorts, KeptPorts, ReplaceAll, FreePort, Paths, AddedPaths, Sort, Keys, RenderBlockers, UsedPorts, InDir, AnyRewritten, BuiltFrom;
    UnlistedListed(e, h);
    UnlistedKeys(e, h);
    plan := PlanOf(e, h);
    assert IsPlan(e, h, plan);
    OnlyBar(e, h, plan);
    AddedFor(e, h, plan, "bar") by { assert "bar" !in Keys(plan.existing); }
    AddedFrom(e, h, plan, plan.added[0]);
    FirstPort(e, h, plan);
    AdditionsFree(e, h, plan);
    KeysMember(plan.existing, "foo");
    x :| x in plan.existing && Key(x.name) == "foo";
    UpdateEntries.NotRemoved(e, h, plan, x);
    PathsMember(plan.existing, x.path);
    NextPathsMember(e, h, plan, x.path);
    NoRenderBlockers(e.w, plan.ports, h.clients);
    OrdinaryParts(e);
    PlanBlockers(e, h, plan);
  }
}
