/**
  The guarantees of the daemon, over every run: conservation of proxies and log closers,
  reloads that commit or change nothing, and what a graceful reload promises to the clients
  it finds.
*/
module DaemonTheorems {
  import opened Options
  import opened Daemon
  import opened DaemonSafety

  // ----------------------------------------------------------------------------- conservation

  ghost predicate RetainedIn(s: State, i: nat, p: nat) {
    i < |s.retained| && (p in s.retained[i].held.proxies.Values || p in s.retained[i].held.closers.Values)
  }

  ghost predicate InService(s: State, p: nat) {
    !s.stopped && (p in s.served.proxies.Values || p in s.served.closers.Values)
  }

  /**
    In every reachable state a shared proxy or log closer that was ever made is served, or in
    exactly one retained set, or closed exactly once; after a shutdown it is closed.
  */
  lemma Conservation(s: State, p: nat)
    requires Reachable(s) && (p in s.built || p in s.logFiles)
    ensures s.closed[p] <= 1
    ensures s.closed[p] == 0 <==> InService(s, p) || exists i :: RetainedIn(s, i, p)
    ensures InService(s, p) ==> forall i :: !RetainedIn(s, i, p)
    ensures forall i, j :: RetainedIn(s, i, p) && RetainedIn(s, j, p) ==> i == j
    ensures s.stopped ==> s.closed[p] == 1
  {
    ReachableInv(s);
    var pool := if p in s.built then ProxyPool(s) else CloserPool(s);
    forall i: nat
      ensures RetainedIn(s, i, p) <==> i < |pool.kept| && p in pool.kept[i].Values
    {
      if i < |s.retained| {
        HeldIsMade(s, i);
      }
    }
    if !s.stopped {
      ObsoleteIsMade(s, {});
      assert Minus(s.served, {}) == s.served;
      assert InService(s, p) <==> p in pool.current.Values;
    }
    assert InKept(pool.kept, p) <==> exists i :: RetainedIn(s, i, p);
  }

  /**
    A session proxy is never shared, belongs to one client, and is closed once, when that
    client's handler ends; a reload does not touch it.
  */
  lemma SessionProxies(s: State, c: nat)
    requires Reachable(s) && c in s.active && s.active[c].session
    ensures var p := s.active[c].proxy;
            && s.closed[p] == 0 && p !in s.built
            && (forall d :: d in s.active && d != c ==> s.active[d].proxy != p)
            && (forall mode, source :: Step(s, Reload(mode, source)).active == s.active && Step(s, Reload(mode, source)).closed[p] == 0)
            && Step(s, Disconnect(c)).closed[p] == 1
  {
    ReachableInv(s);
    var p := s.active[c].proxy;
    assert RunsOn(s.active, p);
    forall mode, source
      ensures Step(s, Reload(mode, source)).active == s.active && Step(s, Reload(mode, source)).closed[p] == 0
    {
      StepInv(s, Reload(mode, source));
      ReloadKeepsClients(s, mode, source);
    }
    StepInv(s, Disconnect(c));
    DisconnectForgets(s, c);
    assert !RunsOn(Step(s, Disconnect(c)).active, p);
  }

  // The identity has not been handed out.
  ghost predicate Unused(s: State, p: nat) {
    p !in s.built && p !in s.logFiles && p !in s.sessions && s.closed[p] == 0 && forall c :: c in s.active ==> s.active[c].proxy != p
  }

  // One more client: on the shared proxy of the name, or on a session proxy of its own.
  ghost predicate Bound(s: State, t: State, name: string, id: nat)
    requires name in s.served.configs
  {
    && id !in s.active && id in t.active && t.active.Keys == s.active.Keys + {id} && t.active == s.active[id := t.active[id]]
    && t.active[id].name == name && t.active[id].generation == s.generation
    && var p := t.active[id].proxy;
       match s.served.configs[name].sharing
       case Shared => !t.active[id].session && name in s.served.proxies && p == s.served.proxies[name] && t.sessions == s.sessions
       case Session => t.active[id].session && Unused(s, p) && t.sessions == s.sessions + {p}
  }

  /**
    Binding adds exactly one client if the name is configured, shared or not, and changes nothing if
    it is not: the client is in the current generation, on the shared proxy of the name or on a
    session proxy that nobody had before.
  */
  lemma BindAddsClient(s: State, name: string)
    requires Reachable(s) && !s.stopped
    ensures var t := Step(s, Bind(name));
            && (name !in s.served.configs ==> t == s)
            && (name in s.served.configs ==>
                  && Bound(s, t, name, t.nextClient)
                  && t.served == s.served && t.generation == s.generation && t.retained == s.retained && t.closed == s.closed)
            && (t.active != s.active <==> name in s.served.configs)
  {
    ReachableInv(s);
    assert NameOk(s.served, name);
    var t := Step(s, Bind(name));
    if name in s.served.configs {
      assert t.active[t.nextClient].name == name;
      forall c | c in s.active ensures s.active[c].proxy < s.nextId && c < t.nextClient {
      }
    }
  }

  /** Some reachable state has an active client with a session proxy. */
  lemma SessionClientExists(source: Source) returns (s: State, client: nat)
    requires source == Paths([Loaded(Config("a", Session, "", 0), true)])
    ensures Reachable(s) && client in s.active && s.active[client].session
  {
    assert Run(INIT, []) == INIT;
    assert Reachable(INIT);
    var plain := Mode(false, false);
    var t := Step(INIT, Reload(plain, source));
    assert source.files[..0] == [];
    assert Loadable(INIT.served, source.files);
    ReloadSucceedsIff(INIT, plain, source);
    ReloadCommits(INIT, plain, source, t);
    assert Serves(INIT, t, source.files[0].config);
    ReachableStep(INIT, Reload(plain, source));
    CommitStep(INIT, plain, source);
    BindAddsClient(t, "a");
    ReachableStep(t, Bind("a"));
    s := Step(t, Bind("a"));
    client := s.nextClient;
  }

  /**
    A reload that is not graceful closes at once every shared proxy that it no longer serves, and
    retains nothing.
  */
  lemma OtherReloadsClose(s: State, mode: Mode, source: Source, p: nat)
    requires Reachable(s) && !s.stopped && !mode.graceful && ReloadSucceeds(s, mode, source)
    requires p in s.served.proxies.Values && p !in Step(s, Reload(mode, source)).served.proxies.Values
    ensures var t := Step(s, Reload(mode, source)); t.closed[p] == 1 && t.retained == s.retained
  {
    ReachableInv(s);
    StepInv(s, Reload(mode, source));
    var t := Step(s, Reload(mode, source));
    CommitStep(s, mode, source);
    assert t.retained == s.retained;
    assert p in ProxyPool(s).current.Values;
    assert p in t.built;
    forall i | 0 <= i < |ProxyPool(t).kept| ensures p !in ProxyPool(t).kept[i].Values {
      assert ProxyPool(t).kept[i] == ProxyPool(s).kept[i];
    }
  }

  /** Which reloads are allowed: not both forced and graceful, and neither only if no client is active. */
  lemma AllowedIff(s: State, mode: Mode)
    ensures ReloadAllowed(s, mode) <==>
            match (mode.force, mode.graceful) case (true, true) => false case (false, false) => |s.active| == 0 case _ => true
  {
    if |s.active| == 0 {
      assert s.active.Keys == {};
      assert s.active == map[];
    }
  }

  lemma DisconnectForgets(s: State, c: nat)
    requires c in s.active
    ensures Step(s, Disconnect(c)).active == s.active - {c} && Step(s, Disconnect(c)).sessions == s.sessions
  {
  }

  lemma ReloadKeepsClients(s: State, mode: Mode, source: Source)
    ensures Step(s, Reload(mode, source)).active == s.active && Step(s, Reload(mode, source)).sessions == s.sessions
  {
  }

  // ---------------------------------------------------------------------------- generations

  /** Retained sets carry different tags below the current generation, each with an active client. */
  lemma RetainedHaveClients(s: State)
    requires Reachable(s)
    ensures forall c :: c in s.active ==> s.active[c].generation <= s.generation
    ensures forall i :: 0 <= i < |s.retained| ==> s.retained[i].generation < s.generation && ActiveIn(s.active, s.retained[i].generation)
    ensures forall i, j :: 0 <= i < j < |s.retained| ==> s.retained[i].generation != s.retained[j].generation
  {
    ReachableInv(s);
  }

  /** While anything is retained a plain reload is refused: one that is allowed finds nothing retained. */
  lemma RetainedMeansBusy(s: State)
    requires Reachable(s) && s.retained != []
    ensures !ReloadAllowed(s, Mode(false, false))
  {
    ReachableInv(s);
    assert ActiveIn(s.active, s.retained[0].generation);
  }

  // -------------------------------------------------------------------------------- reloading

  // Every file is readable, no name comes twice, and every log that has to be opened opens.
  predicate Loadable(served: Served, files: seq<FileOutcome>) {
    && (forall i :: 0 <= i < |files| ==> files[i].Loaded?)
    && (forall i, j :: 0 <= i < j < |files| ==> files[i].config.name != files[j].config.name)
    && (forall i :: 0 <= i < |files| ==> Unchanged(served, files[i].config) || files[i].config.logFile == "" || files[i].log)
  }

  // The file is taken over as it stands, and reused if and only if its configuration is unchanged.
  predicate TakenOver(a: Attempt, served: Served, f: FileOutcome) {
    && f.Loaded? && f.config.name in a.next.configs && a.next.configs[f.config.name] == f.config
    && (f.config.name in a.reused <==> Unchanged(served, f.config))
  }

  ghost predicate Mentions(files: seq<FileOutcome>, n: string) {
    exists i :: 0 <= i < |files| && files[i].Loaded? && files[i].config.name == n
  }

  ghost predicate Named(a: Attempt, served: Served, files: seq<FileOutcome>) {
    && (forall i :: 0 <= i < |files| ==> TakenOver(a, served, files[i]))
    && (forall n :: n in a.next.configs ==> Mentions(files, n))
  }

  lemma MentionsMore(init: seq<FileOutcome>, f: FileOutcome, n: string)
    ensures Mentions(init + [f], n) <==> Mentions(init, n) || (f.Loaded? && f.config.name == n)
  {
    if Mentions(init, n) {
      var i :| 0 <= i < |init| && init[i].Loaded? && init[i].config.name == n;
      assert (init + [f])[i] == init[i];
    }
    assert (init + [f])[|init|] == f;
  }

  lemma TakenOverMore(a: Attempt, served: Served, g: FileOutcome, f: FileOutcome)
    requires TakenOver(a, served, g) && Acceptable(served, a, f)
    ensures TakenOver(LoadOne(served, a, f), served, g)
  {
  }

  lemma TakenOverLast(a: Attempt, served: Served, f: FileOutcome)
    requires Acceptable(served, a, f) && a.reused <= a.next.configs.Keys
    ensures TakenOver(LoadOne(served, a, f), served, f)
    ensures LoadOne(served, a, f).next.configs.Keys == a.next.configs.Keys + {f.config.name}
  {
  }

  lemma NamedMore(a: Attempt, served: Served, init: seq<FileOutcome>, f: FileOutcome)
    requires Named(a, served, init) && Acceptable(served, a, f) && a.reused <= a.next.configs.Keys
    ensures Named(LoadOne(served, a, f), served, init + [f])
  {
    TakenOverLast(a, served, f);
    forall i | 0 <= i < |init| ensures TakenOver(LoadOne(served, a, f), served, init[i]) {
      TakenOverMore(a, served, init[i], f);
    }
    forall n | n in LoadOne(served, a, f).next.configs ensures Mentions(init + [f], n) {
      MentionsMore(init, f, n);
    }
  }

  lemma LoadLast(served: Served, nextId: nat, init: seq<FileOutcome>, f: FileOutcome)
    ensures var before := Load(served, nextId, init);
            Load(served, nextId, init + [f]) ==
            if before.1 && Acceptable(served, before.0, f) then (LoadOne(served, before.0, f), true) else (before.0, false)
  {
    assert (init + [f])[..|init|] == init;
  }

  lemma {:induction false} LoadNamed(served: Served, nextId: nat, files: seq<FileOutcome>)
    requires WellServed(served) && Load(served, nextId, files).1
    ensures Named(Load(served, nextId, files).0, served, files)
  {
    if files != [] {
      var init, f := files[..|files| - 1], files[|files| - 1];
      assert files == init + [f];
      LoadLast(served, nextId, init, f);
      LoadNamed(served, nextId, init);
      LoadKeepsInv(served, nextId, init);
      NamedMore(Load(served, nextId, init).0, served, init, f);
    }
  }

  // After a successful attempt a name is taken if and only if a file mentions it.
  lemma TakenNames(a: Attempt, served: Served, init: seq<FileOutcome>, f: FileOutcome)
    requires Named(a, served, init)
    ensures Acceptable(served, a, f) <==>
            && f.Loaded? && !Mentions(init, f.config.name)
            && (Unchanged(served, f.config) || f.config.logFile == "" || f.log)
  {
    if f.Loaded? && Mentions(init, f.config.name) {
      var i :| 0 <= i < |init| && init[i].Loaded? && init[i].config.name == f.config.name;
      assert TakenOver(a, served, init[i]);
    }
  }

  lemma LoadableMore(served: Served, init: seq<FileOutcome>, f: FileOutcome)
    ensures Loadable(served, init + [f]) <==>
            && Loadable(served, init) && f.Loaded? && !Mentions(init, f.config.name)
            && (Unchanged(served, f.config) || f.config.logFile == "" || f.log)
  {
    var files := init + [f];
    assert files[|init|] == f && forall i :: 0 <= i < |init| ==> files[i] == init[i];
    if Loadable(served, files) {
      assert forall i :: 0 <= i < |init| ==> init[i].config.name != files[|init|].config.name;
    }
  }

  /** An attempt succeeds exactly on readable files with distinct names whose new logs open. */
  lemma {:induction false} LoadSucceedsIff(served: Served, nextId: nat, files: seq<FileOutcome>)
    requires WellServed(served)
    ensures Load(served, nextId, files).1 <==> Loadable(served, files)
  {
    if files != [] {
      var init, f := files[..|files| - 1], files[|files| - 1];
      assert files == init + [f];
      LoadLast(served, nextId, init, f);
      LoadSucceedsIff(served, nextId, init);
      LoadableMore(served, init, f);
      if Load(served, nextId, init).1 {
        LoadNamed(served, nextId, init);
        TakenNames(Load(served, nextId, init).0, served, init, f);
      }
    }
  }

  // What a name serves: its proxy and log closer, if it has them, its logger and its stats.
  function ServedAs(served: Served, n: string): (Option<nat>, Option<nat>, Option<nat>, Option<nat>) {
    (Lookup(served.proxies, n), Lookup(served.closers, n), Lookup(served.loggers, n), Lookup(served.stats, n))
  }

  function Lookup(m: map<string, nat>, n: string): Option<nat> { if n in m then Some(m[n]) else None }

  predicate NewFrom(o: Option<nat>, lo: nat) { o.Some? ==> o.value >= lo }

  /** A reload succeeds exactly when it is allowed and every file can be taken over. */
  lemma ReloadSucceedsIff(s: State, mode: Mode, source: Source)
    requires Reachable(s)
    ensures ReloadSucceeds(s, mode, source) <==>
            ReloadAllowed(s, mode) && source.Paths? && source.files != [] && Loadable(s.served, source.files)
  {
    ReachableInv(s);
    if source.Paths? {
      LoadSucceedsIff(s.served, s.nextId, source.files);
    }
  }

  // What t serves under the name of c, after a reload of s.
  predicate Serves(s: State, t: State, c: Config) {
    && c.name in t.served.configs && t.served.configs[c.name] == c
    && c.name in t.served.loggers && c.name in t.served.stats
    && (c.name in t.served.proxies <==> c.sharing == Shared)
    && (c.name in t.served.closers <==> c.logFile != "")
    && var as' := ServedAs(t.served, c.name);
       if Unchanged(s.served, c) then as' == ServedAs(s.served, c.name)
       else NewFrom(as'.0, s.nextId) && NewFrom(as'.1, s.nextId) && NewFrom(as'.2, s.nextId) && NewFrom(as'.3, s.nextId)
  }

  lemma CommitStep(s: State, mode: Mode, source: Source)
    requires !s.stopped && ReloadSucceeds(s, mode, source)
    ensures var t, a := Step(s, Reload(mode, source)), Load(s.served, s.nextId, source.files).0;
            t == Committed(s, a).(retained := t.retained, closed := t.closed)
  {
  }

  /**
    A successful reload serves exactly the names in the files, each with its configuration; a
    name whose configuration is unchanged keeps its proxy, log closer, logger and stats, any
    other gets new ones.
  */
  lemma ReloadCommits(s: State, mode: Mode, source: Source, t: State)
    requires Reachable(s) && !s.stopped && ReloadSucceeds(s, mode, source)
    requires t == Step(s, Reload(mode, source))
    ensures t.generation == s.generation + 1 && t.active == s.active
    ensures forall n :: n in t.served.configs <==> Mentions(source.files, n)
    ensures forall i :: 0 <= i < |source.files| ==> source.files[i].Loaded? && Serves(s, t, source.files[i].config)
  {
    hide Step, Load, Inv, LoadInv, WellServed;
    ReachableInv(s);
    CommitStep(s, mode, source);
    ServedOf(s);
    var a := Load(s.served, s.nextId, source.files).0;
    LoadNamed(s.served, s.nextId, source.files);
    LoadKeepsInv(s.served, s.nextId, source.files);
    forall n | Mentions(source.files, n) ensures n in a.next.configs {
      var i :| 0 <= i < |source.files| && source.files[i].Loaded? && source.files[i].config.name == n;
      assert TakenOver(a, s.served, source.files[i]);
    }
    forall i | 0 <= i < |source.files| ensures source.files[i].Loaded? && Serves(s, t, source.files[i].config) {
      assert TakenOver(a, s.served, source.files[i]);
      LoadServes(s.served, s.nextId, a, source.files[i].config.name);
    }
  }

  lemma ServedOf(s: State)
    requires Inv(s)
    ensures WellServed(s.served)
  {
  }

  lemma LoadServes(served: Served, nextId: nat, a: Attempt, n: string)
    requires WellServed(served) && LoadInv(served, nextId, a) && n in a.next.configs
    ensures n in a.reused ==> ServedAs(a.next, n) == ServedAs(served, n)
    ensures n !in a.reused ==> var as' := ServedAs(a.next, n);
              NewFrom(as'.0, nextId) && NewFrom(as'.1, nextId) && NewFrom(as'.2, nextId) && NewFrom(as'.3, nextId)
    ensures (n in a.next.proxies <==> a.next.configs[n].sharing == Shared) && (n in a.next.closers <==> a.next.configs[n].logFile != "")
    ensures n in a.next.loggers && n in a.next.stats
  {
    assert NameOk(a.next, n) && NameOk(served, n);
  }

  /**
    A reload that fails leaves everything served, the generation, the retained sets and the
    clients as they were, and closes exactly what it opened itself.
  */
  lemma FailedReloadChangesNothing(s: State, mode: Mode, source: Source)
    requires Reachable(s) && !s.stopped && !ReloadSucceeds(s, mode, source)
    ensures var t := Step(s, Reload(mode, source));
            && t == s.(nextId := t.nextId, built := t.built, logFiles := t.logFiles, closed := t.closed)
            && s.built <= t.built && s.logFiles <= t.logFiles
            && (forall p :: p in t.built - s.built || p in t.logFiles - s.logFiles ==> t.closed[p] == 1)
            && (forall p :: p !in t.built - s.built && p !in t.logFiles - s.logFiles ==> t.closed[p] == s.closed[p])
  {
    ReachableInv(s);
    if ReloadAllowed(s, mode) && source.Paths? && source.files != [] {
      LoadKeepsInv(s.served, s.nextId, source.files);
      CreatedIsNew(s, Load(s.served, s.nextId, source.files).0);
    }
  }

  // --------------------------------------------------------------- what graceful promises

  const GRACEFUL := Mode(false, true)

  predicate NoShutdown(ops: seq<Op>) { forall i :: 0 <= i < |ops| ==> !ops[i].Shutdown? }

  // Client c is one of the users that s had of proxy p.
  predicate Uses(s: State, c: nat, p: nat) { c in s.active && s.active[c].proxy == p && !s.active[c].session }

  // While one of the users that s had of p is still there, p is open in t.
  ghost predicate StaysOpen(s: State, t: State, p: nat) {
    (exists c :: Uses(s, c, p) && c in t.active) ==> t.closed[p] == 0
  }

  // A graceful reload of s succeeds and no longer serves p, which s did.
  ghost predicate Retires(s: State, source: Source, p: nat) {
    ReloadSucceeds(s, GRACEFUL, source) && p in s.served.proxies.Values
    && p !in Step(s, Reload(GRACEFUL, source)).served.proxies.Values
  }

  ghost predicate Retained(t: State, g: nat, p: nat) {
    exists i :: 0 <= i < |t.retained| && t.retained[i].generation == g && p in t.retained[i].held.proxies.Values
  }

  /** p is not served and is held for generation g alone, as long as that generation has a client. */
  ghost predicate HeldFor(t: State, g: nat, p: nat) {
    && !t.stopped && p in t.built && g < t.generation
    && p !in t.served.proxies.Values
    && (ActiveIn(t.active, g) ==> Retained(t, g, p))
    && (forall i :: 0 <= i < |t.retained| && p in t.retained[i].held.proxies.Values ==> t.retained[i].generation == g)
  }

  // A proxy that is not taken over is among the obsolete ones.
  lemma NotTaken(next: map<string, nat>, created: map<string, nat>, from: map<string, nat>, reused: set<string>, p: nat)
    requires Takes(next, created, from, reused) && p in from.Values && p !in next.Values
    ensures p in (from - reused).Values
    ensures exists n :: n in from && n !in reused
  {
    var n :| n in from && from[n] == p;
    assert n in next ==> next[n] in next.Values;
    assert n in (from - reused) && (from - reused)[n] == p;
  }

  lemma ServedNotRetained(s: State, p: nat, i: nat)
    requires ResourcesInv(s) && !s.stopped && p in s.served.proxies.Values && i < |s.retained|
    ensures p in s.built && p !in s.retained[i].held.proxies.Values
  {
    assert Kept(s.retained, false)[i] == s.retained[i].held.proxies;
    assert p in ProxyPool(s).current.Values;
  }

  // What is retained after a graceful reload that makes something obsolete.
  lemma GracefulRetains(s: State, source: Source)
    requires !s.stopped && ReloadSucceeds(s, GRACEFUL, source)
    ensures var t, a := Step(s, Reload(GRACEFUL, source)), Load(s.served, s.nextId, source.files).0;
            !(s.served.configs.Keys <= a.reused) ==>
              t.retained == if ActiveIn(s.active, s.generation)
                            then s.retained + [ResourceSet(s.generation, Minus(s.served, a.reused))] else s.retained
  {
  }

  lemma RetireHolds(s: State, source: Source, p: nat, t: State)
    requires Inv(s) && !s.stopped && Retires(s, source, p) && t == Step(s, Reload(GRACEFUL, source))
    ensures HeldFor(t, s.generation, p)
  {
    LoadKeepsInv(s.served, s.nextId, source.files);
    CommitStep(s, GRACEFUL, source);
    GracefulRetains(s, source);
    var a := Load(s.served, s.nextId, source.files).0;
    NotTaken(a.next.proxies, a.created.proxies, s.served.proxies, a.reused, p);
    var n :| n in s.served.proxies && n !in a.reused;
    assert NameOk(s.served, n);
    assert p in ProxyPool(s).current.Values;
    forall i | 0 <= i < |s.retained| ensures p !in s.retained[i].held.proxies.Values {
      ServedNotRetained(s, p, i);
    }
    if ActiveIn(s.active, s.generation) {
      assert t.retained[|s.retained|].held.proxies == s.served.proxies - a.reused;
    }
  }

  // ---- the promise is kept through any further operations

  lemma HeldThroughDisconnect(t: State, g: nat, p: nat, c: nat)
    requires Inv(t) && HeldFor(t, g, p) && c in t.active
    ensures HeldFor(Step(t, Disconnect(c)), g, p)
  {
    hide ResourcesInv, SessionsInv;
    var left, u := Left(t, c), Step(t, Disconnect(c));
    LeftInv(t, c);
    ReleaseInv(left, t.active[c].generation);
    assert u == ReleaseIfIdle(left, t.active[c].generation);
    if ActiveIn(u.active, g) {
      var d :| d in u.active && u.active[d].generation == g;
      assert d in t.active && t.active[d].generation == g;
      var i :| 0 <= i < |t.retained| && t.retained[i].generation == g && p in t.retained[i].held.proxies.Values;
      assert t.retained[i] in u.retained;
    }
    forall i | 0 <= i < |u.retained| && p in u.retained[i].held.proxies.Values
      ensures u.retained[i].generation == g
    {
      assert u.retained[i] in t.retained;
    }
  }

  lemma HeldThroughBind(t: State, g: nat, p: nat, name: string)
    requires Inv(t) && HeldFor(t, g, p)
    ensures HeldFor(Step(t, Bind(name)), g, p)
  {
    var u := Step(t, Bind(name));
    if ActiveIn(u.active, g) {
      var d :| d in u.active && u.active[d].generation == g;
      assert d in t.active && t.active[d].generation == g;
    }
  }

  // A proxy that is neither served nor new is not served after a commit.
  lemma NotTakenUp(next: map<string, nat>, created: map<string, nat>, from: map<string, nat>, reused: set<string>, p: nat)
    requires Takes(next, created, from, reused) && p !in from.Values && p !in created.Values
    ensures p !in next.Values
  {
  }

  // What a commit can do to the retained sets.
  lemma CommitRetains(t: State, mode: Mode, source: Source)
    requires !t.stopped && ReloadSucceeds(t, mode, source)
    ensures var u, a := Step(t, Reload(mode, source)), Load(t.served, t.nextId, source.files).0;
            u.retained == t.retained || u.retained == t.retained + [ResourceSet(t.generation, Minus(t.served, a.reused))]
  {
  }

  lemma HeldThroughReload(t: State, g: nat, p: nat, mode: Mode, source: Source)
    requires Inv(t) && HeldFor(t, g, p)
    ensures HeldFor(Step(t, Reload(mode, source)), g, p)
  {
    var u := Step(t, Reload(mode, source));
    ReloadKeepsClients(t, mode, source);
    if ReloadSucceeds(t, mode, source) {
      LoadKeepsInv(t.served, t.nextId, source.files);
      CommitStep(t, mode, source);
      CommitRetains(t, mode, source);
      var a := Load(t.served, t.nextId, source.files).0;
      CreatedIsNew(t, a);
      NotTakenUp(a.next.proxies, a.created.proxies, t.served.proxies, a.reused, p);
      HeldThroughCommit(t, u, g, p, a);
    }
  }

  lemma HeldThroughCommit(t: State, u: State, g: nat, p: nat, a: Attempt)
    requires HeldFor(t, g, p)
    requires u.active == t.active && u.stopped == t.stopped && t.built <= u.built && t.generation <= u.generation
    requires p !in u.served.proxies.Values
    requires u.retained == t.retained || u.retained == t.retained + [ResourceSet(t.generation, Minus(t.served, a.reused))]
    ensures HeldFor(u, g, p)
  {
    assert forall q :: q in (t.served.proxies - a.reused).Values ==> q in t.served.proxies.Values;
    assert forall i :: 0 <= i < |t.retained| ==> u.retained[i] == t.retained[i];
    if Retained(t, g, p) {
      var i :| 0 <= i < |t.retained| && t.retained[i].generation == g && p in t.retained[i].held.proxies.Values;
      assert u.retained[i] == t.retained[i];
    }
  }

  lemma HeldThroughStep(t: State, g: nat, p: nat, op: Op)
    requires Inv(t) && HeldFor(t, g, p) && !op.Shutdown?
    ensures HeldFor(Step(t, op), g, p)
  {
    match op
    case Bind(name) => HeldThroughBind(t, g, p, name);
    case Disconnect(c) => if c in t.active { HeldThroughDisconnect(t, g, p, c); }
    case Reload(mode, source) => HeldThroughReload(t, g, p, mode, source);
  }

  // Users of p can only leave.
  predicate OnlyOldUsers(s: State, t: State, p: nat) {
    s.nextClient <= t.nextClient
    && (forall c :: c in t.active && c <= s.nextClient ==> c in s.active && t.active[c] == s.active[c])
    && (forall c :: c in t.active && t.active[c].proxy == p ==> c <= s.nextClient)
  }

  lemma OldUsersStep(s: State, t: State, g: nat, p: nat, op: Op)
    requires Inv(t) && HeldFor(t, g, p) && OnlyOldUsers(s, t, p)
    ensures OnlyOldUsers(s, Step(t, op), p)
  {
    match op
    case Bind(name) =>
      assert name in t.served.proxies ==> t.served.proxies[name] in t.served.proxies.Values;
    case Reload(mode, source) => ReloadKeepsClients(t, mode, source);
    case _ =>
  }

  lemma {:induction false} HeldThroughRun(s: State, t: State, g: nat, p: nat, ops: seq<Op>)
    requires Inv(t) && HeldFor(t, g, p) && NoShutdown(ops) && OnlyOldUsers(s, t, p)
    ensures Inv(Run(t, ops)) && HeldFor(Run(t, ops), g, p) && OnlyOldUsers(s, Run(t, ops), p)
    decreases |ops|
  {
    if ops != [] {
      StepInv(t, ops[0]);
      HeldThroughStep(t, g, p, ops[0]);
      OldUsersStep(s, t, g, p, ops[0]);
      HeldThroughRun(s, Step(t, ops[0]), g, p, ops[1..]);
    }
  }

  // ---- and it is kept for all users of p if and only if they were bound in the retired generation

  lemma HeldIsOpen(t: State, g: nat, p: nat)
    requires Inv(t) && HeldFor(t, g, p)
    ensures t.closed[p] == 0 <==> Retained(t, g, p)
    ensures !ActiveIn(t.active, g) ==> !Retained(t, g, p)
  {
    assert forall i :: 0 <= i < |t.retained| ==> Kept(t.retained, false)[i] == t.retained[i].held.proxies;
    if Retained(t, g, p) {
      var i :| 0 <= i < |t.retained| && t.retained[i].generation == g && p in t.retained[i].held.proxies.Values;
      assert p in ProxyPool(t).kept[i].Values;
    }
  }

  lemma OneLeaves(t: State, g: nat, p: nat, c: nat)
    requires Inv(t) && HeldFor(t, g, p) && c in t.active
    ensures Inv(Step(t, Disconnect(c))) && HeldFor(Step(t, Disconnect(c)), g, p)
    ensures Step(t, Disconnect(c)).active == t.active - {c} && |Step(t, Disconnect(c)).active| < |t.active|
  {
    DisconnectForgets(t, c);
    DisconnectInv(t, c);
    HeldThroughDisconnect(t, g, p, c);
    assert (t.active - {c}).Keys == t.active.Keys - {c};
    assert |t.active.Keys - {c}| < |t.active.Keys|;
  }

  // All clients of generation g leave; u, of another generation, stays.
  lemma EveryoneLeaves(t: State, g: nat, p: nat, u: nat) returns (ops: seq<Op>)
    requires Inv(t) && HeldFor(t, g, p) && u in t.active && t.active[u].generation != g
    ensures NoShutdown(ops) && Inv(Run(t, ops)) && HeldFor(Run(t, ops), g, p)
    ensures u in Run(t, ops).active && !ActiveIn(Run(t, ops).active, g)
    decreases |t.active|
  {
    hide Inv, HeldFor, Step;
    if c :| c in t.active && t.active[c].generation == g {
      OneLeaves(t, g, p, c);
      var rest := EveryoneLeaves(Step(t, Disconnect(c)), g, p, u);
      ops := [Disconnect(c)] + rest;
      assert ops[1..] == rest;
    } else {
      ops := [];
    }
  }

  /**
    The promise of a graceful reload, exactly: whatever reloads (forced ones too), binds and
    disconnects follow, a retired proxy stays open until the last of its users leaves, if and
    only if every one of those users was bound in the generation that the reload ends.
  */
  lemma GracefulPromise(s: State, source: Source, p: nat, t: State)
    requires Reachable(s) && !s.stopped && Retires(s, source, p) && t == Step(s, Reload(GRACEFUL, source))
    ensures (forall c :: Uses(s, c, p) ==> s.active[c].generation == s.generation)
            <==> (forall ops :: NoShutdown(ops) ==> StaysOpen(s, Run(t, ops), p))
  {
    hide Inv, HeldFor;
    ReachableInv(s);
    StepInv(s, Reload(GRACEFUL, source));
    RetireHolds(s, source, p, t);
    ReloadKeepsClients(s, GRACEFUL, source);
    StartUsers(s, t, p);
    if forall c :: Uses(s, c, p) ==> s.active[c].generation == s.generation {
      forall ops | NoShutdown(ops) ensures StaysOpen(s, Run(t, ops), p) {
        HeldThroughRun(s, t, s.generation, p, ops);
        var end := Run(t, ops);
        HeldIsOpen(end, s.generation, p);
        if c :| Uses(s, c, p) && c in end.active {
          assert end.active[c].generation == s.generation;
        }
      }
    } else {
      var u :| Uses(s, u, p) && s.active[u].generation != s.generation;
      var ops := EveryoneLeaves(t, s.generation, p, u);
      HeldIsOpen(Run(t, ops), s.generation, p);
      assert !StaysOpen(s, Run(t, ops), p);
    }
  }

  lemma StartUsers(s: State, t: State, p: nat)
    requires Inv(s) && t.active == s.active && t.nextClient == s.nextClient
    ensures OnlyOldUsers(s, t, p)
  {
  }

  /** No client binds to a retired proxy any more. */
  lemma NobodyBindsToRetired(s: State, source: Source, p: nat, t: State, ops: seq<Op>, c: nat)
    requires Reachable(s) && !s.stopped && Retires(s, source, p) && t == Step(s, Reload(GRACEFUL, source))
    requires NoShutdown(ops) && c in Run(t, ops).active && Run(t, ops).active[c].proxy == p
    ensures c in s.active && s.active[c].proxy == p
  {
    ReachableInv(s);
    StepInv(s, Reload(GRACEFUL, source));
    RetireHolds(s, source, p, t);
    ReloadKeepsClients(s, GRACEFUL, source);
    StartUsers(s, t, p);
    HeldThroughRun(s, t, s.generation, p, ops);
  }

  /**
    The documented promise fails for a user of an older generation: if no client was bound in
    the generation the reload ends, the proxy is closed at once, in the middle of its use.
  */
  lemma OldUserLosesProxy(s: State, source: Source, p: nat, t: State, u: nat)
    requires Reachable(s) && !s.stopped && Retires(s, source, p) && t == Step(s, Reload(GRACEFUL, source))
    requires Uses(s, u, p) && !ActiveIn(s.active, s.generation)
    ensures u in t.active && t.active[u].proxy == p && t.closed[p] == 1
  {
    ReachableInv(s);
    StepInv(s, Reload(GRACEFUL, source));
    RetireHolds(s, source, p, t);
    ReloadKeepsClients(s, GRACEFUL, source);
    HeldIsOpen(t, s.generation, p);
    assert ProxyPool(t).made == t.built;
  }

  // The source lists shared servers `a` and `b`, in these versions.
  predicate Lists(source: Source, a: int, b: int) {
    source.Paths? && |source.files| == 2
    && source.files[0] == Loaded(Config("a", Shared, "", a), true)
    && source.files[1] == Loaded(Config("b", Shared, "", b), true)
  }

  lemma {:induction false} RunSnoc(s: State, ops: seq<Op>, op: Op)
    ensures Run(s, ops + [op]) == Step(Run(s, ops), op)
    decreases |ops|
  {
    if ops == [] {
      assert ops + [op] == [op] && [op][1..] == [];
      assert Run(Step(s, op), []) == Step(s, op);
    } else {
      assert (ops + [op])[1..] == ops[1..] + [op];
      RunSnoc(Step(s, ops[0]), ops[1..], op);
    }
  }

  lemma ReachableStep(s: State, op: Op)
    requires Reachable(s)
    ensures Reachable(Step(s, op))
  {
    var ops :| Run(INIT, ops) == s;
    RunSnoc(INIT, ops, op);
  }

  lemma ListsLoadable(served: Served, source: Source, a: int, b: int)
    requires Lists(source, a, b)
    ensures Loadable(served, source.files)
    ensures forall n :: Mentions(source.files, n) <==> n == "a" || n == "b"
  {
    assert source.files[0].config.name != source.files[1].config.name;
    assert source.files[0].config.name == "a" && source.files[1].config.name == "b";
  }

  // The proxy a name is served with after a reload.
  lemma ReloadedProxy(s: State, mode: Mode, source: Source, t: State, n: string)
    requires Reachable(s) && !s.stopped && ReloadSucceeds(s, mode, source) && t == Step(s, Reload(mode, source))
    requires n in t.served.proxies
    ensures n in t.served.configs && Mentions(source.files, n)
    ensures if Unchanged(s.served, t.served.configs[n]) then n in s.served.proxies && t.served.proxies[n] == s.served.proxies[n]
            else t.served.proxies[n] >= s.nextId
  {
    ReloadCommits(s, mode, source, t);
    CommitStep(s, mode, source);
    ReachableInv(s);
    LoadKeepsInv(s.served, s.nextId, source.files);
    assert NameOk(t.served, n);
    var i :| 0 <= i < |source.files| && source.files[i].Loaded? && source.files[i].config.name == n;
    assert Serves(s, t, source.files[i].config);
    assert ServedAs(t.served, n).0 == Some(t.served.proxies[n]);
  }

  // A reload of two shared servers: what `a` and `b` are served with.
  lemma ReloadTwo(s: State, mode: Mode, source: Source, a: int, b: int, t: State)
    requires Reachable(s) && !s.stopped && ReloadAllowed(s, mode) && Lists(source, a, b) && t == Step(s, Reload(mode, source))
    ensures ReloadSucceeds(s, mode, source) && Reachable(t) && !t.stopped
    ensures t.generation == s.generation + 1 && t.active == s.active && t.nextClient == s.nextClient
    ensures "a" in t.served.configs && t.served.configs["a"] == Config("a", Shared, "", a) && "a" in t.served.proxies
    ensures "b" in t.served.configs && t.served.configs["b"] == Config("b", Shared, "", b) && "b" in t.served.proxies
    ensures forall n :: n in t.served.proxies ==> n == "a" || n == "b"
  {
    ListsLoadable(s.served, source, a, b);
    ReloadSucceedsIff(s, mode, source);
    ReloadCommits(s, mode, source, t);
    ReachableStep(s, Reload(mode, source));
    CommitStep(s, mode, source);
    assert Serves(s, t, source.files[0].config) && Serves(s, t, source.files[1].config);
    forall n | n in t.served.proxies ensures n == "a" || n == "b" {
      ReloadedProxy(s, mode, source, t, n);
    }
  }

  // The daemon starts with both servers and one client binds to the first.
  lemma StartAndBind(first: Source) returns (s: State, client: nat)
    requires Lists(first, 0, 0)
    ensures Reachable(s) && !s.stopped && s.active.Keys == {client}
    ensures "a" in s.served.proxies && Uses(s, client, s.served.proxies["a"]) && s.active[client].generation == s.generation
    ensures "a" in s.served.configs && s.served.configs["a"] == Config("a", Shared, "", 0)
    ensures "b" in s.served.configs && s.served.configs["b"] == Config("b", Shared, "", 0)
  {
    assert Run(INIT, []) == INIT;
    var s1 := Step(INIT, Reload(Mode(false, false), first));
    ReloadTwo(INIT, Mode(false, false), first, 0, 0, s1);
    ReachableStep(s1, Bind("a"));
    s, client := Step(s1, Bind("a")), 1;
  }

  /**
    Two graceful reloads: the first keeps the proxy of a client, the second retires it and
    closes it while that client is still using it.
  */
  lemma TwoGracefulReloads(first: Source, second: Source, third: Source) returns (s: State, t: State, client: nat)
    requires Lists(first, 0, 0) && Lists(second, 0, 1) && Lists(third, 1, 1)
    ensures Reachable(s) && Reachable(t) && t == Step(s, Reload(GRACEFUL, third))
    ensures client in s.active && client in t.active && t.active[client] == s.active[client]
    ensures s.closed[s.active[client].proxy] == 0 && t.closed[t.active[client].proxy] == 1
  {
    var bound;
    bound, client := StartAndBind(first);
    var p := bound.served.proxies["a"];
    s := Step(bound, Reload(GRACEFUL, second));
    ReloadTwo(bound, GRACEFUL, second, 0, 1, s);
    ReloadedProxy(bound, GRACEFUL, second, s, "a");
    assert s.served.proxies["a"] == p;
    t := Step(s, Reload(GRACEFUL, third));
    ReloadTwo(s, GRACEFUL, third, 1, 1, t);
    RetiredByThird(s, third, p, t);
    assert !ActiveIn(s.active, s.generation);
    OldUserLosesProxy(s, third, p, t, client);
  }

  lemma RetiredByThird(s: State, third: Source, p: nat, t: State)
    requires Reachable(s) && !s.stopped && Lists(third, 1, 1) && t == Step(s, Reload(GRACEFUL, third))
    requires ReloadSucceeds(s, GRACEFUL, third)
    requires "a" in s.served.configs && s.served.configs["a"] == Config("a", Shared, "", 0)
    requires "a" in s.served.proxies && s.served.proxies["a"] == p
    ensures Retires(s, third, p) && s.closed[p] == 0
  {
    ReachableInv(s);
    assert p in ProxyPool(s).current.Values;
    ListsLoadable(s.served, third, 1, 1);
    ReloadCommits(s, GRACEFUL, third, t);
    assert Serves(s, t, third.files[0].config) && Serves(s, t, third.files[1].config);
    forall n | n in t.served.proxies ensures t.served.proxies[n] != p {
      ReloadedProxy(s, GRACEFUL, third, t, n);
    }
  }
}
