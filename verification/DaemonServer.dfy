/**
  The daemon as the program keeps it: maps that are reassigned, a slice of retained resource
  sets compacted in place, loops over files, clients and resources.  Every operation is shown
  to take the value of the server one `Daemon.Step` further, so what is proved about runs of
  the value holds of the server.
*/
module DaemonServer {
  import opened Options
  import opened Daemon
  import opened DaemonSafety

  // Closing a resource set closes each of its resources once.
  predicate ClosesOnce(held: Served) { Injective(held.proxies) && Injective(held.closers) }

  // What the operations need of the state: resources that can be closed one by one.
  ghost predicate Orderly(s: State) {
    && WellServed(s.served)
    && (!s.stopped ==> ClosesOnce(s.served))
    && (forall i :: 0 <= i < |s.retained| ==> ClosesOnce(s.retained[i].held))
  }

  /** Every reachable state is orderly, so the operations below can follow one another. */
  lemma ReachableOrderly(s: State)
    requires Reachable(s)
    ensures Orderly(s)
  {
    ReachableInv(s);
    forall i | 0 <= i < |s.retained| ensures ClosesOnce(s.retained[i].held) {
      assert Injective(ProxyPool(s).kept[i]) && Injective(CloserPool(s).kept[i]);
    }
  }

  lemma ValuesMore(m: map<string, nat>, rest: set<string>, n: string)
    requires Injective(m) && n in m && n in rest
    ensures multiset((m - (rest - {n})).Values) == multiset((m - rest).Values) + multiset{m[n]}
  {
    var before, after := m - rest, m - (rest - {n});
    assert m[n] !in before.Values;
    assert n in after && m[n] in after.Values;
    forall v ensures v in after.Values <==> v in before.Values || v == m[n] {
      if v in after.Values {
        var k :| k in after && after[k] == v;
        assert k == n || (k in before && before[k] == v);
      }
      if v in before.Values {
        var k :| k in before && before[k] == v;
        assert k in after && after[k] == v;
      }
    }
    assert after.Values == before.Values + {m[n]};
  }

  // A file that fails ends the attempt.
  lemma {:induction false} LoadStops(served: Served, nextId: nat, files: seq<FileOutcome>, k: nat)
    requires k <= |files| && !Load(served, nextId, files[..k]).1
    ensures Load(served, nextId, files) == Load(served, nextId, files[..k])
    decreases |files|
  {
    if k == |files| {
      assert files[..k] == files;
    } else {
      var init := files[..|files| - 1];
      assert init[..k] == files[..k];
      LoadStops(served, nextId, init, k);
    }
  }

  lemma MinusAll(served: Served, names: set<string>)
    requires WellServed(served) && served.configs.Keys <= names
    ensures Minus(served, names) == NOTHING
  {
    var left := Minus(served, names);
    forall n: string
      ensures n !in left.configs && n !in left.proxies && n !in left.loggers && n !in left.closers && n !in left.stats
    {
      assert NameOk(served, n);
    }
    assert left == NOTHING;
  }

  lemma NoneLeft(served: Served, names: set<string>)
    requires WellServed(served)
    ensures Minus(served, names) == NOTHING <==> served.configs.Keys <= names
  {
    if served.configs.Keys <= names {
      MinusAll(served, names);
    } else {
      var n :| n in served.configs && n !in names;
      assert n in Minus(served, names).configs;
    }
  }

  lemma LessTaken<V>(m: map<string, V>, reused: set<string>, rest: set<string>, n: string)
    requires n in rest
    ensures m - (reused + (rest - {n})) == if n in reused then m - (reused + rest) else Carry(m - (reused + rest), m, n)
  {
  }

  lemma MinusMore(served: Served, reused: set<string>, rest: set<string>, n: string)
    requires n in rest && rest <= served.configs.Keys
    ensures var held := Minus(served, reused + rest);
            Minus(served, reused + (rest - {n})) ==
            if n in reused then held
            else Served(held.configs[n := served.configs[n]], Carry(held.proxies, served.proxies, n),
                        Carry(held.loggers, served.loggers, n), Carry(held.closers, served.closers, n),
                        Carry(held.stats, served.stats, n))
  {
    LessTaken(served.configs, reused, rest, n);
    LessTaken(served.proxies, reused, rest, n);
    LessTaken(served.loggers, reused, rest, n);
    LessTaken(served.closers, reused, rest, n);
    LessTaken(served.stats, reused, rest, n);
  }

  lemma ObsoleteClosesOnce(s: State, names: set<string>)
    requires ClosesOnce(s.served)
    ensures Obsolete(s, names).Some? ==> ClosesOnce(Obsolete(s, names).value.held)
  {
  }

  lemma CreatedClosesOnce(served: Served, nextId: nat, files: seq<FileOutcome>)
    requires WellServed(served)
    ensures ClosesOnce(Load(served, nextId, files).0.created)
  {
    LoadKeepsInv(served, nextId, files);
  }

  lemma SettledReload(s: State, mode: Mode, source: Source)
    requires ReloadSucceeds(s, mode, source) && !s.stopped
    ensures var a := Load(s.served, s.nextId, source.files).0;
            Step(s, Op.Reload(mode, source)) == Settled(s.(nextId := a.nextId), a, mode.graceful)
  {
    hide Load, Minus, Closings, ActiveIn;
  }

  lemma OneMoreClosed(retained: seq<ResourceSet>, i: nat)
    requires i < |retained|
    ensures AllClosings(retained[..i + 1]) == AllClosings(retained[..i]) + Closings(retained[i].held)
  {
    assert retained[..i + 1][..i] == retained[..i];
  }

  class Server {
    var served: Served  // the five maps of the daemon, by MCP name
    var generation: nat
    var slots: array<ResourceSet>  // the retained sets are the first `used`
    var used: nat
    var active: map<nat, Client>
    var nextClient: nat
    var stopped: bool
    var nextId: nat
    ghost var built: set<nat>
    ghost var logFiles: set<nat>
    ghost var sessions: set<nat>
    ghost var closed: multiset<nat>

    ghost predicate Valid()
      reads this
    {
      used <= slots.Length
    }

    ghost function Value(): State
      requires Valid()
      reads this, slots
    {
      State(served, generation, slots[..used], active, nextClient, stopped, nextId, built, logFiles, sessions, closed)
    }

    constructor ()
      ensures Valid() && Value() == INIT && fresh(slots)
    {
      served := NOTHING;
      generation, used, active, nextClient, stopped, nextId := 1, 0, map[], 0, false, 0;
      built, logFiles, sessions, closed := {}, {}, {}, multiset{};
      slots := new ResourceSet[0];
    }

    method CloseEach(m: map<string, nat>)
      requires Injective(m)
      modifies this`closed
      ensures closed == old(closed) + multiset(m.Values)
    {
      var rest := m.Keys;
      assert m - rest == map[];
      while rest != {}
        invariant rest <= m.Keys
        invariant closed == old(closed) + multiset((m - rest).Values)
        decreases |rest|
      {
        var n :| n in rest;
        ValuesMore(m, rest, n);
        closed := closed + multiset{m[n]};
        rest := rest - {n};
      }
      assert m - rest == m;
    }

    method CloseResourceSet(held: Served)
      requires ClosesOnce(held)
      modifies this`closed
      ensures closed == old(closed) + Closings(held)
    {
      CloseEach(held.proxies);
      CloseEach(held.closers);
    }

    method HasActiveClientInGeneration(g: nat) returns (found: bool)
      ensures found == ActiveIn(active, g)
    {
      var rest := active.Keys;
      while rest != {}
        invariant rest <= active.Keys
        invariant forall c :: c in active && c !in rest ==> active[c].generation != g
        decreases |rest|
      {
        var c :| c in rest;
        if active[c].generation == g {
          return true;
        }
        rest := rest - {c};
      }
      return false;
    }

    // What a pass over the slice has done before position i: the sets that stay are in front.
    static ghost predicate Compacted(now: seq<ResourceSet>, was: seq<ResourceSet>, i: nat, kept: nat, g: nat)
      requires i <= |was|
    {
      && kept <= i && |now| == |was|
      && now[..kept] == Others(was[..i], g) && now[i..] == was[i..]
    }

    static lemma StepCompacted(now: seq<ResourceSet>, was: seq<ResourceSet>, i: nat, kept: nat, g: nat)
      requires i < |was| && Compacted(now, was, i, kept, g)
      ensures now[i] == was[i] && kept <= i && |now| == |was|
      ensures TaggedClosings(was[..i + 1], g)
           == TaggedClosings(was[..i], g) + if was[i].generation == g then Closings(was[i].held) else multiset{}
      ensures was[i].generation == g ==> Compacted(now, was, i + 1, kept, g)
      ensures was[i].generation != g ==> Compacted(now[kept := was[i]], was, i + 1, kept + 1, g)
    {
      assert was[..i + 1][..i] == was[..i];
      assert now[i] == now[i..][0] && was[i] == was[i..][0];
      assert now[i + 1..] == now[i..][1..] && was[i + 1..] == was[i..][1..];
      var moved := now[kept := was[i]];
      assert moved[..kept + 1] == now[..kept] + [was[i]] && moved[i + 1..] == now[i + 1..];
    }

    // The sets that stay are moved to the front of the slice while it is read.
    method Compact(g: nat) returns (kept: nat)
      requires Valid() && forall i :: 0 <= i < |slots[..used]| ==> ClosesOnce(slots[..used][i].held)
      modifies this`closed, slots
      ensures kept <= used && slots[..kept] == Others(old(slots[..used]), g)
      ensures closed == old(closed) + TaggedClosings(old(slots[..used]), g)
    {
      ghost var was := slots[..];
      kept := 0;
      assert Compacted(was, was, 0, 0, g) && TaggedClosings(was[..0], g) == multiset{};
      assert was[..used] == slots[..used] && forall i :: 0 <= i < used ==> was[i] == slots[..used][i];
      hide ClosesOnce, Closings, Compacted, Others, TaggedClosings;
      for i := 0 to used
        invariant Compacted(slots[..], was, i, kept, g)
        invariant closed == old(closed) + TaggedClosings(was[..i], g)
      {
        StepCompacted(slots[..], was, i, kept, g);
        kept := Visit(i, kept, g);
      }
      EndCompacted(slots[..], was, used, kept, g);
      assert slots[..][..kept] == slots[..kept];
    }

    // One set is closed, or moved to the front.
    method Visit(i: nat, kept: nat, g: nat) returns (next: nat)
      requires kept <= i < slots.Length && ClosesOnce(slots[i].held)
      modifies this`closed, slots
      ensures next == if old(slots[i]).generation == g then kept else kept + 1
      ensures slots[..] == if old(slots[i]).generation == g then old(slots[..]) else old(slots[..])[kept := old(slots[i])]
      ensures closed == old(closed) + if old(slots[i]).generation == g then Closings(old(slots[i]).held) else multiset{}
    {
      hide ClosesOnce, Closings;
      var resources := slots[i];
      if resources.generation == g {
        CloseResourceSet(resources.held);
        return kept;
      }
      slots[kept] := resources;
      return kept + 1;
    }

    static lemma EndCompacted(now: seq<ResourceSet>, was: seq<ResourceSet>, i: nat, kept: nat, g: nat)
      requires i <= |was| && Compacted(now, was, i, kept, g)
      ensures kept <= i && |now| == |was| && now[..kept] == Others(was[..i], g)
    {
    }

    method CloseRetainedIfIdle(g: nat)
      requires Valid() && forall i :: 0 <= i < |slots[..used]| ==> ClosesOnce(slots[..used][i].held)
      modifies this`used, this`closed, slots
      ensures Valid() && Value() == ReleaseIfIdle(old(Value()), g)
    {
      var busy := HasActiveClientInGeneration(g);
      if !busy {
        used := Compact(g);
      }
    }

    // Appending moves a full slice to a larger one.
    method Append(r: ResourceSet)
      requires Valid()
      modifies this`slots, this`used, slots
      ensures Valid() && (slots == old(slots) || fresh(slots))
      ensures slots[..used] == old(slots[..used]) + [r]
    {
      if used == slots.Length {
        var larger := new ResourceSet[2 * used + 1];
        for i := 0 to used
          invariant used == old(used) && slots == old(slots) && slots[..] == old(slots[..])
          invariant larger[..i] == slots[..i]
        {
          larger[i] := slots[i];
        }
        slots := larger;
      }
      slots[used] := r;
      used := used + 1;
    }

    method RetainOrCloseResourceSet(obsolete: Option<ResourceSet>)
      requires Valid() && (obsolete.Some? ==> ClosesOnce(obsolete.value.held))
      modifies this`slots, this`used, this`closed, slots
      ensures Valid() && (slots == old(slots) || fresh(slots))
      ensures Value() == RetainOrClose(old(Value()), obsolete)
    {
      if obsolete.None? {
        return;
      }
      var busy := HasActiveClientInGeneration(obsolete.value.generation);
      if busy {
        Append(obsolete.value);
      } else {
        CloseResourceSet(obsolete.value.held);
      }
    }

    // The loop over the configuration files; nothing the server serves is touched.
    method LoadFiles(files: seq<FileOutcome>) returns (a: Attempt, ok: bool)
      modifies this`nextId
      ensures (a, ok) == Load(served, old(nextId), files) && nextId == a.nextId
    {
      a, ok := Attempt(NOTHING, NOTHING, {}, nextId), true;
      for i := 0 to |files|
        invariant nextId == a.nextId
        invariant ok && (a, true) == Load(served, old(nextId), files[..i])
      {
        assert files[..i + 1][..i] == files[..i];
        var f := files[i];
        if f.Unreadable? || f.config.name in a.next.configs {
          LoadStops(served, old(nextId), files, i + 1);
          return a, false;
        }
        if Unchanged(served, f.config) {
          a := Reuse(served, a, f.config);
        } else if f.config.logFile != "" && !f.log {
          LoadStops(served, old(nextId), files, i + 1);
          return a, false;
        } else {
          a := Create(a, f.config);
        }
        nextId := a.nextId;
      }
      assert files[..|files|] == files;
    }

    method Reload(mode: Mode, source: Source) returns (ok: bool)
      requires Valid() && Orderly(Value()) && !stopped
      modifies this, slots
      ensures Valid() && (slots == old(slots) || fresh(slots))
      ensures Value() == Step(old(Value()), Op.Reload(mode, source))
      ensures ok == ReloadSucceeds(old(Value()), mode, source)
    {
      hide Load, ClosesOnce, WellServed, Closings, Minus, Settled;
      if (mode.force && mode.graceful) || (!mode.force && !mode.graceful && active != map[]) {
        return false;
      }
      if source.BadDaemonConfig? || source.files == [] {
        return false;
      }
      var a, loaded := LoadFiles(source.files);
      CreatedClosesOnce(served, old(nextId), source.files);
      if loaded {
        SettledReload(old(Value()), mode, source);
        Commit(a, mode.graceful);
      } else {
        built, logFiles := built + a.created.proxies.Values, logFiles + a.created.closers.Values;
        CloseResourceSet(a.created);
      }
      return loaded;
    }

    method Commit(a: Attempt, graceful: bool)
      requires Valid() && Orderly(Value()) && !stopped && nextId == a.nextId
      modifies this, slots
      ensures Valid() && (slots == old(slots) || fresh(slots))
      ensures Value() == Settled(old(Value()), a, graceful)
    {
      hide ClosesOnce, WellServed, Closings, Obsolete, RetainOrClose;
      var obsolete := TakeObsolete(a.reused);
      ObsoleteClosesOnce(Value(), a.reused);
      built, logFiles := built + a.created.proxies.Values, logFiles + a.created.closers.Values;
      generation := generation + 1;
      served := a.next;
      if graceful {
        RetainOrCloseResourceSet(obsolete);
      } else if obsolete.Some? {
        CloseResourceSet(obsolete.value.held);
      }
    }

    // The served configurations that are not reused, with their resources.
    method TakeObsolete(reused: set<string>) returns (obsolete: Option<ResourceSet>)
      requires Valid() && WellServed(served)
      ensures obsolete == Obsolete(Value(), reused)
    {
      var held := NOTHING;
      var rest := served.configs.Keys;
      MinusAll(served, reused + rest);
      while rest != {}
        invariant rest <= served.configs.Keys
        invariant held == Minus(served, reused + rest)
        decreases |rest|
      {
        var name :| name in rest;
        MinusMore(served, reused, rest, name);
        if name !in reused {
          held := Served(held.configs[name := served.configs[name]], Carry(held.proxies, served.proxies, name),
                         Carry(held.loggers, served.loggers, name), Carry(held.closers, served.closers, name),
                         Carry(held.stats, served.stats, name));
        }
        rest := rest - {name};
      }
      assert reused + rest == reused;
      NoneLeft(served, reused);
      obsolete := if held == NOTHING then None else Some(ResourceSet(generation, held));
    }

    // A handler binds its connection; the daemon that has stopped accepts no connection.
    method BindClient(name: string) returns (client: Option<nat>)
      requires Valid()
      modifies this
      ensures Valid() && slots == old(slots)
      ensures Value() == Step(old(Value()), Bind(name))
      ensures client == if old(!stopped && Knows(Value(), name)) then Some(old(nextClient) + 1) else None
    {
      if stopped || name !in served.configs {
        return None;
      }
      var session := served.configs[name].sharing == Session;
      var proxy := if name in served.proxies then Some(served.proxies[name]) else None;
      if session {
        proxy := Some(nextId);
        sessions := sessions + {nextId};
        nextId := nextId + 1;
      }
      if proxy.None? {
        return None;
      }
      nextClient := nextClient + 1;
      active := active[nextClient := Client(name, generation, proxy.value, session)];
      return Some(nextClient);
    }

    // The deferred calls of a handler, last one first.
    method EndHandler(client: nat)
      requires Valid() && Orderly(Value())
      modifies this, slots
      ensures Valid() && slots == old(slots)
      ensures Value() == Step(old(Value()), Disconnect(client))
    {
      if client in active {
        var c := active[client];
        if c.session {
          closed := closed + multiset{c.proxy};
        }
        active := active - {client};
        CloseRetainedIfIdle(c.generation);
      }
    }

    method CloseResources()
      requires Valid() && ClosesOnce(served) && forall i :: 0 <= i < |slots[..used]| ==> ClosesOnce(slots[..used][i].held)
      modifies this`used, this`closed
      ensures used == 0 && closed == old(closed + Closings(served) + AllClosings(slots[..used]))
    {
      CloseResourceSet(served);
      CloseRetained();
      used := 0;
    }

    method Shutdown()
      requires Valid() && Orderly(Value())
      modifies this`used, this`closed, this`stopped
      ensures Valid() && Value() == Step(old(Value()), Op.Shutdown)
    {
      hide Closings, AllClosings, ClosesOnce, WellServed;
      if !stopped {
        CloseResources();
        stopped := true;
      }
    }

    method CloseRetained()
      requires Valid() && forall i :: 0 <= i < |slots[..used]| ==> ClosesOnce(slots[..used][i].held)
      modifies this`closed
      ensures closed == old(closed) + AllClosings(slots[..used])
    {
      ghost var was := slots[..used];
      assert AllClosings(was[..0]) == multiset{};
      hide *;
      for i := 0 to used
        invariant closed == old(closed) + AllClosings(was[..i])
      {
        OneMoreClosed(was, i);
        var resources := slots[i];
        assert resources == was[i];
        CloseResourceSet(resources.held);
      }
      assert was[..used] == was;
    }
  }
}
