/**
  What every run of the daemon keeps: no resource is lost or closed twice, retained sets
  belong to clients that are still there, and reloads commit fully or change nothing.
*/
module DaemonSafety {
  import opened Options
  import opened Daemon

  // ---------------------------------------------------------------------- one kind of resource

  // The resources of one kind: served now, held by each retained set, and ever made.
  datatype Pool = Pool(current: map<string, nat>, kept: seq<map<string, nat>>, made: set<nat>)

  predicate Injective(m: map<string, nat>) { forall a, b :: a in m && b in m && a != b ==> m[a] != m[b] }

  ghost predicate InKept(kept: seq<map<string, nat>>, p: nat) { exists i :: 0 <= i < |kept| && p in kept[i].Values }

  /** Each resource ever made is served, or in one retained set, or closed once: exactly one of these. */
  ghost predicate Conserved(pool: Pool, closed: multiset<nat>) {
    && Injective(pool.current)
    && (forall i :: 0 <= i < |pool.kept| ==> Injective(pool.kept[i]))
    && (forall p :: p in pool.current.Values ==> p in pool.made && !InKept(pool.kept, p))
    && (forall i, p :: 0 <= i < |pool.kept| && p in pool.kept[i].Values ==> p in pool.made)
    && (forall i, j, p :: 0 <= i < j < |pool.kept| && p in pool.kept[i].Values ==> p !in pool.kept[j].Values)
    && (forall p :: p in pool.made ==> closed[p] == if p in pool.current.Values || InKept(pool.kept, p) then 0 else 1)
  }

  // `next` is what is kept of `from` under the reused names, and what was created.
  ghost predicate Takes(next: map<string, nat>, created: map<string, nat>, from: map<string, nat>, reused: set<string>) {
    && (forall n :: n in created ==> n !in reused)
    && (forall n :: n in next <==> (n in from && n in reused) || n in created)
    && (forall n :: n in next ==> next[n] == if n in created then created[n] else from[n])
  }

  lemma TakesValues(next: map<string, nat>, created: map<string, nat>, from: map<string, nat>, reused: set<string>)
    requires Takes(next, created, from, reused) && Injective(from) && Injective(created)
    requires created.Values !! from.Values
    ensures Injective(next) && Injective(from - reused)
    ensures forall p :: p in next.Values <==> p in created.Values || (p in from.Values && p !in (from - reused).Values)
    ensures forall p :: p in (from - reused).Values ==> p in from.Values
  {
    var rest := from - reused;
    forall a, b | a in next && b in next && a != b
      ensures next[a] != next[b]
    {
      assert a in created ==> next[a] in created.Values;
      assert b in created ==> next[b] in created.Values;
      assert a !in created ==> next[a] in from.Values;
      assert b !in created ==> next[b] in from.Values;
    }
    forall p | p in next.Values
      ensures p in created.Values || (p in from.Values && p !in rest.Values)
    {
      var n :| n in next && next[n] == p;
    }
    forall p | p in created.Values || (p in from.Values && p !in rest.Values)
      ensures p in next.Values
    {
      if p in created.Values {
        var n :| n in created && created[n] == p;
        assert n in next && next[n] == p;
      } else {
        var n :| n in from && from[n] == p;
        assert n !in reused ==> n in rest;
        assert n in next && next[n] == p;
      }
    }
  }

  // A committed reload whose obsolete part is retained.
  lemma PoolRetain(pool: Pool, closed: multiset<nat>, next: map<string, nat>, created: map<string, nat>, reused: set<string>)
    requires Conserved(pool, closed) && Takes(next, created, pool.current, reused) && Injective(created)
    requires created.Values !! pool.made && forall p :: p in created.Values ==> closed[p] == 0
    ensures Conserved(Pool(next, pool.kept + [pool.current - reused], pool.made + created.Values), closed)
  {
    TakesValues(next, created, pool.current, reused);
    var kept := pool.kept + [pool.current - reused];
    forall p
      ensures InKept(kept, p) <==> InKept(pool.kept, p) || p in (pool.current - reused).Values
    {
      if p in (pool.current - reused).Values {
        assert p in kept[|pool.kept|].Values;
      }
      if InKept(pool.kept, p) {
        var i :| 0 <= i < |pool.kept| && p in pool.kept[i].Values;
        assert p in kept[i].Values;
      }
    }
    assert forall p :: p in created.Values ==> !InKept(pool.kept, p);
  }

  // A committed reload whose obsolete part is closed.
  lemma PoolReplace(pool: Pool, closed: multiset<nat>, next: map<string, nat>, created: map<string, nat>, reused: set<string>, closed': multiset<nat>)
    requires Conserved(pool, closed) && Takes(next, created, pool.current, reused) && Injective(created)
    requires created.Values !! pool.made && forall p :: p in created.Values ==> closed[p] == 0
    requires forall p :: p in pool.made + created.Values ==> closed'[p] == closed[p] + multiset((pool.current - reused).Values)[p]
    ensures Conserved(Pool(next, pool.kept, pool.made + created.Values), closed')
  {
    TakesValues(next, created, pool.current, reused);
    assert forall p :: p in created.Values ==> !InKept(pool.kept, p);
  }

  // A reload given up: what it created is closed.
  lemma PoolGiveUp(pool: Pool, closed: multiset<nat>, created: map<string, nat>, closed': multiset<nat>)
    requires Conserved(pool, closed)
    requires created.Values !! pool.made && forall p :: p in created.Values ==> closed[p] == 0
    requires forall p :: p in pool.made + created.Values ==> closed'[p] == closed[p] + multiset(created.Values)[p]
    ensures Conserved(Pool(pool.current, pool.kept, pool.made + created.Values), closed')
  {
    assert forall p :: p in created.Values ==> !InKept(pool.kept, p);
  }

  lemma InKeptWithout(kept: seq<map<string, nat>>, i: nat, p: nat)
    requires i < |kept|
    ensures InKept(kept[..i] + kept[i + 1..], p) <==> exists k :: 0 <= k < |kept| && k != i && p in kept[k].Values
  {
    var rest := kept[..i] + kept[i + 1..];
    assert forall k :: 0 <= k < |rest| ==> rest[k] == kept[if k < i then k else k + 1];
    if k :| 0 <= k < |kept| && k != i && p in kept[k].Values {
      assert p in rest[if k < i then k else k - 1].Values;
    }
  }

  // One retained set is closed.
  lemma PoolRelease(pool: Pool, closed: multiset<nat>, i: nat, closed': multiset<nat>)
    requires Conserved(pool, closed) && i < |pool.kept|
    requires forall p :: p in pool.made ==> closed'[p] == closed[p] + multiset(pool.kept[i].Values)[p]
    ensures Conserved(Pool(pool.current, pool.kept[..i] + pool.kept[i + 1..], pool.made), closed')
  {
    hide Injective, InKept;
    var kept := pool.kept[..i] + pool.kept[i + 1..];
    assert forall k :: 0 <= k < |kept| ==> kept[k] == pool.kept[if k < i then k else k + 1];
    forall p
      ensures InKept(kept, p) <==> exists k :: 0 <= k < |pool.kept| && k != i && p in pool.kept[k].Values
      ensures InKept(pool.kept, p) <==> InKept(kept, p) || p in pool.kept[i].Values
    {
      InKeptWithout(pool.kept, i, p);
      InKeptSplit(pool.kept, i, p);
    }
  }

  lemma InKeptSplit(kept: seq<map<string, nat>>, i: nat, p: nat)
    requires i < |kept|
    ensures InKept(kept, p) <==> InKept(kept[..i] + kept[i + 1..], p) || p in kept[i].Values
  {
    InKeptWithout(kept, i, p);
  }

  lemma PoolOtherIds(pool: Pool, closed: multiset<nat>, closed': multiset<nat>)
    requires Conserved(pool, closed) && forall p :: p in pool.made ==> closed'[p] == closed[p]
    ensures Conserved(pool, closed')
  {
  }

  // -------------------------------------------------------------------------- a reload attempt

  ghost predicate Between(m: map<string, nat>, lo: nat, hi: nat) { forall n :: n in m ==> lo <= m[n] < hi }

  ghost predicate Apart(m: map<string, nat>, k: map<string, nat>) { forall a, b :: a in m && b in k ==> m[a] != k[b] }

  // A proxy for each shared configuration, a closer for each log file, a logger and stats for all.
  predicate NameOk(served: Served, n: string) {
    && (n in served.configs ==> served.configs[n].name == n)
    && (n in served.proxies <==> n in served.configs && served.configs[n].sharing == Shared)
    && (n in served.closers <==> n in served.configs && served.configs[n].logFile != "")
    && (n in served.loggers <==> n in served.configs)
    && (n in served.stats <==> n in served.configs)
  }

  ghost predicate WellServed(served: Served) { forall n: string :: NameOk(served, n) }

  // Reused names keep their object, the others got one numbered from lo on.
  ghost predicate KeptOrNew(next: map<string, nat>, from: map<string, nat>, reused: set<string>, lo: nat) {
    forall n :: n in next ==> if n in reused then n in from && next[n] == from[n] else next[n] >= lo
  }

  // Created resources are numbered in [lo, hi), all different.
  ghost predicate Numbered(created: Served, lo: nat, hi: nat) {
    && Between(created.proxies, lo, hi) && Between(created.closers, lo, hi)
    && Injective(created.proxies) && Injective(created.closers) && Apart(created.proxies, created.closers)
  }

  /** What an attempt has done so far: every served entry is reused untouched or freshly created. */
  ghost predicate LoadInv(served: Served, nextId: nat, a: Attempt) {
    && nextId <= a.nextId
    && (forall n :: n in a.reused ==> n in a.next.configs && Unchanged(served, a.next.configs[n]))
    && WellServed(a.next)
    && Takes(a.next.proxies, a.created.proxies, served.proxies, a.reused)
    && Takes(a.next.closers, a.created.closers, served.closers, a.reused)
    && Numbered(a.created, nextId, a.nextId)
    && KeptOrNew(a.next.loggers, served.loggers, a.reused, nextId)
    && KeptOrNew(a.next.stats, served.stats, a.reused, nextId)
  }

  lemma TakesReuse(next: map<string, nat>, created: map<string, nat>, from: map<string, nat>, reused: set<string>, n: string)
    requires Takes(next, created, from, reused) && n !in created
    ensures Takes(Carry(next, from, n), created, from, reused + {n})
  {
  }

  lemma TakesCreate(next: map<string, nat>, created: map<string, nat>, from: map<string, nat>, reused: set<string>, more: map<string, nat>)
    requires Takes(next, created, from, reused) && forall n :: n in more ==> n !in reused && n !in created
    ensures Takes(next + more, created + more, from, reused)
  {
  }

  lemma KeptMore(next: map<string, nat>, from: map<string, nat>, reused: set<string>, lo: nat, n: string, id: nat)
    requires KeptOrNew(next, from, reused, lo)
    ensures n in from && id == from[n] ==> KeptOrNew(next[n := id], from, reused + {n}, lo)
    ensures n !in reused && id >= lo ==> KeptOrNew(next[n := id], from, reused, lo)
  {
  }

  lemma ReuseServed(served: Served, a: Attempt, c: Config)
    requires WellServed(served) && WellServed(a.next) && Unchanged(served, c) && c.name !in a.next.configs
    ensures WellServed(Reuse(served, a, c).next)
  {
    assert NameOk(served, c.name) && NameOk(a.next, c.name);
    forall n: string ensures NameOk(Reuse(served, a, c).next, n) {
      assert NameOk(a.next, n);
    }
  }

  lemma CreateServed(a: Attempt, c: Config)
    requires WellServed(a.next) && c.name !in a.next.configs
    ensures WellServed(Create(a, c).next)
  {
    forall n: string ensures NameOk(Create(a, c).next, n) {
      assert NameOk(a.next, n);
    }
  }

  lemma ReuseInv(served: Served, nextId: nat, a: Attempt, c: Config)
    requires WellServed(served) && LoadInv(served, nextId, a) && Unchanged(served, c) && c.name !in a.next.configs
    ensures LoadInv(served, nextId, Reuse(served, a, c))
  {
    var n := c.name;
    assert NameOk(served, n) && NameOk(a.next, n);
    ReuseServed(served, a, c);
    TakesReuse(a.next.proxies, a.created.proxies, served.proxies, a.reused, n);
    TakesReuse(a.next.closers, a.created.closers, served.closers, a.reused, n);
    KeptMore(a.next.loggers, served.loggers, a.reused, nextId, n, served.loggers[n]);
    KeptMore(a.next.stats, served.stats, a.reused, nextId, n, served.stats[n]);
  }

  lemma NumberedMore(created: Served, lo: nat, id: nat, c: Config)
    requires Numbered(created, lo, id) && lo <= id
    ensures Numbered(created.(proxies := created.proxies + NewProxy(c, id), closers := created.closers + NewCloser(c, id)), lo, id + 4)
  {
    var proxies, closers := created.proxies + NewProxy(c, id), created.closers + NewCloser(c, id);
    assert forall n :: n in proxies ==> if n in NewProxy(c, id) then proxies[n] == id + 2 && n == c.name else proxies[n] < id;
    assert forall n :: n in closers ==> if n in NewCloser(c, id) then closers[n] == id + 3 && n == c.name else closers[n] < id;
  }

  lemma UnseenName(served: Served, nextId: nat, a: Attempt, n: string)
    requires LoadInv(served, nextId, a) && n !in a.next.configs
    ensures n !in a.reused && n !in a.created.proxies && n !in a.created.closers
  {
    assert NameOk(a.next, n);
  }

  lemma CreateInv(served: Served, nextId: nat, a: Attempt, c: Config)
    requires WellServed(served) && LoadInv(served, nextId, a) && c.name !in a.next.configs
    ensures LoadInv(served, nextId, Create(a, c))
  {
    hide WellServed, Takes, Numbered, KeptOrNew;
    var n, id := c.name, a.nextId;
    UnseenName(served, nextId, a, n);
    CreateServed(a, c);
    TakesCreate(a.next.proxies, a.created.proxies, served.proxies, a.reused, NewProxy(c, id));
    TakesCreate(a.next.closers, a.created.closers, served.closers, a.reused, NewCloser(c, id));
    NumberedMore(a.created, nextId, id, c);
    KeptMore(a.next.loggers, served.loggers, a.reused, nextId, n, id + 1);
    KeptMore(a.next.stats, served.stats, a.reused, nextId, n, id);
  }

  lemma {:induction false} LoadKeepsInv(served: Served, nextId: nat, files: seq<FileOutcome>)
    requires WellServed(served)
    ensures LoadInv(served, nextId, Load(served, nextId, files).0)
  {
    if files != [] {
      var before, f := Load(served, nextId, files[..|files| - 1]), files[|files| - 1];
      LoadKeepsInv(served, nextId, files[..|files| - 1]);
      if before.1 && Acceptable(served, before.0, f) {
        if Unchanged(served, f.config) {
          ReuseInv(served, nextId, before.0, f.config);
        } else {
          CreateInv(served, nextId, before.0, f.config);
        }
      }
    }
  }

  // ---------------------------------------------------------------------------- the invariant

  function Kept(retained: seq<ResourceSet>, closers: bool): seq<map<string, nat>> {
    seq(|retained|, i requires 0 <= i < |retained| => if closers then retained[i].held.closers else retained[i].held.proxies)
  }

  // Nothing is served any more once the daemon has stopped.
  function ProxyPool(s: State): Pool {
    Pool(if s.stopped then map[] else s.served.proxies, Kept(s.retained, false), s.built)
  }

  function CloserPool(s: State): Pool {
    Pool(if s.stopped then map[] else s.served.closers, Kept(s.retained, true), s.logFiles)
  }

  // Identities are handed out once and to one kind of resource.
  ghost predicate IdsInv(s: State) {
    && (forall p :: p in s.built ==> p < s.nextId && p !in s.logFiles && p !in s.sessions)
    && (forall p :: p in s.logFiles ==> p < s.nextId && p !in s.sessions)
    && (forall p :: p in s.sessions ==> p < s.nextId)
    && (forall p :: p >= s.nextId ==> s.closed[p] == 0)
  }

  /** Proxies and log closers are conserved. */
  ghost predicate ResourcesInv(s: State) {
    && WellServed(s.served) && IdsInv(s)
    && Conserved(ProxyPool(s), s.closed) && Conserved(CloserPool(s), s.closed)
    && (s.stopped ==> s.retained == [])
  }

  // Client numbers are handed out once; clients are bound in the current or an earlier generation.
  ghost predicate ClientsInv(s: State) {
    forall c :: c in s.active ==> s.active[c].generation <= s.generation && c <= s.nextClient
  }

  /** Each retained set is tagged with an earlier generation, its own, in which some client is active. */
  ghost predicate GenerationsInv(s: State) {
    && (forall i :: 0 <= i < |s.retained| ==> s.retained[i].generation < s.generation && ActiveIn(s.active, s.retained[i].generation))
    && (forall i, j :: 0 <= i < j < |s.retained| ==> s.retained[i].generation != s.retained[j].generation)
  }

  ghost predicate RunsOn(active: map<nat, Client>, p: nat) { exists c :: c in active && active[c].session && active[c].proxy == p }

  /** A session proxy belongs to one client and is open exactly while that client is active. */
  ghost predicate SessionsInv(s: State) {
    && (forall c :: c in s.active ==> s.active[c].proxy in if s.active[c].session then s.sessions else s.built)
    && (forall c, d :: c in s.active && d in s.active && s.active[c].session && s.active[c].proxy == s.active[d].proxy ==> c == d)
    && (forall p :: p in s.sessions ==> s.closed[p] == if RunsOn(s.active, p) then 0 else 1)
  }

  ghost predicate CoreInv(s: State) { ResourcesInv(s) && SessionsInv(s) && ClientsInv(s) }

  ghost predicate Inv(s: State) { CoreInv(s) && GenerationsInv(s) }

  // ------------------------------------------------------------------- releasing retained sets

  predicate DistinctTags(retained: seq<ResourceSet>) {
    forall i, j :: 0 <= i < j < |retained| ==> retained[i].generation != retained[j].generation
  }

  lemma {:induction false} NoneTagged(retained: seq<ResourceSet>, g: nat)
    requires forall i :: 0 <= i < |retained| ==> retained[i].generation != g
    ensures Others(retained, g) == retained && TaggedClosings(retained, g) == multiset{}
  {
    if retained != [] {
      NoneTagged(retained[..|retained| - 1], g);
      assert retained == retained[..|retained| - 1] + [retained[|retained| - 1]];
    }
  }

  lemma {:induction false} OneTagged(retained: seq<ResourceSet>, i: nat)
    requires DistinctTags(retained) && i < |retained|
    ensures Others(retained, retained[i].generation) == retained[..i] + retained[i + 1..]
    ensures TaggedClosings(retained, retained[i].generation) == Closings(retained[i].held)
  {
    var init, last := retained[..|retained| - 1], retained[|retained| - 1];
    if i == |retained| - 1 {
      NoneTagged(init, last.generation);
    } else {
      OneTagged(init, i);
      assert init[i + 1..] + [last] == retained[i + 1..];
    }
  }

  // Whatever the tags are, an idle release keeps the sets with another tag, in order.
  lemma {:induction false} OthersAreFiltered(retained: seq<ResourceSet>, g: nat)
    ensures forall r :: r in Others(retained, g) <==> r in retained && r.generation != g
  {
    if retained != [] {
      OthersAreFiltered(retained[..|retained| - 1], g);
    }
  }

  // Close calls for a resource set, seen by one kind of resource.
  lemma ClosingsOf(s: State, held: Served, p: nat)
    requires IdsInv(s)
    requires forall q :: q in held.proxies.Values ==> q in s.built
    requires forall q :: q in held.closers.Values ==> q in s.logFiles
    ensures p in s.built ==> Closings(held)[p] == multiset(held.proxies.Values)[p]
    ensures p in s.logFiles ==> Closings(held)[p] == multiset(held.closers.Values)[p]
    ensures p !in s.built && p !in s.logFiles ==> Closings(held)[p] == 0
  {
  }

  lemma HeldIsMade(s: State, i: nat)
    requires ResourcesInv(s) && i < |s.retained|
    ensures forall q :: q in s.retained[i].held.proxies.Values ==> q in s.built
    ensures forall q :: q in s.retained[i].held.closers.Values ==> q in s.logFiles
  {
    assert Kept(s.retained, false)[i] == s.retained[i].held.proxies;
    assert Kept(s.retained, true)[i] == s.retained[i].held.closers;
  }

  // One retained set is dropped and closed.
  lemma DropInv(s: State, i: nat, t: State)
    requires ResourcesInv(s) && i < |s.retained|
    requires t == s.(retained := s.retained[..i] + s.retained[i + 1..], closed := s.closed + Closings(s.retained[i].held))
    ensures ResourcesInv(t)
    ensures forall p :: p in s.sessions || p >= s.nextId ==> t.closed[p] == s.closed[p]
  {
    hide Conserved, Closings, WellServed, Injective;
    HeldIsMade(s, i);
    forall p: nat {
      ClosingsOf(s, s.retained[i].held, p);
    }
    assert Kept(s.retained, false)[..i] + Kept(s.retained, false)[i + 1..] == Kept(t.retained, false);
    assert Kept(s.retained, true)[..i] + Kept(s.retained, true)[i + 1..] == Kept(t.retained, true);
    PoolRelease(ProxyPool(s), s.closed, i, t.closed);
    PoolRelease(CloserPool(s), s.closed, i, t.closed);
  }

  // t is s after some retained sets were released, closing only what they hold.
  ghost predicate Released(s: State, t: State) {
    && ResourcesInv(t) && DistinctTags(t.retained)
    && t == s.(retained := t.retained, closed := t.closed)
    && (forall p :: p in s.sessions || p >= s.nextId ==> t.closed[p] == s.closed[p])
  }

  lemma ReleaseOne(s: State, i: nat)
    requires ResourcesInv(s) && DistinctTags(s.retained) && i < |s.retained|
    requires !ActiveIn(s.active, s.retained[i].generation)
    ensures Released(s, ReleaseIfIdle(s, s.retained[i].generation))
  {
    var t := ReleaseIfIdle(s, s.retained[i].generation);
    OneTagged(s.retained, i);
    DropInv(s, i, t);
    assert forall k :: 0 <= k < |t.retained| ==> t.retained[k] == s.retained[if k < i then k else k + 1];
  }

  // Releasing the sets of an idle generation drops and closes at most one set.
  lemma ReleaseInv(s: State, g: nat)
    requires ResourcesInv(s) && DistinctTags(s.retained)
    ensures Released(s, ReleaseIfIdle(s, g))
    ensures forall r :: r in ReleaseIfIdle(s, g).retained <==> r in s.retained && (ActiveIn(s.active, g) || r.generation != g)
  {
    hide ResourcesInv, TaggedClosings, Others;
    OthersAreFiltered(s.retained, g);
    if !ActiveIn(s.active, g) {
      if i :| 0 <= i < |s.retained| && s.retained[i].generation == g {
        ReleaseOne(s, i);
      } else {
        NoneTagged(s.retained, g);
        assert s.closed + multiset{} == s.closed;
        assert ReleaseIfIdle(s, g) == s;
      }
    }
  }

  lemma SessionCloseInv(s: State, p: nat)
    requires ResourcesInv(s) && p in s.sessions
    ensures ResourcesInv(s.(closed := s.closed + multiset{p}))
  {
    PoolOtherIds(ProxyPool(s), s.closed, s.closed + multiset{p});
    PoolOtherIds(CloserPool(s), s.closed, s.closed + multiset{p});
  }

  // The client's handler has ended but the retained sets are not yet looked at.
  function Left(s: State, client: nat): State
    requires client in s.active
  {
    var c := s.active[client];
    s.(closed := if c.session then s.closed + multiset{c.proxy} else s.closed, active := s.active - {client})
  }

  lemma LeftInv(s: State, client: nat)
    requires CoreInv(s) && client in s.active
    ensures CoreInv(Left(s, client))
  {
    var c, t := s.active[client], Left(s, client);
    if c.session {
      SessionCloseInv(s, c.proxy);
      assert RunsOn(s.active, c.proxy);
    }
    assert ProxyPool(t) == ProxyPool(if c.session then s.(closed := t.closed) else s);
    assert CloserPool(t) == CloserPool(if c.session then s.(closed := t.closed) else s);
    forall p | p in s.sessions
      ensures RunsOn(t.active, p) <==> RunsOn(s.active, p) && !(c.session && p == c.proxy)
    {
      if d :| d in s.active && s.active[d].session && s.active[d].proxy == p && d != client {
        assert d in t.active && t.active[d] == s.active[d];
      }
    }
  }

  lemma DisconnectInv(s: State, client: nat)
    requires Inv(s)
    ensures Inv(AfterDisconnect(s, client))
  {
    if client in s.active {
      var c, left, t := s.active[client], Left(s, client), AfterDisconnect(s, client);
      LeftInv(s, client);
      ReleaseInv(left, c.generation);
      assert t == ReleaseIfIdle(left, c.generation);
      forall i | 0 <= i < |t.retained|
        ensures t.retained[i].generation < t.generation && ActiveIn(t.active, t.retained[i].generation)
      {
        var r := t.retained[i];
        assert r in s.retained;
        var d :| d in s.active && s.active[d].generation == r.generation;
        if d != client {
          assert d in t.active;
        }
      }
    }
  }

  lemma BindSessions(s: State, name: string)
    requires CoreInv(s) && !s.stopped && Knows(s, name)
    ensures SessionsInv(AfterBind(s, name))
  {
    var t := AfterBind(s, name);
    var id := s.nextClient + 1;
    assert name in s.served.proxies ==> s.served.proxies[name] in ProxyPool(s).current.Values;
    assert forall c :: c in s.active ==> c in t.active && t.active[c] == s.active[c];
    forall p | p in t.sessions
      ensures t.closed[p] == if RunsOn(t.active, p) then 0 else 1
    {
      if p in s.sessions {
        assert RunsOn(t.active, p) <==> RunsOn(s.active, p);
      } else {
        assert t.active[id].session && t.active[id].proxy == p;
      }
    }
  }

  lemma BindCore(s: State, name: string)
    requires CoreInv(s) && !s.stopped
    ensures CoreInv(AfterBind(s, name))
  {
    if Knows(s, name) {
      var t := AfterBind(s, name);
      BindSessions(s, name);
      assert ProxyPool(t) == ProxyPool(s) && CloserPool(t) == CloserPool(s);
    }
  }

  lemma BindInv(s: State, name: string)
    requires Inv(s) && !s.stopped
    ensures Inv(AfterBind(s, name))
  {
    BindCore(s, name);
    assert s.nextClient + 1 !in s.active;
    assert forall c :: c in s.active ==> c in AfterBind(s, name).active && AfterBind(s, name).active[c] == s.active[c];
  }

  // ------------------------------------------------------------------------------ reloading

  // What an attempt created is new to the state: numbered from nextId on and never closed.
  lemma CreatedIsNew(s: State, a: Attempt)
    requires IdsInv(s) && LoadInv(s.served, s.nextId, a)
    ensures forall p :: p in a.created.proxies.Values ==> s.nextId <= p < a.nextId && s.closed[p] == 0 && p !in a.created.closers.Values
    ensures forall p :: p in a.created.closers.Values ==> s.nextId <= p < a.nextId && s.closed[p] == 0 && p !in a.created.proxies.Values
    ensures a.created.proxies.Values !! s.built && a.created.closers.Values !! s.logFiles
  {
  }

  lemma CreatedIds(s: State, a: Attempt, t: State)
    requires IdsInv(s) && LoadInv(s.served, s.nextId, a)
    requires t.nextId == a.nextId && t.sessions == s.sessions
    requires t.built == s.built + a.created.proxies.Values && t.logFiles == s.logFiles + a.created.closers.Values
    requires forall p :: p >= a.nextId ==> t.closed[p] == 0
    ensures IdsInv(t)
  {
    CreatedIsNew(s, a);
  }

  lemma AbandonResources(s: State, a: Attempt)
    requires ResourcesInv(s) && LoadInv(s.served, s.nextId, a)
    ensures ResourcesInv(Abandoned(s, a))
  {
    var t := Abandoned(s, a);
    CreatedIsNew(s, a);
    CreatedIds(s, a, t);
    PoolGiveUp(ProxyPool(s), s.closed, a.created.proxies, t.closed);
    PoolGiveUp(CloserPool(s), s.closed, a.created.closers, t.closed);
  }

  lemma AbandonCore(s: State, a: Attempt)
    requires CoreInv(s) && LoadInv(s.served, s.nextId, a)
    ensures CoreInv(Abandoned(s, a))
  {
    AbandonResources(s, a);
    CreatedIsNew(s, a);
  }

  lemma CommitRetain(s: State, a: Attempt)
    requires ResourcesInv(s) && !s.stopped && LoadInv(s.served, s.nextId, a)
    ensures ResourcesInv(Committed(s, a).(retained := s.retained + [ResourceSet(s.generation, Minus(s.served, a.reused))]))
  {
    var t := Committed(s, a).(retained := s.retained + [ResourceSet(s.generation, Minus(s.served, a.reused))]);
    CreatedIsNew(s, a);
    CreatedIds(s, a, t);
    PoolRetain(ProxyPool(s), s.closed, a.next.proxies, a.created.proxies, a.reused);
    PoolRetain(CloserPool(s), s.closed, a.next.closers, a.created.closers, a.reused);
    assert Kept(t.retained, false) == Kept(s.retained, false) + [s.served.proxies - a.reused];
    assert Kept(t.retained, true) == Kept(s.retained, true) + [s.served.closers - a.reused];
  }

  lemma ObsoleteIsMade(s: State, reused: set<string>)
    requires ResourcesInv(s) && !s.stopped
    ensures forall p :: p in Minus(s.served, reused).proxies.Values ==> p in s.built
    ensures forall p :: p in Minus(s.served, reused).closers.Values ==> p in s.logFiles
  {
    assert forall p :: p in Minus(s.served, reused).proxies.Values ==> p in ProxyPool(s).current.Values;
    assert forall p :: p in Minus(s.served, reused).closers.Values ==> p in CloserPool(s).current.Values;
  }

  lemma ObsoleteClosings(s: State, reused: set<string>, p: nat)
    requires ResourcesInv(s) && !s.stopped
    ensures p in s.built ==> Closings(Minus(s.served, reused))[p] == multiset((s.served.proxies - reused).Values)[p]
    ensures p in s.logFiles ==> Closings(Minus(s.served, reused))[p] == multiset((s.served.closers - reused).Values)[p]
    ensures p !in s.built && p !in s.logFiles ==> Closings(Minus(s.served, reused))[p] == 0
  {
    ObsoleteIsMade(s, reused);
    ClosingsOf(s, Minus(s.served, reused), p);
  }

  // A committed reload after which exactly the obsolete resources have been closed.
  lemma CommitClosed(s: State, a: Attempt, t: State)
    requires ResourcesInv(s) && !s.stopped && LoadInv(s.served, s.nextId, a)
    requires t == Committed(s, a).(closed := t.closed)
    requires forall p :: p in t.built ==> t.closed[p] == s.closed[p] + multiset((s.served.proxies - a.reused).Values)[p]
    requires forall p :: p in t.logFiles ==> t.closed[p] == s.closed[p] + multiset((s.served.closers - a.reused).Values)[p]
    requires forall p :: p >= t.nextId ==> t.closed[p] == 0
    ensures ResourcesInv(t)
  {
    CreatedIsNew(s, a);
    CreatedIds(s, a, t);
    PoolReplace(ProxyPool(s), s.closed, a.next.proxies, a.created.proxies, a.reused, t.closed);
    PoolReplace(CloserPool(s), s.closed, a.next.closers, a.created.closers, a.reused, t.closed);
  }

  lemma CommitClose(s: State, a: Attempt)
    requires ResourcesInv(s) && !s.stopped && LoadInv(s.served, s.nextId, a)
    ensures ResourcesInv(Committed(s, a).(closed := s.closed + Closings(Minus(s.served, a.reused))))
  {
    var closings := Closings(Minus(s.served, a.reused));
    CreatedIsNew(s, a);
    ObsoleteIsMade(s, a.reused);
    forall p: nat
      ensures p in s.built + a.created.proxies.Values ==> closings[p] == multiset((s.served.proxies - a.reused).Values)[p]
      ensures p in s.logFiles + a.created.closers.Values ==> closings[p] == multiset((s.served.closers - a.reused).Values)[p]
      ensures p >= s.nextId ==> closings[p] == 0
    {
      ObsoleteClosings(s, a.reused, p);
    }
    CommitClosed(s, a, Committed(s, a).(closed := s.closed + closings));
  }

  // If every name is reused there is nothing to close.
  lemma NothingObsolete(s: State, reused: set<string>)
    requires WellServed(s.served) && s.served.configs.Keys <= reused
    ensures Closings(Minus(s.served, reused)) == multiset{}
  {
    var held := Minus(s.served, reused);
    assert forall n :: n in held.proxies ==> NameOk(s.served, n);
    assert forall n :: n in held.closers ==> NameOk(s.served, n);
    assert held.proxies == map[] && held.closers == map[];
  }

  // A commit leaves the clients and their session proxies alone.
  lemma CommitClients(s: State, a: Attempt, t: State)
    requires CoreInv(s) && !s.stopped && LoadInv(s.served, s.nextId, a)
    requires t == Committed(s, a).(retained := t.retained, closed := t.closed)
    requires t.closed == s.closed || t.closed == s.closed + Closings(Minus(s.served, a.reused))
    ensures SessionsInv(t) && ClientsInv(t)
  {
    forall p: nat | p in s.sessions ensures t.closed[p] == s.closed[p] {
      ObsoleteClosings(s, a.reused, p);
    }
  }

  // What a commit does with the obsolete resources in each mode.
  function Settled(s: State, a: Attempt, graceful: bool): State {
    var obsolete := Obsolete(s, a.reused);
    if graceful then RetainOrClose(Committed(s, a), obsolete)
    else if obsolete.Some? then Committed(s, a).(closed := s.closed + Closings(obsolete.value.held))
    else Committed(s, a)
  }

  lemma SettledShape(s: State, a: Attempt, graceful: bool)
    requires WellServed(s.served)
    ensures var t := Settled(s, a, graceful);
            && t == Committed(s, a).(retained := t.retained, closed := t.closed)
            && (t.closed == s.closed || t.closed == s.closed + Closings(Minus(s.served, a.reused)))
            && (t.retained == s.retained || (t.retained == s.retained + [ResourceSet(s.generation, Minus(s.served, a.reused))]
                                             && ActiveIn(s.active, s.generation)))
  {
    hide Closings, Minus, WellServed;
  }

  lemma SettledResources(s: State, a: Attempt, graceful: bool)
    requires ResourcesInv(s) && !s.stopped && LoadInv(s.served, s.nextId, a)
    ensures ResourcesInv(Settled(s, a, graceful))
  {
    assert WellServed(s.served);
    hide ResourcesInv, LoadInv, Closings, Minus, WellServed, Committed;
    if s.served.configs.Keys <= a.reused {
      NothingObsolete(s, a.reused);
      assert s.closed + multiset{} == s.closed;
      CommitClose(s, a);
      SameClosed(s, a);
    } else if graceful && ActiveIn(s.active, s.generation) {
      CommitRetain(s, a);
      SameClosed(s, a);
    } else {
      CommitClose(s, a);
      SameClosed(s, a);
    }
  }

  lemma SameClosed(s: State, a: Attempt)
    ensures Committed(s, a).closed == s.closed && Committed(s, a).retained == s.retained
    ensures Committed(s, a).(closed := s.closed) == Committed(s, a)
    ensures Committed(s, a).active == s.active
  {
  }

  lemma SettledGenerations(s: State, a: Attempt, graceful: bool)
    requires GenerationsInv(s) && WellServed(s.served)
    ensures GenerationsInv(Settled(s, a, graceful))
  {
    SettledShape(s, a, graceful);
    hide Closings, Minus, WellServed, Settled;
  }

  lemma CommitInv(s: State, a: Attempt, graceful: bool)
    requires Inv(s) && !s.stopped && LoadInv(s.served, s.nextId, a)
    ensures Inv(Settled(s, a, graceful))
  {
    assert WellServed(s.served);
    hide ResourcesInv, SessionsInv, ClientsInv, GenerationsInv, LoadInv, Settled, WellServed;
    SettledShape(s, a, graceful);
    SettledResources(s, a, graceful);
    CommitClients(s, a, Settled(s, a, graceful));
    SettledGenerations(s, a, graceful);
  }

  lemma ReloadInv(s: State, mode: Mode, source: Source)
    requires Inv(s) && !s.stopped
    ensures Inv(AfterReload(s, mode, source))
  {
    if ReloadAllowed(s, mode) && source.Paths? && source.files != [] {
      LoadKeepsInv(s.served, s.nextId, source.files);
      var (a, ok) := Load(s.served, s.nextId, source.files);
      if ok {
        CommitInv(s, a, mode.graceful);
      } else {
        AbandonCore(s, a);
      }
    }
  }

  // ------------------------------------------------------------------------------- shutdown

  lemma {:induction false} AllClosingsOf(s: State, n: nat, p: nat)
    requires ResourcesInv(s) && n <= |s.retained|
    ensures p in s.built ==> AllClosings(s.retained[..n])[p] == if InKept(Kept(s.retained, false)[..n], p) then 1 else 0
    ensures p in s.logFiles ==> AllClosings(s.retained[..n])[p] == if InKept(Kept(s.retained, true)[..n], p) then 1 else 0
    ensures p !in s.built && p !in s.logFiles ==> AllClosings(s.retained[..n])[p] == 0
  {
    if n > 0 {
      AllClosingsOf(s, n - 1, p);
      HeldIsMade(s, n - 1);
      ClosingsOf(s, s.retained[n - 1].held, p);
      assert s.retained[..n][..n - 1] == s.retained[..n - 1];
      InKeptLast(ProxyPool(s), s.closed, n, p);
      InKeptLast(CloserPool(s), s.closed, n, p);
    }
  }

  lemma InKeptLast(pool: Pool, closed: multiset<nat>, n: nat, p: nat)
    requires Conserved(pool, closed) && 0 < n <= |pool.kept|
    ensures InKept(pool.kept[..n], p) <==> InKept(pool.kept[..n - 1], p) || p in pool.kept[n - 1].Values
    ensures !(InKept(pool.kept[..n - 1], p) && p in pool.kept[n - 1].Values)
  {
    var all, before := pool.kept[..n], pool.kept[..n - 1];
    if p in pool.kept[n - 1].Values {
      assert p in all[n - 1].Values;
    }
    if InKept(before, p) {
      var i :| 0 <= i < |before| && p in before[i].Values;
      assert p in all[i].Values && p in pool.kept[i].Values;
    }
    if InKept(all, p) {
      var i :| 0 <= i < |all| && p in all[i].Values;
      assert i < n - 1 ==> p in before[i].Values;
    }
  }

  lemma ShutdownClosings(s: State, p: nat)
    requires Inv(s) && !s.stopped
    ensures p in s.built || p in s.logFiles ==> AfterShutdown(s).closed[p] == 1
    ensures p !in s.built && p !in s.logFiles ==> AfterShutdown(s).closed[p] == s.closed[p]
  {
    assert s.retained[..|s.retained|] == s.retained;
    assert Kept(s.retained, false)[..|s.retained|] == Kept(s.retained, false);
    assert Kept(s.retained, true)[..|s.retained|] == Kept(s.retained, true);
    assert Minus(s.served, {}) == s.served;
    ObsoleteClosings(s, {}, p);
    AllClosingsOf(s, |s.retained|, p);
  }

  lemma StoppedInv(s: State, t: State)
    requires Inv(s) && !s.stopped && t == s.(closed := t.closed, retained := [], stopped := true)
    requires forall p: nat :: t.closed[p] == if p in s.built || p in s.logFiles then 1 else s.closed[p]
    ensures Inv(t)
  {
  }

  lemma ShutdownInv(s: State)
    requires Inv(s) && !s.stopped
    ensures Inv(AfterShutdown(s))
  {
    var t := AfterShutdown(s);
    forall p: nat ensures t.closed[p] == if p in s.built || p in s.logFiles then 1 else s.closed[p] {
      ShutdownClosings(s, p);
    }
    StoppedInv(s, t);
  }

  // -------------------------------------------------------------------------------- every run

  lemma StepInv(s: State, op: Op)
    requires Inv(s)
    ensures Inv(Step(s, op))
  {
    match op
    case Bind(name) => if !s.stopped { BindInv(s, name); }
    case Disconnect(client) => DisconnectInv(s, client);
    case Reload(mode, source) => if !s.stopped { ReloadInv(s, mode, source); }
    case Shutdown => if !s.stopped { ShutdownInv(s); }
  }

  lemma {:induction false} RunInv(s: State, ops: seq<Op>)
    requires Inv(s)
    ensures Inv(Run(s, ops))
    decreases |ops|
  {
    if ops != [] {
      StepInv(s, ops[0]);
      RunInv(Step(s, ops[0]), ops[1..]);
    }
  }

  ghost predicate Reachable(s: State) { exists ops :: Run(INIT, ops) == s }

  lemma ReachableInv(s: State)
    requires Reachable(s)
    ensures Inv(s)
  {
    var ops :| Run(INIT, ops) == s;
    RunInv(INIT, ops);
  }
}
