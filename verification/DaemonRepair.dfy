/**
  The generation check replaced by a check on the users of the retained proxies: what a
  graceful reload promises then holds for every client, whatever generation it was bound in.
*/
module DaemonRepair {
  import opened Options
  import opened Daemon
  import opened DaemonSafety
  import opened DaemonTheorems

  // No forced reload and no shutdown.
  predicate Calm(op: Op) { !op.Shutdown? && (op.Reload? ==> !op.mode.force) }

  predicate AllCalm(ops: seq<Op>) { forall i :: 0 <= i < |ops| ==> Calm(ops[i]) }

  predicate InUse(active: map<nat, Client>, held: Served) {
    exists c | c in active :: !active[c].session && active[c].proxy in held.proxies.Values
  }

  function Drop(s: State, i: nat): State
    requires i < |s.retained|
  {
    s.(retained := s.retained[..i] + s.retained[i + 1..], closed := s.closed + Closings(s.retained[i].held))
  }

  // Close the first n retained sets that nobody uses.
  function Sweep(s: State, n: nat): State
    requires n <= |s.retained|
    decreases n
  {
    if n == 0 then s
    else if InUse(s.active, s.retained[n - 1].held) then Sweep(s, n - 1)
    else Sweep(Drop(s, n - 1), n - 1)
  }

  function SettledByUse(s: State, a: Attempt): State {
    var t, obsolete := Committed(s, a), Obsolete(s, a.reused);
    if obsolete.None? then t
    else if InUse(s.active, obsolete.value.held) then t.(retained := s.retained + [obsolete.value])
    else t.(closed := s.closed + Closings(obsolete.value.held))
  }

  // As `Step`, but retained sets are kept for as long as one of their proxies has a user.
  function RepairedStep(s: State, op: Op): State {
    match op
    case Disconnect(c) => if c in s.active then Sweep(Left(s, c), |s.retained|) else s
    case Reload(mode, source) =>
      if !s.stopped && mode == GRACEFUL && ReloadSucceeds(s, mode, source) then
        SettledByUse(s, Load(s.served, s.nextId, source.files).0)
      else Step(s, op)
    case _ => Step(s, op)
  }

  function RepairedRun(s: State, ops: seq<Op>): State
    decreases |ops|
  {
    if ops == [] then s else RepairedRun(RepairedStep(s, ops[0]), ops[1..])
  }

  ghost predicate HeldSomewhere(s: State, p: nat) {
    p in s.served.proxies.Values || exists i :: 0 <= i < |s.retained| && p in s.retained[i].held.proxies.Values
  }

  // No client has lost the proxy it runs on.
  ghost predicate UsersInv(s: State) {
    !s.stopped && forall c :: c in s.active && !s.active[c].session ==> HeldSomewhere(s, s.active[c].proxy)
  }

  lemma DropUsers(s: State, i: nat)
    requires UsersInv(s) && i < |s.retained| && !InUse(s.active, s.retained[i].held)
    ensures UsersInv(Drop(s, i))
  {
    var t := Drop(s, i);
    forall c | c in t.active && !t.active[c].session ensures HeldSomewhere(t, t.active[c].proxy) {
      var p := s.active[c].proxy;
      if p !in s.served.proxies.Values {
        var k :| 0 <= k < |s.retained| && p in s.retained[k].held.proxies.Values;
        assert t.retained[if k < i then k else k - 1] == s.retained[k];
      }
    }
  }

  lemma DropCore(s: State, i: nat)
    requires CoreInv(s) && i < |s.retained|
    ensures CoreInv(Drop(s, i))
  {
    DropInv(s, i, Drop(s, i));
  }

  lemma {:induction false} SweepInv(s: State, n: nat)
    requires CoreInv(s) && UsersInv(s) && n <= |s.retained|
    ensures CoreInv(Sweep(s, n)) && UsersInv(Sweep(s, n))
    decreases n
  {
    hide CoreInv, UsersInv, InUse;
    if n > 0 {
      if InUse(s.active, s.retained[n - 1].held) {
        SweepInv(s, n - 1);
      } else {
        DropCore(s, n - 1);
        DropUsers(s, n - 1);
        SweepInv(Drop(s, n - 1), n - 1);
      }
    }
  }

  // Every proxy served before a commit is served or obsolete after it.
  lemma TakenOrObsolete(next: map<string, nat>, created: map<string, nat>, from: map<string, nat>, reused: set<string>, p: nat)
    requires Takes(next, created, from, reused) && p in from.Values
    ensures p in next.Values || p in (from - reused).Values
  {
    var n :| n in from && from[n] == p;
    if n in reused {
      assert n in next && next[n] == p;
    } else {
      assert n in (from - reused) && (from - reused)[n] == p;
    }
  }

  lemma SettledCore(s: State, a: Attempt)
    requires CoreInv(s) && !s.stopped && LoadInv(s.served, s.nextId, a)
    ensures CoreInv(SettledByUse(s, a))
  {
    if s.served.configs.Keys <= a.reused {
      NothingObsolete(s, a.reused);
      assert s.closed + multiset{} == s.closed;
      CommitClose(s, a);
    } else if InUse(s.active, Minus(s.served, a.reused)) {
      CommitRetain(s, a);
    } else {
      CommitClose(s, a);
    }
    CommitClients(s, a, SettledByUse(s, a));
  }

  lemma SettledUsers(s: State, a: Attempt)
    requires CoreInv(s) && UsersInv(s) && LoadInv(s.served, s.nextId, a)
    ensures UsersInv(SettledByUse(s, a))
  {
    var t := SettledByUse(s, a);
    assert s.retained <= t.retained;
    forall c | c in t.active && !t.active[c].session ensures HeldSomewhere(t, t.active[c].proxy) {
      var p := s.active[c].proxy;
      if p in s.served.proxies.Values {
        TakenOrObsolete(a.next.proxies, a.created.proxies, s.served.proxies, a.reused, p);
        if p in (s.served.proxies - a.reused).Values {
          assert InUse(s.active, Minus(s.served, a.reused));
          ObsoleteProxy(s, a.reused, p);
          assert t.retained[|s.retained|].held == Minus(s.served, a.reused);
        }
      } else {
        var i :| 0 <= i < |s.retained| && p in s.retained[i].held.proxies.Values;
        assert t.retained[i] == s.retained[i];
      }
    }
  }

  lemma ObsoleteProxy(s: State, reused: set<string>, p: nat)
    requires WellServed(s.served) && p in (s.served.proxies - reused).Values
    ensures !(s.served.configs.Keys <= reused)
  {
    var n :| n in s.served.proxies - reused;
    assert NameOk(s.served, n);
  }

  lemma RepairedStepInv(s: State, op: Op)
    requires CoreInv(s) && UsersInv(s) && Calm(op)
    ensures CoreInv(RepairedStep(s, op)) && UsersInv(RepairedStep(s, op))
  {
    match op
    case Disconnect(c) =>
      if c in s.active {
        LeftInv(s, c);
        SweepInv(Left(s, c), |s.retained|);
      }
    case Bind(name) =>
      BindCore(s, name);
      assert name in s.served.proxies ==> s.served.proxies[name] in s.served.proxies.Values;
    case Reload(mode, source) => RepairedReloadInv(s, mode, source);
  }

  // The ways an unforced reload can go.
  lemma RepairedReloadCases(s: State, mode: Mode, source: Source)
    requires !s.stopped && !mode.force && source.Paths?
    ensures var t, (a, ok) := RepairedStep(s, Reload(mode, source)), Load(s.served, s.nextId, source.files);
            || t == s
            || (!ok && t == Abandoned(s, a))
            || (ok && mode.graceful && t == SettledByUse(s, a))
            || (ok && s.active == map[] && t == Settled(s, a, false))
  {
  }

  lemma RepairedReloadInv(s: State, mode: Mode, source: Source)
    requires CoreInv(s) && UsersInv(s) && !mode.force
    ensures CoreInv(RepairedStep(s, Reload(mode, source))) && UsersInv(RepairedStep(s, Reload(mode, source)))
  {
    if source.Paths? {
      var (a, ok) := Load(s.served, s.nextId, source.files);
      LoadKeepsInv(s.served, s.nextId, source.files);
      RepairedReloadCases(s, mode, source);
      if !ok {
        AbandonCore(s, a);
      } else {
        SettledCore(s, a);
        SettledUsers(s, a);
        if s.active == map[] {
          PlainReloadInv(s, a);
        }
      }
    }
  }

  // A plain reload happens only when there are no clients.
  lemma PlainReloadInv(s: State, a: Attempt)
    requires CoreInv(s) && UsersInv(s) && LoadInv(s.served, s.nextId, a) && s.active == map[]
    ensures CoreInv(Settled(s, a, false)) && UsersInv(Settled(s, a, false))
  {
    if s.served.configs.Keys <= a.reused {
      NothingObsolete(s, a.reused);
      assert s.closed + multiset{} == s.closed;
    }
    CommitClose(s, a);
    CommitClients(s, a, Settled(s, a, false));
  }

  lemma {:induction false} RepairedRunInv(s: State, ops: seq<Op>)
    requires CoreInv(s) && UsersInv(s) && AllCalm(ops)
    ensures CoreInv(RepairedRun(s, ops)) && UsersInv(RepairedRun(s, ops))
    decreases |ops|
  {
    if ops != [] {
      RepairedStepInv(s, ops[0]);
      RepairedRunInv(RepairedStep(s, ops[0]), ops[1..]);
    }
  }

  lemma HeldIsOpenSomewhere(s: State, p: nat)
    requires ResourcesInv(s) && !s.stopped && HeldSomewhere(s, p)
    ensures s.closed[p] == 0
  {
    assert forall i :: 0 <= i < |s.retained| ==> Kept(s.retained, false)[i] == s.retained[i].held.proxies;
    if i :| 0 <= i < |s.retained| && p in s.retained[i].held.proxies.Values {
      assert p in ProxyPool(s).kept[i].Values;
    } else {
      assert p in ProxyPool(s).current.Values;
    }
  }

  /** With the repaired check no calm run ever closes the proxy of an active client. */
  lemma RepairKeepsEveryUser(ops: seq<Op>, c: nat)
    requires AllCalm(ops) && c in RepairedRun(INIT, ops).active
    ensures RepairedRun(INIT, ops).closed[RepairedRun(INIT, ops).active[c].proxy] == 0
  {
    RepairedRunInv(INIT, ops);
    var s := RepairedRun(INIT, ops);
    if s.active[c].session {
      assert RunsOn(s.active, s.active[c].proxy);
    } else {
      HeldIsOpenSomewhere(s, s.active[c].proxy);
    }
  }
}
