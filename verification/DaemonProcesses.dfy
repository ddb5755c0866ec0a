/**
  The real processes behind the proxies of the daemon.  A call starts the process of the proxy its
  client runs on; closing the proxy stops it, and so does its idle timer.  A client that survives
  the closing of its proxy starts a process that the daemon never stops.
*/
module DaemonProcesses {
  import opened Options
  import opened Daemon
  import opened DaemonSafety
  import DaemonTheorems

  // `running` holds the proxies that have a process.
  datatype Machine = Machine(daemon: State, running: set<nat>)

  // Idle: the idle timer of a process fires, or the process exits by itself.
  datatype Event = Daemon(op: Op) | Call(client: nat) | Idle(proxy: nat)

  function Do(m: Machine, e: Event): Machine {
    match e
    case Daemon(op) =>
      var t := Step(m.daemon, op);
      Machine(t, set p | p in m.running && t.closed[p] == m.daemon.closed[p])
    case Call(c) =>
      if c in m.daemon.active then m.(running := m.running + {m.daemon.active[c].proxy}) else m
    case Idle(p) => m.(running := m.running - {p})
  }

  function After(events: seq<Event>): Machine {
    if events == [] then Machine(INIT, {}) else Do(After(events[..|events| - 1]), events[|events| - 1])
  }

  ghost predicate MachineInv(m: Machine) { Inv(m.daemon) && forall p :: p in m.running ==> p in m.daemon.built + m.daemon.sessions }

  lemma MadeOnce(s: State, p: nat)
    requires Inv(s) && p in s.built + s.sessions
    ensures s.closed[p] <= 1
  {
  }

  lemma StepGrows(s: State, op: Op)
    ensures s.built <= Step(s, op).built && s.sessions <= Step(s, op).sessions
    ensures forall p :: Step(s, op).closed[p] >= s.closed[p]
  {
  }

  lemma {:induction false} AfterInv(events: seq<Event>)
    ensures MachineInv(After(events)) && Reachable(After(events).daemon)
  {
    if events == [] {
      assert Run(INIT, []) == INIT;
      ReachableInv(INIT);
    } else {
      hide Inv, Step, Run;
      var m, e := After(events[..|events| - 1]), events[|events| - 1];
      AfterInv(events[..|events| - 1]);
      if e.Daemon? {
        DaemonTheorems.ReachableStep(m.daemon, e.op);
        ReachableInv(Step(m.daemon, e.op));
        StepGrows(m.daemon, e.op);
      } else if e.Call? && e.client in m.daemon.active {
        ClientProxy(m.daemon, e.client);
      }
    }
  }

  lemma ClientProxy(s: State, c: nat)
    requires Inv(s) && c in s.active
    ensures s.active[c].proxy in s.built + s.sessions
  {
  }

  // A process that runs on a proxy that is closed.
  predicate Orphan(m: Machine, p: nat) { p in m.running && m.daemon.closed[p] > 0 }

  // Event i is a call of a client whose proxy is p and closed already.
  predicate LateCallAt(events: seq<Event>, i: nat, p: nat) {
    i < |events| && events[i].Call? && var s := After(events[..i]).daemon;
    events[i].client in s.active && s.active[events[i].client].proxy == p && s.closed[p] > 0
  }

  // Such a call came, and its process has not become idle since.
  ghost predicate LateCall(events: seq<Event>, p: nat) {
    exists i: nat :: LateCallAt(events, i, p) && forall j :: i < j < |events| ==> events[j] != Idle(p)
  }

  lemma LateBefore(events: seq<Event>, p: nat)
    requires events != []
    ensures LateCall(events, p) <==> LateCallAt(events, |events| - 1, p) || (LateCall(events[..|events| - 1], p) && events[|events| - 1] != Idle(p))
  {
    hide After;
    var n := |events| - 1;
    var init := events[..n];
    forall i: nat | i < n ensures LateCallAt(events, i, p) <==> LateCallAt(init, i, p) {
      assert init[..i] == events[..i];
    }
    if LateCall(init, p) && events[n] != Idle(p) {
      var i: nat :| LateCallAt(init, i, p) && forall j :: i < j < |init| ==> init[j] != Idle(p);
      assert LateCallAt(events, i, p);
      assert forall j :: i < j < |events| ==> events[j] == (if j < n then init[j] else events[n]);
    }
    if LateCall(events, p) && !LateCallAt(events, n, p) {
      var i: nat :| LateCallAt(events, i, p) && forall j :: i < j < |events| ==> events[j] != Idle(p);
      assert LateCallAt(init, i, p);
      assert forall j :: i < j < |init| ==> init[j] == events[j];
    }
  }

  /** A process runs on a closed proxy exactly if a client called after the proxy was closed, and the process has not become idle since. */
  lemma {:induction false} OrphanIff(events: seq<Event>, p: nat)
    ensures Orphan(After(events), p) <==> LateCall(events, p)
  {
    if events != [] {
      hide Step, Inv;
      var n := |events| - 1;
      var m := After(events[..n]);
      OrphanIff(events[..n], p);
      LateBefore(events, p);
      AfterInv(events[..n]);
      AfterInv(events);
      if events[n].Daemon? {
        StepGrows(m.daemon, events[n].op);
        if Orphan(m, p) {
          MadeOnce(Step(m.daemon, events[n].op), p);
        }
      }
    }
  }

  /** Whatever the daemon does, only the idle timer stops such a process. */
  lemma {:induction false} OnlyIdleStops(events: seq<Event>, more: seq<Event>, p: nat)
    requires Orphan(After(events), p) && Idle(p) !in more
    ensures Orphan(After(events + more), p)
  {
    if more == [] {
      assert events + more == events;
    } else {
      var n := |more| - 1;
      OnlyIdleStops(events, more[..n], p);
      assert (events + more)[..|events + more| - 1] == events + more[..n];
      OrphanIff(events + more[..n], p);
      LateBefore(events + more, p);
      OrphanIff(events + more, p);
    }
  }

  /** Any other process runs on a proxy that is served, or retained, or is that of an active client's session, and will be closed with it. */
  lemma OthersAreOwned(events: seq<Event>, p: nat)
    requires p in After(events).running && !Orphan(After(events), p)
    ensures var s := After(events).daemon;
            DaemonTheorems.InService(s, p) || (exists i :: DaemonTheorems.RetainedIn(s, i, p)) || RunsOn(s.active, p)
  {
    AfterInv(events);
    var s := After(events).daemon;
    if p in s.built {
      DaemonTheorems.Conservation(s, p);
    }
  }

  /** Once the daemon has stopped and its clients are gone, the processes that run are those of such late calls. */
  lemma RunningAtTheEnd(events: seq<Event>, p: nat)
    requires After(events).daemon.stopped && After(events).daemon.active == map[]
    ensures p in After(events).running <==> LateCall(events, p)
  {
    AfterInv(events);
    OrphanIff(events, p);
    var s := After(events).daemon;
    if p in s.built {
      DaemonTheorems.Conservation(s, p);
    }
  }

  function Ops(ops: seq<Op>): seq<Event> { seq(|ops|, i requires 0 <= i < |ops| => Daemon(ops[i])) }

  lemma {:induction false} OnlyOps(ops: seq<Op>)
    ensures After(Ops(ops)) == Machine(Run(INIT, ops), {})
  {
    if ops != [] {
      var n := |ops| - 1;
      OnlyOps(ops[..n]);
      DaemonTheorems.RunSnoc(INIT, ops[..n], ops[n]);
      assert ops[..n] + [ops[n]] == ops && Ops(ops)[..n] == Ops(ops[..n]);
    }
  }

  lemma AfterMore(events: seq<Event>, e: Event)
    ensures After(events + [e]) == Do(After(events), e)
  {
    assert (events + [e])[..|events|] == events;
  }

  /** Two graceful reloads and a call of the client that has lost its proxy leave a process running when the daemon stops. */
  lemma LeftRunning(first: Source, second: Source, third: Source) returns (events: seq<Event>, p: nat)
    requires DaemonTheorems.Lists(first, 0, 0) && DaemonTheorems.Lists(second, 0, 1) && DaemonTheorems.Lists(third, 1, 1)
    ensures After(events).daemon.stopped && p in After(events).running && Orphan(After(events), p)
  {
    var s, t, client := DaemonTheorems.TwoGracefulReloads(first, second, third);
    var ops :| Run(INIT, ops) == t;
    p := t.active[client].proxy;
    OnlyOps(ops);
    AfterMore(Ops(ops), Call(client));
    var called := Ops(ops) + [Call(client)];
    OnlyIdleStops(called, [Daemon(Shutdown)], p);
    events := called + [Daemon(Shutdown)];
    AfterMore(called, Daemon(Shutdown));
  }
}
