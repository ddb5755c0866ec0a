/**
  How things end: every client can finish its request and leave by its own steps, whatever the process
  and the other clients do; after it hangs up nothing is sent to it; and what empties the cache.
*/
module UpstreamEnds {
  import opened Options
  import opened Upstream
  import opened UpstreamSafety
  import opened UpstreamKinds

  // ------------------------------------------------------------- finishing a request

  // How many more steps a client needs at most.
  function Distance(ph: Phase): nat {
    match ph
    case Asked(_) => 4
    case Forwarding(_, _) => 3
    case Calling(_, _, _) => 3
    case Caching(_, _) => 3
    case Answering(_, _) => 2
    case Releasing(_, _) => 1
    case _ => 0
  }

  // A step of the serving loop that can be taken at once: timeouts fire, starting fails, writing works.
  function OwnStep(ph: Phase): ServeStep
    requires Distance(ph) > 0
  {
    match ph
    case Asked(_) => CacheMiss(true)
    case Forwarding(_, _) => StartFails
    case Calling(_, _, _) => GiveUp
    case Caching(_, _) => StoreCache
    case Answering(_, _) => WriteAnswer(true)
    case Releasing(_, _) => Release
  }

  predicate Settled(ph: Phase) { ph == Idle || ph == Ended || ph == Gone }

  // Nothing but steps of the serving loop of the client.
  predicate OwnSteps(steps: seq<Step>, c: nat) { forall i :: 0 <= i < |steps| ==> steps[i].OfServer? && steps[i].c == c }

  lemma OwnStepAllowed(s: State, c: nat)
    requires c in s.clients && Distance(s.clients[c].phase) > 0
    requires s.clients[c].phase.Caching? ==> s.clients[c].phase.pos < |s.link.stream|
    ensures var a := OfServer(c, OwnStep(s.clients[c].phase));
            && Enabled(s, a) && c in Do(s, a).clients && Distance(Do(s, a).clients[c].phase) < Distance(s.clients[c].phase)
            && !Do(s, a).clients[c].phase.Caching?
    ensures var ph, t := s.clients[c].phase, Do(s, OfServer(c, OwnStep(s.clients[c].phase)));
            && (Pending(ph).Some? ==>
                  if ph.Answering? then t.out == s.out + [Replied(c, ph.rid, |s.clients[c].received|, ph.origin)]
                  else Pending(t.clients[c].phase) == Pending(ph) && t.out == s.out && t.clients[c].received == s.clients[c].received)
            && (ph.Releasing? ==> t.out == s.out && t.clients[c].phase == if ph.ended then Ended else Idle)
  {
  }

  lemma {:induction false} CanSettle(s: State, c: nat) returns (steps: seq<Step>)
    requires c in s.clients
    requires s.clients[c].phase.Caching? ==> s.clients[c].phase.pos < |s.link.stream|
    ensures OwnSteps(steps, c) && |steps| <= Distance(s.clients[c].phase) && Exec(s, steps).Some?
    ensures var t := Exec(s, steps).value;
            && c in t.clients && Settled(t.clients[c].phase) && s.out <= t.out
            && (Pending(s.clients[c].phase).Some? ==>
                  exists origin :: t.out == s.out + [Replied(c, Pending(s.clients[c].phase).value, |s.clients[c].received|, origin)])
            && (Pending(s.clients[c].phase).None? ==> t.out == s.out)
    decreases Distance(s.clients[c].phase)
  {
    var ph := s.clients[c].phase;
    if Distance(ph) == 0 {
      steps := [];
      assert Exec(s, []) == Some(s);
    } else {
      hide Enabled, Do, OwnStep;
      OwnStepAllowed(s, c);
      var a := OfServer(c, OwnStep(ph));
      var rest := CanSettle(Do(s, a), c);
      steps := [a] + rest;
      assert steps[1..] == rest && steps[0] == a;
      assert Exec(s, steps) == Exec(Do(s, a), rest);
      if ph.Answering? {
        assert Exec(Do(s, a), rest).value.out == s.out + [Replied(c, ph.rid, |s.clients[c].received|, ph.origin)];
      }
    }
  }

  /**
    From every reachable state the serving loop of a client can answer the request it is busy with, and
    does not need the process, the read loop or another client for it.
  */
  lemma RequestCanEnd(firstId: nat, past: seq<Step>, s: State, c: nat) returns (steps: seq<Step>)
    requires Exec(Init(firstId), past) == Some(s) && c in s.clients && Pending(s.clients[c].phase).Some?
    ensures OwnSteps(steps, c) && |steps| <= 4 && Exec(s, steps).Some?
    ensures var t := Exec(s, steps).value;
            && c in t.clients && Settled(t.clients[c].phase)
            && exists origin :: t.out == s.out + [Replied(c, Pending(s.clients[c].phase).value, |s.clients[c].received|, origin)]
  {
    hide Exec, Inv;
    RunKinds(firstId, past, s);
    InvCalls(s, firstId);
    assert CallInv(s.link, c, s.clients[c]);
    steps := CanSettle(s, c);
  }

  // ---------------------------------------------------------------------------- leaving

  predicate ClientSteps(steps: seq<Step>, c: nat) {
    forall i :: 0 <= i < |steps| ==> (steps[i].OfServer? || steps[i].OfForwarder?) && steps[i].c == c
  }

  lemma {:induction false} ExecBoth(s: State, first: seq<Step>, second: seq<Step>)
    requires Exec(s, first).Some?
    ensures Exec(s, first + second) == Exec(Exec(s, first).value, second)
    decreases |first|
  {
    if first == [] {
      assert first + second == second;
    } else {
      assert (first + second)[1..] == first[1..] + second;
      ExecBoth(Do(s, first[0]), first[1..], second);
    }
  }

  lemma StepThen(s: State, a: Step, rest: seq<Step>)
    requires Enabled(s, a)
    ensures Exec(s, [a] + rest) == Exec(Do(s, a), rest)
  {
    assert ([a] + rest)[1..] == rest;
  }

  // The notification in hand is passed on.
  lemma ForwarderRests(s: State, c: nat) returns (steps: seq<Step>)
    requires c in s.clients && Settled(s.clients[c].phase)
    ensures ClientSteps(steps, c) && |steps| <= 2 && Exec(s, steps).Some?
    ensures var t := Exec(s, steps).value;
            c in t.clients && t.clients[c].phase == s.clients[c].phase && (t.clients[c].forwarder == Detached || t.clients[c].forwarder == Listening)
  {
    var f := s.clients[c].forwarder;
    match f
    case Carrying(_) =>
      var a, b := OfForwarder(c, Invalidate), OfForwarder(c, SendNote);
      var t := Do(s, a);
      steps := [a] + [b];
      StepThen(s, a, [b]);
      StepThen(t, b, []);
      assert [b] + [] == [b] && Exec(Do(t, b), []) == Some(Do(t, b));
    case Handled(_) =>
      var b := OfForwarder(c, SendNote);
      steps := [b];
      StepThen(s, b, []);
      assert [b] + [] == [b] && Exec(Do(s, b), []) == Some(Do(s, b));
    case _ =>
      steps := [];
      assert Exec(s, []) == Some(s);
  }

  // Hang up, and be cleaned up.
  lemma CanGo(s: State, c: nat) returns (steps: seq<Step>)
    requires c in s.clients && Settled(s.clients[c].phase)
    requires s.clients[c].forwarder == Detached || s.clients[c].forwarder == Listening
    ensures OwnSteps(steps, c) && |steps| <= 2 && Exec(s, steps).Some?
    ensures c in Exec(s, steps).value.clients && Exec(s, steps).value.clients[c].phase == Gone
  {
    var a, b := OfServer(c, Hangup), OfServer(c, Cleanup);
    match s.clients[c].phase
    case Idle =>
      steps := [a] + [b];
      StepThen(s, a, [b]);
      StepThen(Do(s, a), b, []);
      assert [b] + [] == [b] && Exec(Do(Do(s, a), b), []) == Some(Do(Do(s, a), b));
    case Ended =>
      steps := [b];
      StepThen(s, b, []);
      assert [b] + [] == [b] && Exec(Do(s, b), []) == Some(Do(s, b));
    case Gone =>
      steps := [];
      assert Exec(s, []) == Some(s);
  }

  /** From every reachable state every client can leave by steps of its own two threads alone. */
  lemma ClientCanLeave(firstId: nat, past: seq<Step>, s: State, c: nat) returns (steps: seq<Step>)
    requires Exec(Init(firstId), past) == Some(s) && c in s.clients
    ensures ClientSteps(steps, c) && |steps| <= 8 && Exec(s, steps).Some?
    ensures c in Exec(s, steps).value.clients && Exec(s, steps).value.clients[c].phase == Gone
  {
    hide Exec, Inv;
    RunKinds(firstId, past, s);
    InvCalls(s, firstId);
    assert CallInv(s.link, c, s.clients[c]);
    var first := CanSettle(s, c);
    var t := Exec(s, first).value;
    var second := ForwarderRests(t, c);
    var third := CanGo(Exec(t, second).value, c);
    steps := first + second + third;
    ExecBoth(s, first, second);
    ExecBoth(s, first + second, third);
  }

  /** The read loop can always end once the process has exited. */
  lemma LoopCanStop(s: State)
    requires s.link.exited && s.link.loop != Stopped
    ensures Enabled(s, OfLoop(StopLoop)) && Do(s, OfLoop(StopLoop)).link.loop == Stopped
    ensures Do(s, OfLoop(StopLoop)).link.(loop := s.link.loop) == s.link
  {
  }

  // ----------------------------------------------------------------------- after the end

  // Written to the client as an answer.
  predicate AnswerTo(e: Event, c: nat) { (e.Replied? || e.Rejected?) && e.client == c }

  lemma EndedStep(s: State, a: Step, c: nat)
    requires Enabled(s, a) && c in s.clients && (s.clients[c].phase == Ended || s.clients[c].phase == Gone)
    ensures c in Do(s, a).clients && (Do(s, a).clients[c].phase == Ended || Do(s, a).clients[c].phase == Gone)
    ensures Do(s, a).clients[c].received == s.clients[c].received
    ensures s.out <= Do(s, a).out && forall i :: |s.out| <= i < |Do(s, a).out| ==> !AnswerTo(Do(s, a).out[i], c)
  {
    BroadcastKeepsPhases(s.clients, |s.link.stream|);
  }

  lemma {:induction false} EndedRun(s: State, steps: seq<Step>, c: nat)
    requires c in s.clients && (s.clients[c].phase == Ended || s.clients[c].phase == Gone) && Exec(s, steps).Some?
    ensures var t := Exec(s, steps).value;
            && c in t.clients && (t.clients[c].phase == Ended || t.clients[c].phase == Gone)
            && t.clients[c].received == s.clients[c].received
            && s.out <= t.out && forall i :: |s.out| <= i < |t.out| ==> !AnswerTo(t.out[i], c)
    decreases |steps|
  {
    if steps != [] {
      hide Enabled, Do;
      EndedStep(s, steps[0], c);
      EndedRun(Do(s, steps[0]), steps[1..], c);
    }
  }

  /** After a client has hung up no request of it is read and no answer is written to it, whatever follows. */
  lemma NothingAfterHangup(s: State, steps: seq<Step>, c: nat)
    requires c in s.clients && Exec(s, [OfServer(c, Hangup)] + steps).Some?
    ensures var t := Exec(s, [OfServer(c, Hangup)] + steps).value;
            && c in t.clients && t.clients[c].received == s.clients[c].received
            && s.out <= t.out && forall i :: |s.out| <= i < |t.out| ==> !AnswerTo(t.out[i], c)
  {
    var a := OfServer(c, Hangup);
    assert ([a] + steps)[0] == a;
    StepThen(s, a, steps);
    EndedRun(Do(s, a), steps, c);
  }

  // --------------------------------------------------------------- what the steps are for

  // How often a client sent something that is no request, and how often it was told so.
  function Malformed(past: seq<Step>, c: nat): nat {
    if past == [] then 0 else Malformed(past[..|past| - 1], c) + if past[|past| - 1] == OfServer(c, Reject) then 1 else 0
  }

  function Rejections(out: seq<Event>, c: nat): nat {
    if out == [] then 0 else Rejections(out[..|out| - 1], c) + if out[|out| - 1] == Rejected(c) then 1 else 0
  }

  lemma OneMore(out: seq<Event>, e: Option<Event>, c: nat)
    ensures Rejections(Log(out, e), c) == Rejections(out, c) + if e == Some(Rejected(c)) then 1 else 0
  {
    if e.Some? {
      assert (out + [e.value])[..|out|] == out;
    }
  }

  lemma StepRejects(s: State, a: Step, c: nat)
    requires Enabled(s, a)
    ensures Rejections(Do(s, a).out, c) == Rejections(s.out, c) + if a == OfServer(c, Reject) then 1 else 0
    ensures Do(s, a).link.exited <==> s.link.exited || a == OfLoop(Exit)
  {
    hide ServeClient, ServeCache, ForwardClient, ForwardCache, LoopClients, Rejections, Log;
    match a
    case OfServer(d, v) => OneMore(s.out, ServeOut(d, s.clients[d], v), c);
    case OfForwarder(d, f) => OneMore(s.out, ForwardOut(d, s.clients[d], f), c);
    case _ =>
  }

  lemma MalformedMore(past: seq<Step>, a: Step, c: nat)
    ensures Malformed(past + [a], c) == Malformed(past, c) + if a == OfServer(c, Reject) then 1 else 0
    ensures OfLoop(Exit) in past + [a] <==> OfLoop(Exit) in past || a == OfLoop(Exit)
  {
    assert (past + [a])[..|past|] == past;
  }

  /** Each malformed message is answered by one rejection, and the process counts as exited exactly if it has. */
  lemma {:induction false} RejectionsMatch(firstId: nat, past: seq<Step>, s: State, c: nat)
    requires Exec(Init(firstId), past) == Some(s)
    ensures Rejections(s.out, c) == Malformed(past, c)
    ensures s.link.exited <==> OfLoop(Exit) in past
  {
    if past == [] {
      assert Exec(Init(firstId), []) == Some(Init(firstId));
    } else {
      hide Enabled, Do, Rejections, Malformed, Exec;
      var init, a := past[..|past| - 1], past[|past| - 1];
      assert init + [a] == past;
      var before := ExecInit(Init(firstId), init, a);
      RejectionsMatch(firstId, init, before, c);
      StepRejects(before, a, c);
      MalformedMore(init, a, c);
    }
  }

  // ------------------------------------------------------------------ what empties the cache

  predicate ListChanged(k: Link, p: nat) { p < |k.stream| && k.stream[p] == Notification(true) }

  ghost predicate OnlyListChanged(s: State) {
    && (forall p :: p in s.cache.invalidated ==> ListChanged(s.link, p))
    && (forall c :: c in s.clients && s.clients[c].forwarder.Carrying? ==> ListChanged(s.link, s.clients[c].forwarder.pos))
  }

  lemma ListChangedStep(s: State, a: Step)
    requires OnlyListChanged(s) && Enabled(s, a)
    ensures OnlyListChanged(Do(s, a))
  {
    if a.OfServer? {
      ServeStream(s, a);
    } else {
      BroadcastForwarders(s.clients, |s.link.stream|);
    }
  }

  lemma ServeStream(s: State, a: Step)
    requires a.OfServer? && Enabled(s, a)
    ensures Do(s, a).link.stream == s.link.stream && Do(s, a).cache.invalidated == s.cache.invalidated
    ensures forall c :: c in Do(s, a).clients ==> c in s.clients && Do(s, a).clients[c].forwarder == s.clients[c].forwarder
  {
  }

  lemma BroadcastForwarders(clients: map<nat, Client>, n: nat)
    ensures forall c :: c in Broadcast(clients, n) ==> c in clients && Broadcast(clients, n)[c].forwarder == clients[c].forwarder
  {
  }

  /** Only the list_changed notifications invalidate the cache. */
  lemma {:induction false} InvalidatedByListChanged(firstId: nat, past: seq<Step>, s: State)
    requires Exec(Init(firstId), past) == Some(s)
    ensures OnlyListChanged(s)
  {
    if past != [] {
      hide Enabled, Do, OnlyListChanged;
      var n := |past| - 1;
      assert past[..n] + [past[n]] == past;
      var before := ExecInit(Init(firstId), past[..n], past[n]);
      InvalidatedByListChanged(firstId, past[..n], before);
      ListChangedStep(before, past[n]);
    } else {
      assert Exec(Init(firstId), []) == Some(Init(firstId));
    }
  }

  // The step is an invalidation for a list_changed notification, an answer that may not be
  // stored, or a client that finds the cache unusable.
  predicate Empties(s: State, a: Step)
    requires Enabled(s, a)
  {
    match a
    case OfForwarder(c, Invalidate) => ListChanged(s.link, s.clients[c].forwarder.pos)
    case OfServer(c, StoreCache) => !s.link.stream[s.clients[c].phase.pos].Response? || !s.link.stream[s.clients[c].phase.pos].storable
    case OfServer(_, CacheMiss(_)) => true
    case _ => false
  }

  // The step stores the answer at p.
  predicate Fills(s: State, a: Step, p: nat)
    requires Enabled(s, a)
  {
    match a
    case OfServer(c, StoreCache) => s.clients[c].phase.pos == p && s.link.stream[p].Response? && s.link.stream[p].storable
    case _ => false
  }

  /** In every reachable state these steps empty the cache and no others do, and only a storable answer fills it. */
  lemma CacheChangesBy(firstId: nat, past: seq<Step>, s: State, a: Step)
    requires Exec(Init(firstId), past) == Some(s) && Enabled(s, a)
    ensures Do(s, a).cache.slot.None? <==> Empties(s, a) || (s.cache.slot.None? && forall p: nat :: !Fills(s, a, p))
    ensures forall p: nat :: Do(s, a).cache.slot == Some(p) <==> Fills(s, a, p) || (s.cache.slot == Some(p) && !Empties(s, a) && forall q: nat :: !Fills(s, a, q))
  {
    InvalidatedByListChanged(firstId, past, s);
    hide Exec;
    match a
    case OfServer(c, v) =>
      if v.StoreCache? && !Empties(s, a) {
        assert Fills(s, a, s.clients[c].phase.pos);
      }
    case _ =>
  }
}
