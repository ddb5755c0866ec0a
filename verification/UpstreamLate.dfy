/**
  When an ack timeout costs the guarantees.  From a state in which the cache is fresh a run
  without further ack timeouts leads to a stale cache if and only if the timer has already fired
  on an answer that will still be cached and that a list_changed can still pass; and likewise for
  the order of what is written to clients.
*/
module UpstreamLate {
  import opened Buffers
  import opened Options
  import opened Upstream
  import opened UpstreamSafety

  // ------------------------------------------------------------------ runs without timeouts

  predicate Calm(steps: seq<Step>) { forall i :: 0 <= i < |steps| ==> steps[i] != OfLoop(AckTimeout) }

  ghost predicate Leads(s: State, t: State) { exists steps :: Calm(steps) && Exec(s, steps) == Some(t) }

  lemma {:induction false} ExecTwice(s: State, first: seq<Step>, second: seq<Step>)
    requires Exec(s, first).Some?
    ensures Exec(s, first + second) == Exec(Exec(s, first).value, second)
    decreases |first|
  {
    if first == [] {
      assert first + second == second;
    } else {
      assert (first + second)[1..] == first[1..] + second;
      ExecTwice(Do(s, first[0]), first[1..], second);
    }
  }

  lemma LeadsTransitive(s: State, t: State, u: State)
    requires Leads(s, t) && Leads(t, u)
    ensures Leads(s, u)
  {
    var first :| Calm(first) && Exec(s, first) == Some(t);
    var second :| Calm(second) && Exec(t, second) == Some(u);
    ExecTwice(s, first, second);
    assert Calm(first + second);
  }

  lemma Stays(s: State)
    ensures Leads(s, s)
  {
    assert Calm([]) && Exec(s, []) == Some(s);
  }

  lemma ExecOne(s: State, a: Step)
    requires Enabled(s, a)
    ensures Exec(s, [a]) == Some(Do(s, a))
  {
    assert [a][1..] == [];
    assert Exec(Do(s, a), []) == Some(Do(s, a));
  }

  lemma Then(s: State, t: State, a: Step)
    requires Leads(s, t) && Enabled(t, a) && a != OfLoop(AckTimeout)
    ensures Leads(s, Do(t, a))
  {
    ExecOne(t, a);
    assert Calm([a]) && Leads(t, Do(t, a));
    LeadsTransitive(s, t, Do(t, a));
  }

  lemma Reaches(s: State, t: State, firstId: nat)
    requires Reachable(s, firstId) && Leads(s, t)
    ensures Reachable(t, firstId)
  {
    var first :| Exec(Init(firstId), first) == Some(s);
    var second :| Calm(second) && Exec(s, second) == Some(t);
    ExecTwice(Init(firstId), first, second);
  }

  // ------------------------------------------------------------------------ what is doomed

  predicate Relevant(g: Guarantee, k: Link, n: nat) { IsNote(k, n) && (g.Freshness? ==> k.stream[n].listChanged) }

  // The notifications that a client has still to act on, for the purpose of the guarantee.
  function Ahead(g: Guarantee, cl: Client): seq<nat> {
    (match cl.forwarder
     case Carrying(n) => [n]
     case Handled(n) => if g.Order? then [n] else []
     case _ => []) + cl.buffer
  }

  ghost predicate Coming(g: Guarantee, s: State, n: nat) {
    Relevant(g, s.link, n) && exists d: nat :: d in s.clients && s.clients[d].phase != Gone && n in Ahead(g, s.clients[d])
  }

  // Position i of the queue holds the answer that a call with the id will take.
  predicate FirstMatch(k: Link, i: nat, id: int) {
    i < |k.queue| && Carries(k, k.queue[i], id) && forall j :: 0 <= j < i ==> !Carries(k, k.queue[j], id)
  }

  // An answer that the guarantee is about, once a call has taken it.
  predicate Counts(g: Guarantee, k: Link, p: nat, tools: bool) {
    g.Freshness? ==> tools && p < |k.stream| && k.stream[p].Response? && k.stream[p].usable && k.stream[p].storable
  }

  // The client is going to take the answer at p from the queue.
  ghost predicate WillTake(g: Guarantee, k: Link, ph: Phase, p: nat) {
    ph.Calling? && Counts(g, k, p, ph.tools) && exists i: nat :: FirstMatch(k, i, ph.id) && k.queue[i] == p
  }

  ghost predicate Due(g: Guarantee, s: State, c: nat, p: nat) {
    c in s.clients && (Awaits(g, s.link, s.clients[c].phase, p) || WillTake(g, s.link, s.clients[c].phase, p))
  }

  // A later notification can still be acted on before the answer at p is.
  ghost predicate CanPass(g: Guarantee, s: State, p: nat) {
    s.link.loop != Stopped || exists n: nat :: n > p && (Passed(g, s, n) || Coming(g, s, n))
  }

  ghost predicate Doomed(g: Guarantee, s: State) {
    exists c, p :: p in s.link.expired && Due(g, s, c, p) && CanPass(g, s, p)
  }

  // The process has answered no id that was not allotted (JSON-RPC 2.0, section 5).
  ghost predicate Solicited(k: Link) {
    forall p: nat :: Queued(k, p) && p in k.expired ==> p < |k.stream| && k.stream[p].Response? && k.stream[p].id <= k.nextId
  }

  // ------------------------------------------------------------- delivery of notifications

  predicate Delivers(cl: Client) {
    && (cl.phase != Gone && (cl.forwarder != Detached || cl.buffer != []) ==> cl.subscribed)
    && (cl.phase == Gone ==> !cl.subscribed && (cl.forwarder == Detached || cl.forwarder == Listening))
  }

  ghost predicate DeliveryInv(s: State) { forall c :: c in s.clients ==> Delivers(s.clients[c]) }

  lemma DeliveryStep(s: State, a: Step)
    requires DeliveryInv(s) && Enabled(s, a)
    ensures DeliveryInv(Do(s, a))
  {
  }

  lemma {:induction false} DeliveryRun(s: State, steps: seq<Step>)
    requires DeliveryInv(s) && Exec(s, steps).Some?
    ensures DeliveryInv(Exec(s, steps).value)
    decreases |steps|
  {
    if steps != [] {
      DeliveryStep(s, steps[0]);
      DeliveryRun(Do(s, steps[0]), steps[1..]);
    }
  }

  lemma ReachableDelivers(s: State, firstId: nat)
    requires Reachable(s, firstId)
    ensures Inv(s, firstId) && DeliveryInv(s)
  {
    ReachableInv(s, firstId);
    var steps :| Exec(Init(firstId), steps) == Some(s);
    DeliveryRun(Init(firstId), steps);
  }

  // ------------------------------------------------------ nothing doomed stays nothing doomed

  ghost predicate Sound(s: State, firstId: nat) { Inv(s, firstId) && DeliveryInv(s) && Solicited(s.link) }

  lemma SoundStep(s: State, a: Step, firstId: nat)
    requires Sound(s, firstId) && Enabled(s, a) && a != OfLoop(AckTimeout)
    ensures Sound(Do(s, a), firstId) && Do(s, a).link.expired == s.link.expired
  {
    hide Inv, DeliveryInv, Solicited, Do, Enabled, Queued;
    InvStep(s, a, firstId);
    DeliveryStep(s, a);
    SolicitedStep(s, a, firstId);
    QueueStep(s, a);
  }

  lemma ServeQueue(k: Link, cache: Cache, c: nat, cl: Client, v: ServeStep)
    requires ServeEnabled(k, cache, c, cl, v)
    ensures ServeLink(k, cache, c, cl, v).expired == k.expired
    ensures forall p: nat :: Queued(ServeLink(k, cache, c, cl, v), p) ==> Queued(k, p)
  {
    hide Matches, Queued;
    var after := ServeLink(k, cache, c, cl, v).queue;
    assert after == if v.TakeResponse? then k.queue[1..] else k.queue;
    forall p: nat | p in after ensures p in k.queue {
    }
    QueuedIs(ServeLink(k, cache, c, cl, v), k);
  }

  lemma QueuedIs(k: Link, k': Link)
    requires forall p: nat :: p in k.queue ==> p in k'.queue
    ensures forall p: nat :: Queued(k, p) ==> Queued(k', p)
  {
  }

  lemma LoopQueue(s: State, l: LoopStep)
    requires LoopEnabled(s.link, l) && l != AckTimeout
    ensures LoopLink(s, l).expired == s.link.expired
    ensures forall p: nat :: Queued(LoopLink(s, l), p) ==> Queued(s.link, p) || (s.link.loop.Offering? && p == s.link.loop.pos)
  {
  }

  // What is queued was so before or has just been offered, and no timer fires.
  lemma QueueStep(s: State, a: Step)
    requires Enabled(s, a) && a != OfLoop(AckTimeout)
    ensures Do(s, a).link.expired == s.link.expired
    ensures forall p: nat :: Queued(Do(s, a).link, p) ==> Queued(s.link, p) || (s.link.loop.Offering? && p == s.link.loop.pos)
  {
    hide ServeEnabled, LoopEnabled, ServeLink, LoopLink, ServeClient, ServeCache, ServeOut, ForwardClient, ForwardCache, ForwardOut, LoopClients, Queued;
    match a
    case OfServer(c, v) => ServeQueue(s.link, s.cache, c, s.clients[c], v);
    case OfLoop(l) => LoopQueue(s, l);
    case _ =>
  }

  lemma TimedOf(s: State, firstId: nat)
    requires Inv(s, firstId)
    ensures TimedInv(s.link, s.clients) && CallsInv(s, firstId)
  {
  }

  lemma SolicitedStep(s: State, a: Step, firstId: nat)
    requires Inv(s, firstId) && Solicited(s.link) && Enabled(s, a) && a != OfLoop(AckTimeout)
    ensures Solicited(Do(s, a).link)
  {
    hide Inv, Do, Enabled, CallsInv;
    TimedOf(s, firstId);
    StepGrows(s, a, firstId);
    QueueStep(s, a);
  }

  // What the lemmas below use of the invariants.
  ghost predicate Base(s: State) {
    && TimedInv(s.link, s.clients) && RanNotes(s.link, s.cache, s.out) && QueueInv(s.link) && Solicited(s.link)
    && (forall c :: c in s.clients ==> CallInv(s.link, c, s.clients[c]))
  }

  lemma BaseOf(s: State, firstId: nat)
    requires Sound(s, firstId)
    ensures Base(s)
  {
    hide CallInv, Solicited, RanNotes;
  }

  // What is still to be taken or done after a step was so before it.
  lemma DueBefore(g: Guarantee, s: State, a: Step, c: nat, p: nat)
    requires Base(s) && Enabled(s, a) && a != OfLoop(AckTimeout)
    requires p in s.link.expired && Due(g, Do(s, a), c, p)
    ensures Due(g, s, c, p)
  {
    hide CallInv, Solicited, RanNotes;
    match a
    case OfLoop(l) => DueBeforeLoop(g, s, l, c, p);
    case Connect(d) =>
    case OfServer(d, v) =>
      if d == c {
        DueBeforeOwn(g, s, c, v, p);
      } else {
        DueBeforeOther(g, s, d, v, c, p);
      }
    case OfForwarder(d, f) =>
  }

  // A queue that has become longer at the end, or messages that were read since, change nothing for p.
  lemma TakeBefore(g: Guarantee, k: Link, k': Link, ph: Phase, p: nat)
    requires QueueInv(k) && k.stream <= k'.stream && WillTake(g, k', ph, p) && p < |k.stream|
    requires k'.queue == k.queue || (|k'.queue| == |k.queue| + 1 && k'.queue[..|k.queue|] == k.queue && k'.queue[|k.queue|] != p)
    ensures WillTake(g, k, ph, p)
  {
    var i: nat :| FirstMatch(k', i, ph.id) && k'.queue[i] == p;
    assert forall j :: 0 <= j < |k.queue| ==> IsAnswer(k, k.queue[j]) && k'.queue[j] == k.queue[j];
    assert FirstMatch(k, i, ph.id);
  }

  lemma DueBeforeLoop(g: Guarantee, s: State, l: LoopStep, c: nat, p: nat)
    requires TimedInv(s.link, s.clients) && QueueInv(s.link) && LoopEnabled(s.link, l) && l != AckTimeout
    requires p in s.link.expired && Due(g, Do(s, OfLoop(l)), c, p)
    ensures Due(g, s, c, p)
  {
    hide QueueInv, WillTake, Held;
    var t := Do(s, OfLoop(l));
    BroadcastKeepsPhases(s.clients, |s.link.stream|);
    var ph := s.clients[c].phase;
    assert t.clients[c].phase == ph;
    if WillTake(g, t.link, ph, p) {
      TakeBefore(g, s.link, t.link, ph, p);
    }
  }

  lemma DueBeforeOwn(g: Guarantee, s: State, c: nat, v: ServeStep, p: nat)
    requires Solicited(s.link) && Enabled(s, OfServer(c, v))
    requires p in s.link.expired && Due(g, Do(s, OfServer(c, v)), c, p)
    ensures Due(g, s, c, p)
  {
    hide Held;
    var t, k, cl := Do(s, OfServer(c, v)), s.link, s.clients[c];
    if Awaits(g, t.link, t.clients[c].phase, p) {
      AwaitsAfter(g, k, s.cache, c, cl, v, p);
      if v.TakeResponse? && Matches(k, cl) && p == k.queue[0] {
        assert FirstMatch(k, 0, cl.phase.id);
      }
    } else {
      TakeBeforeOwn(g, k, s.cache, c, cl, v, p);
    }
  }

  lemma TakeBeforeOwn(g: Guarantee, k: Link, cache: Cache, c: nat, cl: Client, v: ServeStep, p: nat)
    requires Solicited(k) && ServeEnabled(k, cache, c, cl, v) && p in k.expired
    requires WillTake(g, ServeLink(k, cache, c, cl, v), ServeClient(k, cache, c, cl, v).phase, p)
    ensures WillTake(g, k, cl.phase, p)
  {
    var k', ph := ServeLink(k, cache, c, cl, v), ServeClient(k, cache, c, cl, v).phase;
    var i: nat :| FirstMatch(k', i, ph.id) && k'.queue[i] == p;
    assert Queued(k, p);
    if v.TakeResponse? {
      assert !Carries(k, k.queue[0], ph.id);
      assert forall j :: 0 <= j < |k'.queue| ==> k'.queue[j] == k.queue[j + 1];
      assert FirstMatch(k, i + 1, ph.id);
    }
  }

  lemma DueBeforeOther(g: Guarantee, s: State, d: nat, v: ServeStep, c: nat, p: nat)
    requires (forall c :: c in s.clients ==> CallInv(s.link, c, s.clients[c])) && Enabled(s, OfServer(d, v)) && d != c
    requires p in s.link.expired && Due(g, Do(s, OfServer(d, v)), c, p)
    ensures Due(g, s, c, p)
  {
    hide Held;
    var t, ph := Do(s, OfServer(d, v)), s.clients[c].phase;
    assert t.link.stream == s.link.stream && t.clients[c] == s.clients[c];
    if ph.Calling? {
      assert CallInv(s.link, c, s.clients[c]);
      assert CallInv(s.link, d, s.clients[d]);
      assert t.link.queue == s.link.queue;
    }
  }

  lemma CouldPassBefore(g: Guarantee, s: State, a: Step, firstId: nat, p: nat)
    requires Sound(s, firstId) && Enabled(s, a) && a != OfLoop(AckTimeout) && CanPass(g, Do(s, a), p)
    ensures CanPass(g, s, p)
  {
    hide Sound, Passed, Coming;
    var t := Do(s, a);
    if s.link.loop == Stopped {
      assert t.link.loop == Stopped;
      var n: nat :| n > p && (Passed(g, t, n) || Coming(g, t, n));
      PassedBefore(g, s, a, firstId, n);
    }
  }

  lemma ComingBefore(g: Guarantee, s: State, a: Step, n: nat)
    requires Enabled(s, a) && s.link.loop == Stopped && Coming(g, Do(s, a), n)
    ensures Coming(g, s, n)
  {
    var t := Do(s, a);
    assert t.link.stream == s.link.stream;
    var e :| e in t.clients && t.clients[e].phase != Gone && n in Ahead(g, t.clients[e]);
    if a.OfForwarder? && a.c == e {
      AheadBefore(g, s.link, s.clients[e], a.f, n);
    }
    assert e in s.clients && s.clients[e].phase != Gone && n in Ahead(g, s.clients[e]);
  }

  lemma PassedBefore(g: Guarantee, s: State, a: Step, firstId: nat, n: nat)
    requires Sound(s, firstId) && Enabled(s, a) && s.link.loop == Stopped && (Passed(g, Do(s, a), n) || Coming(g, Do(s, a), n))
    ensures Passed(g, s, n) || Coming(g, s, n)
  {
    hide Inv, Coming;
    if Coming(g, Do(s, a), n) {
      ComingBefore(g, s, a, n);
    } else if a.OfServer? {
      ServeKeepsNotes(s.link, s.cache, a.c, s.clients[a.c], a.v);
    } else if a.OfForwarder? && !Passed(g, s, n) {
      NotesOfInv(s, firstId, a.c);
      ActedOn(g, s, a.c, a.f, n);
    }
  }

  // What a step of a forwarder acts on was on its way.
  lemma ActedOn(g: Guarantee, s: State, c: nat, f: ForwardStep, n: nat)
    requires Enabled(s, OfForwarder(c, f)) && NoteInv(s.link, s.clients[c], Notes(s.out, c)) && Delivers(s.clients[c])
    requires Passed(g, Do(s, OfForwarder(c, f)), n) && !Passed(g, s, n)
    ensures Coming(g, s, n)
  {
    var cl := s.clients[c];
    assert cl.phase != Gone;
    assert cl.forwarder.Carrying? || cl.forwarder.Handled?;
    assert cl.forwarder.pos == n && Pipeline(cl)[0] == n;
    assert n in Ahead(g, cl);
  }

  lemma OfInv(s: State, firstId: nat)
    requires Inv(s, firstId)
    ensures AcksInv(s.link, s.clients) && CallsInv(s, firstId) && TimedInv(s.link, s.clients) && RanNotes(s.link, s.cache, s.out)
  {
    hide AcksInv, CallsInv, RepliesInv, OnceInv, TimedInv, RanNotes, InTime;
  }

  lemma NotesOfInv(s: State, firstId: nat, c: nat)
    requires Inv(s, firstId) && c in s.clients
    ensures NoteInv(s.link, s.clients[c], Notes(s.out, c))
  {
    hide NoteInv, AcksInv, CallsInv, RepliesInv, OnceInv;
  }

  lemma AheadBefore(g: Guarantee, k: Link, cl: Client, f: ForwardStep, n: nat)
    requires ForwardEnabled(k, cl, f) && n in Ahead(g, ForwardClient(k, cl, f))
    ensures n in Ahead(g, cl)
  {
  }

  lemma NotDoomedStep(g: Guarantee, s: State, a: Step, firstId: nat)
    requires Sound(s, firstId) && Kept(g, s) && !Doomed(g, s) && Enabled(s, a) && a != OfLoop(AckTimeout)
    ensures Kept(g, Do(s, a)) && !Doomed(g, Do(s, a))
  {
    hide Sound, Inv, Due, CanPass, AcksInv;
    var t := Do(s, a);
    SoundStep(s, a, firstId);
    BaseOf(s, firstId);
    if c, p :| p in t.link.expired && Due(g, t, c, p) && CanPass(g, t, p) {
      DueBefore(g, s, a, c, p);
      CouldPassBefore(g, s, a, firstId, p);
    }
    assert AcksInv(s.link, s.clients) by { AcksOfSound(s, firstId); }
    KeptStep(g, s, a);
    forall c, p ensures !AwaitsInVain(g, s, c, p) {
      if c in s.clients && Awaits(g, s.link, s.clients[c].phase, p) && Overtaken(g, s, p) {
        VainIsDoomed(g, s, c, p);
      }
    }
  }

  lemma AcksOfSound(s: State, firstId: nat)
    requires Sound(s, firstId)
    ensures AcksInv(s.link, s.clients)
  {
    hide AcksInv, CallsInv, RepliesInv, NotesInv, OnceInv;
  }

  lemma VainIsDoomed(g: Guarantee, s: State, c: nat, p: nat)
    requires TimedInv(s.link, s.clients) && RanNotes(s.link, s.cache, s.out) && AwaitsInVain(g, s, c, p)
    ensures p in s.link.expired && Due(g, s, c, p) && CanPass(g, s, p)
  {
    if p !in s.link.expired {
      NotOvertaken(g, s, c, p);
    }
  }

  lemma {:induction false} NotDoomedRun(g: Guarantee, s: State, steps: seq<Step>, firstId: nat)
    requires Sound(s, firstId) && Kept(g, s) && !Doomed(g, s) && Calm(steps) && Exec(s, steps).Some?
    ensures Kept(g, Exec(s, steps).value)
    decreases |steps|
  {
    hide Sound, Doomed;
    if steps != [] {
      SoundStep(s, steps[0], firstId);
      NotDoomedStep(g, s, steps[0], firstId);
      NotDoomedRun(g, Do(s, steps[0]), steps[1..], firstId);
    }
  }

  // ---------------------------------------------------------------------- runs that do harm

  // A new client d joins and its forwarder starts listening.
  lemma Joins(s: State, d: nat) returns (t: State)
    requires d !in s.clients
    ensures Leads(s, t)
    ensures t == s.(clients := s.clients[d := Client(Idle, true, [], Listening, [])])
  {
    Stays(s);
    Then(s, s, Connect(d));
    t := Do(s, Connect(d));
    Then(s, t, OfServer(d, Subscribe));
    t := Do(t, OfServer(d, Subscribe));
    Then(s, t, OfForwarder(d, Attach));
    t := Do(t, OfForwarder(d, Attach));
    assert t.clients == s.clients[d := Client(Idle, true, [], Listening, [])];
  }

  // The process announces a list_changed and the forwarder of d runs its invalidation.
  lemma Announces(s: State, d: nat) returns (t: State)
    requires d in s.clients && s.clients[d] == Client(Idle, true, [], Listening, []) && s.link.loop == Reading
    ensures Leads(s, t)
    ensures t.link == s.link.(stream := s.link.stream + [Notification(true)]) && t.out == s.out
    ensures t.cache == Cache(None, s.cache.invalidated + {|s.link.stream|})
    ensures d in t.clients && t.clients[d].forwarder == Handled(|s.link.stream|)
    ensures forall c | c in s.clients :: c in t.clients && t.clients[c].phase == s.clients[c].phase
  {
    var n := |s.link.stream|;
    var read := OfLoop(ReadMessage(Notification(true)));
    BroadcastKeepsPhases(s.clients, n);
    Stays(s);
    Then(s, s, read);
    t := Do(s, read);
    assert t.clients[d].buffer == [n] && t.link.stream[n] == Notification(true);
    Then(s, t, OfForwarder(d, TakeNote));
    t := Do(t, OfForwarder(d, TakeNote));
    Then(s, t, OfForwarder(d, Invalidate));
    t := Do(t, OfForwarder(d, Invalidate));
  }

  lemma Unused(keys: set<nat>) returns (d: nat)
    ensures forall k :: k in keys ==> k < d
  {
    d := 0;
    if keys != {} {
      var k :| k in keys;
      var rest := Unused(keys - {k});
      d := if k < rest then rest else k + 1;
      assert forall j :: j in keys ==> j == k || j in keys - {k};
    }
  }

  // What others do while c stays as it is.
  ghost predicate Beside(s: State, t: State, c: nat) {
    && Leads(s, t) && c in s.clients && c in t.clients && t.clients[c].phase == s.clients[c].phase
    && t.link.stream == s.link.stream && t.link.expired == s.link.expired
  }

  lemma BesideTransitive(s: State, t: State, u: State, c: nat)
    requires Beside(s, t, c) && Beside(t, u, c)
    ensures Beside(s, u, c)
  {
    LeadsTransitive(s, t, u);
  }

  lemma LeadsInv(s: State, t: State, firstId: nat)
    requires Inv(s, firstId) && Leads(s, t)
    ensures Inv(t, firstId)
  {
    hide Inv;
    var steps :| Calm(steps) && Exec(s, steps) == Some(t);
    RunInv(s, steps, firstId);
  }

  // A new client makes a call.
  lemma CallsAnew(s: State, c: nat) returns (t: State, e: nat)
    requires c in s.clients && s.link.lock == None
    ensures Beside(s, t, c) && e != c && e in t.clients && t.clients[e].phase.Calling?
    ensures t.link.queue == s.link.queue && t.link.loop == s.link.loop
  {
    e := Unused(s.clients.Keys);
    t := Joins(s, e);
    Then(s, t, OfServer(e, ReadRequest(0, Forwarded)));
    t := Do(t, OfServer(e, ReadRequest(0, Forwarded)));
    Then(s, t, OfServer(e, BeginCall(true)));
    t := Do(t, OfServer(e, BeginCall(true)));
  }

  lemma TakesOne(s: State, e: nat, c: nat) returns (t: State)
    requires c in s.clients && e in s.clients && c != e && s.clients[e].phase.Calling?
    requires s.link.queue != [] && s.link.queue[0] < |s.link.stream|
    ensures Beside(s, t, c) && t.link.queue == s.link.queue[1..] && t.link.loop == s.link.loop
  {
    Stays(s);
    Then(s, s, OfServer(e, TakeResponse));
    t := Do(s, OfServer(e, TakeResponse));
  }

  // The head of the queue is taken by a call of a client other than c.
  lemma TakesHead(s: State, c: nat, firstId: nat) returns (t: State)
    requires Inv(s, firstId) && c in s.clients && !s.clients[c].phase.Calling? && s.link.queue != []
    ensures Beside(s, t, c) && t.link.queue == s.link.queue[1..] && t.link.loop == s.link.loop
  {
    hide Inv, RepliesInv, TimedInv, RanNotes;
    OfInv(s, firstId);
    assert IsAnswer(s.link, s.link.queue[0]);
    if s.link.lock == None {
      var u, e := CallsAnew(s, c);
      t := TakesOne(u, e, c);
      BesideTransitive(s, u, t, c);
    } else {
      t := TakesOne(s, s.link.lock.value, c);
    }
  }

  // A client other than c that holds the answer at q writes it and lets the read loop go on.
  lemma Finishes(s: State, d: nat, q: nat, c: nat) returns (t: State)
    requires AcksInv(s.link, s.clients) && c in s.clients && c != d && Holds(s.clients, d, q)
    ensures Beside(s, t, c) && q in t.link.closedAcks && t.link.loop == s.link.loop
  {
    Stays(s);
    t := s;
    if t.clients[d].phase.Caching? {
      Then(s, t, OfServer(d, StoreCache));
      t := Do(t, OfServer(d, StoreCache));
    }
    if t.clients[d].phase.Answering? {
      Then(s, t, OfServer(d, WriteAnswer(true)));
      t := Do(t, OfServer(d, WriteAnswer(true)));
    }
    Then(s, t, OfServer(d, Release));
    t := Do(t, OfServer(d, Release));
  }

  // While c holds an answer whose timer has fired, the others bring the read loop back to reading.
  lemma Drains(s: State, c: nat, p: nat, firstId: nat) returns (t: State)
    requires Inv(s, firstId) && Holds(s.clients, c, p) && p in s.link.expired && s.link.loop != Stopped
    ensures Beside(s, t, c) && t.link.loop == Reading
    decreases if s.link.loop.Offering? then 2 * |s.link.queue| + 3 else |s.link.queue|, 0
  {
    hide Inv;
    OfInv(s, firstId);
    Stays(s);
    var k := s.link;
    if k.loop == Reading {
      t := s;
    } else if k.loop.Offering? && |k.queue| < QUEUE {
      Then(s, s, OfLoop(Offer));
      t := DrainsOn(s, Do(s, OfLoop(Offer)), c, p, firstId);
    } else if k.loop.Waiting? && k.loop.pos in k.closedAcks {
      Then(s, s, OfLoop(SeeAck));
      t := Do(s, OfLoop(SeeAck));
    } else if d :| k.loop.Waiting? && Holds(s.clients, d, k.loop.pos) {
      t := Finishes(s, d, k.loop.pos, c);
      Then(s, t, OfLoop(SeeAck));
      t := Do(t, OfLoop(SeeAck));
    } else {
      var u := TakesHead(s, c, firstId);
      t := DrainsOn(s, u, c, p, firstId);
    }
  }

  lemma DrainsOn(s: State, u: State, c: nat, p: nat, firstId: nat) returns (t: State)
    requires Inv(s, firstId) && Holds(s.clients, c, p) && p in s.link.expired
    requires Beside(s, u, c) && u.link.loop != Stopped
    ensures Beside(s, t, c) && t.link.loop == Reading
    decreases if u.link.loop.Offering? then 2 * |u.link.queue| + 3 else |u.link.queue|, 1
  {
    hide Inv;
    LeadsInv(s, u, firstId);
    t := Drains(u, c, p, firstId);
    BesideTransitive(s, u, t, c);
  }

  // Everything but the queue, the acks and the phase of c is as before.
  ghost predicate OnlyTook(s: State, t: State, c: nat) {
    && Leads(s, t) && t.clients.Keys == s.clients.Keys && c in s.clients
    && (forall d :: d in s.clients ==> t.clients[d] == if d == c then s.clients[c].(phase := t.clients[c].phase) else s.clients[d])
    && t.link.loop == s.link.loop && t.link.stream == s.link.stream && t.link.expired == s.link.expired
    && t.cache == s.cache && t.out == s.out
  }

  lemma Takes(s: State, c: nat) returns (t: State)
    requires c in s.clients && s.clients[c].phase.Calling? && s.link.queue != [] && s.link.queue[0] < |s.link.stream|
    ensures t == Do(s, OfServer(c, TakeResponse)) && OnlyTook(s, t, c)
  {
    Stays(s);
    Then(s, s, OfServer(c, TakeResponse));
    t := Do(s, OfServer(c, TakeResponse));
  }

  lemma TookAgain(s: State, t: State, u: State, c: nat)
    requires OnlyTook(s, t, c) && OnlyTook(t, u, c)
    ensures OnlyTook(s, u, c)
  {
    LeadsTransitive(s, t, u);
  }

  // A waiting call takes the answers before its own off the queue, and then its own.
  lemma {:induction false} TakesOwn(g: Guarantee, s: State, c: nat, i: nat) returns (t: State)
    requires c in s.clients && s.clients[c].phase.Calling? && QueueInv(s.link)
    requires FirstMatch(s.link, i, s.clients[c].phase.id) && Counts(g, s.link, s.link.queue[i], s.clients[c].phase.tools)
    ensures OnlyTook(s, t, c) && Awaits(g, t.link, t.clients[c].phase, s.link.queue[i])
    decreases i
  {
    hide OnlyTook, QueueInv;
    var k, id := s.link, s.clients[c].phase.id;
    assert k.queue[0] < |k.stream| by { HeadRead(k); }
    t := Takes(s, c);
    if i > 0 {
      TakenMore(k);
      assert !Carries(k, k.queue[0], id);
      assert forall j :: 0 <= j < |t.link.queue| ==> t.link.queue[j] == k.queue[j + 1];
      assert t.clients[c] == s.clients[c] && t.link == CloseAck(k.(queue := k.queue[1..]), k.queue[0]);
      var u := t;
      assert FirstMatch(u.link, i - 1, id);
      t := TakesOwn(g, u, c, i - 1);
      TookAgain(s, u, t, c);
    }
  }

  lemma HeadRead(k: Link)
    requires QueueInv(k) && k.queue != []
    ensures k.queue[0] < |k.stream|
  {
    assert IsAnswer(k, k.queue[0]);
  }

  lemma TakenMore(k: Link)
    requires QueueInv(k) && k.queue != []
    ensures QueueInv(CloseAck(k.(queue := k.queue[1..]), k.queue[0]))
  {
    assert IsAnswer(k, k.queue[0]);
    assert forall j :: 0 <= j < |k.queue[1..]| ==> k.queue[1..][j] == k.queue[j + 1];
  }

  // How far a client is from having acted on everything ahead of it.
  function Distance(cl: Client): nat {
    4 * |cl.buffer| + match cl.forwarder { case Carrying(_) => 3 case Handled(_) => 2 case Detached => 1 case Listening => 0 }
  }

  function NextForward(cl: Client): ForwardStep {
    match cl.forwarder
    case Detached => Attach
    case Listening => TakeNote
    case Carrying(_) => Invalidate
    case Handled(_) => SendNote
  }

  // The forwarder of d takes its next step.
  lemma ActsOnce(g: Guarantee, s: State, d: nat, n: nat) returns (t: State)
    requires d in s.clients && Delivers(s.clients[d]) && s.clients[d].phase != Gone && NoteInv(s.link, s.clients[d], Notes(s.out, d))
    requires Relevant(g, s.link, n) && n in Ahead(g, s.clients[d])
    ensures Leads(s, t) && t.link == s.link && d in t.clients && t.clients == s.clients[d := t.clients[d]]
    ensures t.clients[d].phase == s.clients[d].phase
    ensures Delivers(t.clients[d])
    ensures Passed(g, t, n) || (n in Ahead(g, t.clients[d]) && Distance(t.clients[d]) < Distance(s.clients[d]))
  {
    var cl, f := s.clients[d], NextForward(s.clients[d]);
    assert cl.forwarder == Listening ==> Pipeline(cl) == cl.buffer && IsNote(s.link, Pipeline(cl)[0]);
    Stays(s);
    Then(s, s, OfForwarder(d, f));
    t := Do(s, OfForwarder(d, f));
    assert f == SendNote ==> t.out[|s.out|] == Notified(d, cl.forwarder.pos);
    if !Passed(g, t, n) {
      StillAhead(g, s.link, cl, f, n, Notes(s.out, d));
    }
  }

  // The forwarder of d goes on until it has acted on the notification n.
  lemma Acts(g: Guarantee, s: State, d: nat, n: nat, firstId: nat) returns (t: State)
    requires Inv(s, firstId) && d in s.clients && Delivers(s.clients[d]) && s.clients[d].phase != Gone
    requires Relevant(g, s.link, n) && n in Ahead(g, s.clients[d])
    ensures Leads(s, t) && Passed(g, t, n) && t.link == s.link && t.clients.Keys == s.clients.Keys
    ensures forall e :: e in s.clients ==> t.clients[e].phase == s.clients[e].phase
    decreases Distance(s.clients[d])
  {
    hide Inv, Delivers, Ahead, Passed, Distance;
    NotesOfInv(s, firstId, d);
    t := ActsOnce(g, s, d, n);
    if !Passed(g, t, n) {
      LeadsInv(s, t, firstId);
      var u := t;
      t := Acts(g, u, d, n, firstId);
      LeadsTransitive(s, u, t);
    }
  }

  lemma StillAhead(g: Guarantee, k: Link, cl: Client, f: ForwardStep, n: nat, sent: seq<nat>)
    requires ForwardEnabled(k, cl, f) && NoteInv(k, cl, sent) && Relevant(g, k, n) && n in Ahead(g, cl)
    requires f.Invalidate? && g.Freshness? ==> cl.forwarder.pos != n
    requires f.SendNote? && g.Order? ==> cl.forwarder.pos != n
    ensures n in Ahead(g, ForwardClient(k, cl, f)) && Distance(ForwardClient(k, cl, f)) < Distance(cl)
  {
  }

  // An answer that a notification has overtaken is stored, or written.
  lemma Harms(g: Guarantee, s: State, c: nat, p: nat, firstId: nat) returns (t: State)
    requires Inv(s, firstId) && AwaitsInVain(g, s, c, p)
    ensures Leads(s, t) && !Kept(g, t)
  {
    OfInv(s, firstId);
    Stays(s);
    assert Holds(s.clients, c, p) && IsAnswer(s.link, p);
    var n: nat :| n > p && Passed(g, s, n);
    t := s;
    if s.clients[c].phase.Caching? {
      Then(s, t, OfServer(c, StoreCache));
      t := Do(t, OfServer(c, StoreCache));
    }
    if g.Order? {
      var i :| 0 <= i < |s.out| && s.out[i].Notified? && s.out[i].pos == n;
      Then(s, t, OfServer(c, WriteAnswer(true)));
      t := Do(t, OfServer(c, WriteAnswer(true)));
      assert t.out[i] == s.out[i] && t.out[|s.out|].Replied?;
    }
  }

  // A later notification is acted on while c still has to store or write its answer.
  lemma Overtakes(g: Guarantee, s: State, c: nat, p: nat, firstId: nat) returns (t: State)
    requires Inv(s, firstId) && DeliveryInv(s) && p in s.link.expired && p < |s.link.stream|
    requires c in s.clients && Awaits(g, s.link, s.clients[c].phase, p) && CanPass(g, s, p)
    ensures Leads(s, t) && AwaitsInVain(g, t, c, p)
  {
    hide Inv;
    if s.link.loop != Stopped {
      assert Holds(s.clients, c, p);
      var u := Drains(s, c, p, firstId);
      var d := Unused(u.clients.Keys);
      var v := Joins(u, d);
      t := Announces(v, d);
      LeadsTransitive(u, v, t);
      LeadsTransitive(s, u, t);
      var n := |s.link.stream|;
      if g.Order? {
        Then(s, t, OfForwarder(d, SendNote));
        t := Do(t, OfForwarder(d, SendNote));
        assert t.out[|t.out| - 1] == Notified(d, n);
      }
      assert Passed(g, t, n);
      assert t.link.stream[p] == s.link.stream[p];
    } else {
      var n: nat :| n > p && (Passed(g, s, n) || Coming(g, s, n));
      if Passed(g, s, n) {
        Stays(s);
        t := s;
      } else {
        var d: nat :| d in s.clients && s.clients[d].phase != Gone && n in Ahead(g, s.clients[d]);
        t := Acts(g, s, d, n, firstId);
      }
    }
  }

  // From every doomed state a calm run does the harm.
  lemma DoomedBreaks(g: Guarantee, s: State, firstId: nat) returns (t: State)
    requires Inv(s, firstId) && DeliveryInv(s) && Doomed(g, s)
    ensures Leads(s, t) && !Kept(g, t)
  {
    hide Inv;
    OfInv(s, firstId);
    var c: nat, p: nat :| p in s.link.expired && Due(g, s, c, p) && CanPass(g, s, p);
    Stays(s);
    var u := s;
    if !Awaits(g, s.link, s.clients[c].phase, p) {
      var i: nat :| FirstMatch(s.link, i, s.clients[c].phase.id) && s.link.queue[i] == p;
      u := TakesOwn(g, s, c, i);
      StillPasses(g, s, u, c, p);
      LeadsInv(s, u, firstId);
    }
    var v := Overtakes(g, u, c, p, firstId);
    LeadsTransitive(s, u, v);
    LeadsInv(s, v, firstId);
    t := Harms(g, v, c, p, firstId);
    LeadsTransitive(s, v, t);
  }

  lemma StillPasses(g: Guarantee, s: State, u: State, c: nat, p: nat)
    requires CanPass(g, s, p) && DeliveryInv(s) && OnlyTook(s, u, c)
    requires s.clients[c].phase != Gone && u.clients[c].phase != Gone
    ensures CanPass(g, u, p) && DeliveryInv(u)
  {
    if s.link.loop == Stopped {
      var n: nat :| n > p && (Passed(g, s, n) || Coming(g, s, n));
      if Coming(g, s, n) {
        var d: nat :| d in s.clients && s.clients[d].phase != Gone && n in Ahead(g, s.clients[d]);
        assert Ahead(g, u.clients[d]) == Ahead(g, s.clients[d]) && u.clients[d].phase != Gone;
        assert Coming(g, u, n);
      } else {
        assert Passed(g, u, n);
      }
    }
  }

  /**
    From a reachable state that keeps the guarantee, a run without further ack timeouts leads to
    one that breaks it if and only if the timer has fired on an answer that its caller has still
    to store or write, or to take from the queue, and a later notification can pass it.
  */
  lemma BreaksIffDoomed(g: Guarantee, s: State, firstId: nat)
    requires Reachable(s, firstId) && Kept(g, s) && Solicited(s.link)
    ensures (exists t :: Leads(s, t) && !Kept(g, t)) <==> Doomed(g, s)
  {
    hide Inv;
    ReachableDelivers(s, firstId);
    if Doomed(g, s) {
      var t := DoomedBreaks(g, s, firstId);
    } else {
      forall t | Leads(s, t) ensures Kept(g, t) {
        var steps :| Calm(steps) && Exec(s, steps) == Some(t);
        NotDoomedRun(g, s, steps, firstId);
      }
    }
  }

  /**
    The timer firing on a storable tools/list answer dooms the cache, if the answer is about to be
    stored or is the next one that a waiting tools/list call takes from the queue.
  */
  lemma StaleOnceTimerFires(s: State, firstId: nat, c: nat) returns (t: State)
    requires Reachable(s, firstId) && s.link.loop.Waiting? && Due(Freshness, s, c, s.link.loop.pos)
    ensures Doomed(Freshness, Do(s, OfLoop(AckTimeout)))
    ensures Leads(Do(s, OfLoop(AckTimeout)), t) && !Fresh(t.cache)
  {
    t := TimerDooms(Freshness, s, firstId, c);
  }

  /** Likewise for any answer that is still to be written, or taken from the queue by a waiting call, and the order. */
  lemma OvertakenOnceTimerFires(s: State, firstId: nat, c: nat) returns (t: State)
    requires Reachable(s, firstId) && s.link.loop.Waiting? && Due(Order, s, c, s.link.loop.pos)
    ensures Doomed(Order, Do(s, OfLoop(AckTimeout)))
    ensures Leads(Do(s, OfLoop(AckTimeout)), t) && !Ordered(t.out)
  {
    t := TimerDooms(Order, s, firstId, c);
  }

  lemma TimerDooms(g: Guarantee, s: State, firstId: nat, c: nat) returns (t: State)
    requires Reachable(s, firstId) && s.link.loop.Waiting? && Due(g, s, c, s.link.loop.pos)
    ensures Doomed(g, Do(s, OfLoop(AckTimeout)))
    ensures Leads(Do(s, OfLoop(AckTimeout)), t) && !Kept(g, t)
  {
    hide Inv;
    ReachableDelivers(s, firstId);
    var p, fired := s.link.loop.pos, Do(s, OfLoop(AckTimeout));
    InvStep(s, OfLoop(AckTimeout), firstId);
    DeliveryStep(s, OfLoop(AckTimeout));
    if WillTake(g, s.link, s.clients[c].phase, p) {
      var i: nat :| FirstMatch(s.link, i, s.clients[c].phase.id) && s.link.queue[i] == p;
      assert FirstMatch(fired.link, i, fired.clients[c].phase.id);
    }
    assert Due(g, fired, c, p);
    t := DoomedBreaks(g, fired, firstId);
  }

  // The first client asks for the tools list and calls the process.
  lemma CallsOnce(firstId: nat) returns (s: State)
    ensures Leads(Init(firstId), s)
    ensures s == Init(firstId).(link := s.link, clients := map[0 := Client(Calling(7, true, firstId + 1), true, [], Listening, [7])])
    ensures s.link == Init(firstId).link.(lock := Some(0), nextId := firstId + 1, owner := map[firstId + 1 := Call(0, 1, true)])
  {
    var start := Init(firstId);
    s := Joins(start, 0);
    Then(start, s, OfServer(0, ReadRequest(7, ToolsList)));
    s := Do(s, OfServer(0, ReadRequest(7, ToolsList)));
    assert s.clients[0] == Client(Asked(7), true, [], Listening, [7]);
    Then(start, s, OfServer(0, CacheMiss(false)));
    s := Do(s, OfServer(0, CacheMiss(false)));
    Then(start, s, OfServer(0, BeginCall(true)));
    s := Do(s, OfServer(0, BeginCall(true)));
    assert s.clients == map[0 := Client(Calling(7, true, firstId + 1), true, [], Listening, [7])];
  }

  // The process answers and the client accepts the answer, whose ack is still open.
  lemma AcceptsOnce(firstId: nat) returns (s: State)
    ensures Leads(Init(firstId), s) && s.clients.Keys == {0}
    ensures s.link.stream == [Response(firstId + 1, true, true)] && s.link.loop == Waiting(0)
    ensures s.clients[0].phase == Caching(7, 0)
  {
    var start := Init(firstId);
    s := CallsOnce(firstId);
    var answer := OfLoop(ReadMessage(Response(firstId + 1, true, true)));
    Then(start, s, answer);
    s := Do(s, answer);
    Then(start, s, OfLoop(Offer));
    s := Do(s, OfLoop(Offer));
    Then(start, s, OfServer(0, TakeResponse));
    s := Do(s, OfServer(0, TakeResponse));
  }

  /** A run of one call and one ack timeout after which the cache is stale. */
  lemma StaleRun(firstId: nat) returns (t: State)
    ensures Reachable(t, firstId) && t.link.lateStore && !Fresh(t.cache)
  {
    var s := AcceptsOnce(firstId);
    t := AfterTimeout(Freshness, s, firstId);
  }

  /** A run of one call and one ack timeout after which a client was told of a change before an earlier answer was written. */
  lemma OvertakenRun(firstId: nat) returns (t: State)
    ensures Reachable(t, firstId) && t.link.lateWrite && !Ordered(t.out)
  {
    var s := AcceptsOnce(firstId);
    t := AfterTimeout(Order, s, firstId);
  }

  lemma AfterTimeout(g: Guarantee, s: State, firstId: nat) returns (t: State)
    requires Leads(Init(firstId), s) && s.link.loop == Waiting(0) && Due(g, s, 0, 0)
    ensures Reachable(t, firstId) && Late(g, t.link) && !Kept(g, t)
  {
    var steps :| Calm(steps) && Exec(Init(firstId), steps) == Some(s);
    t := TimerDooms(g, s, firstId, 0);
    var fired := Do(s, OfLoop(AckTimeout));
    ExecOne(s, OfLoop(AckTimeout));
    ExecTwice(Init(firstId), steps, [OfLoop(AckTimeout)]);
    assert Reachable(fired, firstId);
    Reaches(fired, t, firstId);
    ReachableInv(t, firstId);
  }

  /**
    Answers taken from the cache are outside the ordering guarantee: a client that has read
    the cache can be answered with it after another client was told that the list changed.
  */
  lemma CachedAnswerMayBeOvertaken(s: State, c: nat, d: nat) returns (t: State)
    requires s.link.loop == Reading && d !in s.clients
    requires c in s.clients && s.clients[c].phase.Asked?
    requires s.cache.slot.Some? && s.cache.slot.value < |s.link.stream|
    ensures Leads(s, t)
    ensures exists m, rid, request :: t.out == s.out + [Notified(d, |s.link.stream|), m]
                                      && m == Replied(c, rid, request, FromCache(s.cache.slot.value))
  {
    var ph := s.clients[c].phase;
    Stays(s);
    Then(s, s, OfServer(c, CacheHit));
    var hit := Do(s, OfServer(c, CacheHit));
    var joined := Joins(hit, d);
    t := Announces(joined, d);
    LeadsTransitive(hit, joined, t);
    LeadsTransitive(s, hit, t);
    Then(s, t, OfForwarder(d, SendNote));
    t := Do(t, OfForwarder(d, SendNote));
    Then(s, t, OfServer(c, WriteAnswer(true)));
    var request := |t.clients[c].received|;
    t := Do(t, OfServer(c, WriteAnswer(true)));
    assert t.out == s.out + [Notified(d, |s.link.stream|), Replied(c, ph.rid, request, FromCache(s.cache.slot.value))];
  }
}
