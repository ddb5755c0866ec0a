/**
  What every run of the upstream protocol keeps: acks are closed once, answers go to the
  request that asked for them, the cached tools list is fresh and notifications do not
  overtake answers.
*/
module UpstreamSafety {
  import opened Buffers
  import opened Options
  import opened Upstream

  // ------------------------------------------------------- acknowledgements and the queue

  predicate IsAnswer(k: Link, p: nat) { p < |k.stream| && k.stream[p].Response? }

  predicate Queued(k: Link, p: nat) { p in k.queue }

  ghost predicate LoopOwns(k: Link, clients: map<nat, Client>) {
    match k.loop
    case Offering(p) => p + 1 == |k.stream| && IsAnswer(k, p) && !Queued(k, p) && p !in k.closedAcks
                        && forall c :: !Holds(clients, c, p)
    case Waiting(p) => p + 1 == |k.stream| && IsAnswer(k, p)
    case _ => true
  }

  ghost predicate QueueInv(k: Link) {
    && (forall i :: 0 <= i < |k.queue| ==> IsAnswer(k, k.queue[i]) && k.queue[i] !in k.closedAcks)
    && (forall i, j :: 0 <= i < j < |k.queue| ==> k.queue[i] < k.queue[j])
    && (forall p :: p in k.closedAcks ==> p < |k.stream|)
  }

  /** Each answer read so far is queued, held by one client or acknowledged: never two of these. */
  ghost predicate AcksInv(k: Link, clients: map<nat, Client>) {
    && !k.panicked
    && LoopOwns(k, clients)
    && QueueInv(k)
    && (forall c, p :: Holds(clients, c, p) ==> IsAnswer(k, p) && p !in k.closedAcks && !Queued(k, p))
    && (forall c, d, p :: Holds(clients, c, p) && Holds(clients, d, p) ==> c == d)
  }

  ghost predicate SameHolders(clients: map<nat, Client>, after: map<nat, Client>) {
    forall c, p :: Holds(after, c, p) <==> Holds(clients, c, p)
  }

  lemma BroadcastKeepsPhases(clients: map<nat, Client>, n: nat)
    ensures Broadcast(clients, n).Keys == clients.Keys
    ensures forall c | c in clients :: Broadcast(clients, n)[c] == clients[c].(buffer := Broadcast(clients, n)[c].buffer)
    ensures SameHolders(clients, Broadcast(clients, n))
  {
  }

  lemma AcksRead(k: Link, clients: map<nat, Client>, m: Message)
    requires AcksInv(k, clients) && k.loop == Reading
    ensures AcksInv(k.(stream := k.stream + [m], loop := if m.Response? then Offering(|k.stream|) else Reading), clients)
  {
  }

  lemma AcksOffer(k: Link, clients: map<nat, Client>)
    requires AcksInv(k, clients) && k.loop.Offering?
    ensures AcksInv(k.(queue := k.queue + [k.loop.pos], loop := Waiting(k.loop.pos)), clients)
  {
    var p := k.loop.pos;
    assert forall q :: q in k.queue + [p] ==> q in k.queue || q == p;
  }

  // Only client c changed, from holding `was` to holding `now`.
  ghost predicate Moved(clients: map<nat, Client>, after: map<nat, Client>, c: nat, was: Option<nat>, now: Option<nat>) {
    && (forall d: nat, q: nat :: Holds(clients, d, q) <==> if d == c then was == Some(q) else Holds(after, d, q))
    && (forall q: nat :: Holds(after, c, q) <==> now == Some(q))
  }

  lemma AcksTake(k: Link, clients: map<nat, Client>, c: nat, after: map<nat, Client>)
    requires AcksInv(k, clients) && |k.queue| > 0 && Moved(clients, after, c, None, Some(k.queue[0]))
    ensures AcksInv(k.(queue := k.queue[1..]), after)
  {
    assert Queued(k, k.queue[0]);
    assert forall q :: q in k.queue[1..] ==> q in k.queue && q != k.queue[0];
  }

  lemma AcksDrop(k: Link, clients: map<nat, Client>)
    requires AcksInv(k, clients) && |k.queue| > 0
    ensures AcksInv(CloseAck(k.(queue := k.queue[1..]), k.queue[0]), clients)
  {
    var p := k.queue[0];
    assert Queued(k, p);
    assert forall q :: q in k.queue[1..] ==> q in k.queue && q != p;
  }

  lemma AcksRelease(k: Link, clients: map<nat, Client>, c: nat, after: map<nat, Client>, p: nat)
    requires AcksInv(k, clients) && Moved(clients, after, c, Some(p), None)
    ensures AcksInv(CloseAck(k, p), after)
  {
    assert Holds(clients, c, p);
  }

  lemma AcksSame(k: Link, clients: map<nat, Client>, k': Link, after: map<nat, Client>)
    requires AcksInv(k, clients) && SameHolders(clients, after)
    requires k'.stream == k.stream && k'.queue == k.queue && k'.closedAcks == k.closedAcks && k'.panicked == k.panicked
    requires k'.loop == k.loop || k'.loop.Reading? || k'.loop.Stopped?
    ensures AcksInv(k', after)
  {
  }

  lemma AcksStepLoop(s: State, l: LoopStep)
    requires AcksInv(s.link, s.clients) && LoopEnabled(s.link, l)
    ensures AcksInv(LoopLink(s, l), LoopClients(s, l))
  {
    BroadcastKeepsPhases(s.clients, |s.link.stream|);
    var k := LoopLink(s, l);
    match l
    case ReadMessage(m) =>
      AcksRead(s.link, s.clients, m);
      AcksSame(k, s.clients, k, LoopClients(s, l));
    case Offer => AcksOffer(s.link, s.clients);
    case _ => AcksSame(s.link, s.clients, k, s.clients);
  }

  // Only taking an answer and releasing it change what a client holds.
  lemma HeldAfter(k: Link, cache: Cache, c: nat, cl: Client, v: ServeStep)
    requires ServeEnabled(k, cache, c, cl, v)
    ensures Held(ServeClient(k, cache, c, cl, v).phase) ==
            if v.TakeResponse? && Matches(k, cl) then Some(k.queue[0])
            else if v.Release? then None
            else Held(cl.phase)
  {
  }

  lemma AcksTakeStep(s: State, c: nat)
    requires AcksInv(s.link, s.clients) && Enabled(s, OfServer(c, TakeResponse))
    ensures AcksInv(Do(s, OfServer(c, TakeResponse)).link, Do(s, OfServer(c, TakeResponse)).clients)
  {
    var k, cl, t := s.link, s.clients[c], Do(s, OfServer(c, TakeResponse));
    if Matches(k, cl) {
      AcksTake(k, s.clients, c, t.clients);
      AcksSame(k.(queue := k.queue[1..]), t.clients, t.link, t.clients);
    } else {
      AcksDrop(k, s.clients);
      AcksSame(t.link, s.clients, t.link, t.clients);
    }
  }

  lemma AcksStepServer(s: State, c: nat, v: ServeStep)
    requires AcksInv(s.link, s.clients) && Enabled(s, OfServer(c, v))
    ensures AcksInv(Do(s, OfServer(c, v)).link, Do(s, OfServer(c, v)).clients)
  {
    var k, cl, t := s.link, s.clients[c], Do(s, OfServer(c, v));
    HeldAfter(k, s.cache, c, cl, v);
    match v
    case TakeResponse => AcksTakeStep(s, c);
    case Release => AcksRelease(k, s.clients, c, t.clients, cl.phase.pos);
    case _ => AcksSame(k, s.clients, t.link, t.clients);
  }

  lemma AcksStep(s: State, a: Step)
    requires AcksInv(s.link, s.clients) && Enabled(s, a)
    ensures AcksInv(Do(s, a).link, Do(s, a).clients)
  {
    match a
    case OfLoop(l) => AcksStepLoop(s, l);
    case OfServer(c, v) => AcksStepServer(s, c, v);
    case _ => AcksSame(s.link, s.clients, Do(s, a).link, Do(s, a).clients);
  }

  // ------------------------------------------------------------- answers go to their request

  // The id of the answer at p was allotted to the current request of client c.
  predicate Owned(k: Link, p: nat, c: nat, request: nat) {
    IsAnswer(k, p) && k.stream[p].id in k.owner
    && k.owner[k.stream[p].id].client == c && k.owner[k.stream[p].id].request == request
  }

  predicate OwnedTools(k: Link, p: nat) {
    IsAnswer(k, p) && k.stream[p].id in k.owner && k.owner[k.stream[p].id].tools && k.stream[p].usable
  }

  predicate CallInv(k: Link, c: nat, cl: Client) {
    match cl.phase
    case Calling(_, tools, id) =>
      k.lock == Some(c) && id in k.owner && k.owner[id] == Call(c, |cl.received|, tools)
    case Caching(_, p) => Owned(k, p, c, |cl.received|) && OwnedTools(k, p)
    case Answering(_, FromUpstream(p)) => Owned(k, p, c, |cl.received|)
    case _ => true
  }

  ghost predicate CallsInv(s: State, firstId: nat) {
    && firstId <= s.link.nextId
    && (forall id :: id in s.link.owner ==> firstId < id <= s.link.nextId)
    && (forall c :: c in s.clients ==> CallInv(s.link, c, s.clients[c]))
    && (forall c :: s.link.lock == Some(c) ==> c in s.clients && s.clients[c].phase.Calling?)
    && (s.cache.slot.Some? ==> OwnedTools(s.link, s.cache.slot.value) && s.link.stream[s.cache.slot.value].storable)
    && (forall i :: 0 <= i < |s.out| ==> EventOwned(s.link, s.out[i]))
  }

  predicate EventOwned(k: Link, e: Event) {
    e.Replied? && e.origin.FromUpstream? ==> Owned(k, e.origin.pos, e.client, e.request)
  }

  // The stream and the table of ids only grow, and no id is allotted twice.
  predicate Grows(k: Link, k': Link) {
    && k.stream <= k'.stream
    && k.nextId <= k'.nextId
    && forall id :: id in k.owner ==> id in k'.owner && k'.owner[id] == k.owner[id]
  }

  lemma LoopGrows(s: State, l: LoopStep)
    requires LoopEnabled(s.link, l)
    ensures Grows(s.link, LoopLink(s, l))
    ensures LoopLink(s, l).owner == s.link.owner && LoopLink(s, l).nextId == s.link.nextId && LoopLink(s, l).lock == s.link.lock
  {
  }

  lemma ServeGrows(k: Link, cache: Cache, c: nat, cl: Client, v: ServeStep)
    requires ServeEnabled(k, cache, c, cl, v) && forall id :: id in k.owner ==> id <= k.nextId
    ensures Grows(k, ServeLink(k, cache, c, cl, v))
    ensures ServeLink(k, cache, c, cl, v).stream == k.stream
    ensures v.BeginCall? ==> ServeLink(k, cache, c, cl, v).nextId > k.nextId && ServeLink(k, cache, c, cl, v).nextId !in k.owner
  {
  }

  lemma GrowsKeeps(k: Link, k': Link, c: nat, cl: Client, e: Event)
    requires Grows(k, k')
    ensures CallInv(k, c, cl) && (cl.phase.Calling? ==> k'.lock == k.lock) ==> CallInv(k', c, cl)
    ensures EventOwned(k, e) ==> EventOwned(k', e)
    ensures forall p: nat :: OwnedTools(k, p) ==> OwnedTools(k', p) && k'.stream[p] == k.stream[p]
  {
  }

  lemma CallsStepLoop(s: State, l: LoopStep, firstId: nat)
    requires CallsInv(s, firstId) && LoopEnabled(s.link, l)
    ensures CallsInv(Do(s, OfLoop(l)), firstId)
  {
    var t := Do(s, OfLoop(l));
    LoopGrows(s, l);
    BroadcastKeepsPhases(s.clients, |s.link.stream|);
    forall c | c in t.clients
      ensures CallInv(t.link, c, t.clients[c]) && t.clients[c].phase == s.clients[c].phase
    {
      GrowsKeeps(s.link, t.link, c, s.clients[c], Rejected(0));
    }
    forall i | 0 <= i < |t.out|
      ensures EventOwned(t.link, t.out[i])
    {
      GrowsKeeps(s.link, t.link, 0, Client(Idle, false, [], Detached, []), s.out[i]);
    }
    GrowsKeeps(s.link, t.link, 0, Client(Idle, false, [], Detached, []), Rejected(0));
  }

  // The invariants of the client that takes a step.
  lemma CallsOwnStep(k: Link, cache: Cache, c: nat, cl: Client, v: ServeStep)
    requires ServeEnabled(k, cache, c, cl, v) && CallInv(k, c, cl)
    requires forall id :: id in k.owner ==> id <= k.nextId
    ensures CallInv(ServeLink(k, cache, c, cl, v), c, ServeClient(k, cache, c, cl, v))
    ensures ServeLink(k, cache, c, cl, v).lock == k.lock
            || (v.BeginCall? && k.lock == None && ServeLink(k, cache, c, cl, v).lock in {None, Some(c)})
            || (cl.phase.Calling? && ServeLink(k, cache, c, cl, v).lock == None)
    ensures ServeOut(c, cl, v).Some? ==> EventOwned(k, ServeOut(c, cl, v).value)
  {
    ServeGrows(k, cache, c, cl, v);
    GrowsKeeps(k, ServeLink(k, cache, c, cl, v), c, cl, Rejected(0));
  }

  lemma CallsStepServer(s: State, c: nat, v: ServeStep, firstId: nat)
    requires CallsInv(s, firstId) && Enabled(s, OfServer(c, v))
    ensures CallsInv(Do(s, OfServer(c, v)), firstId)
  {
    var k, cl, t := s.link, s.clients[c], Do(s, OfServer(c, v));
    ServeGrows(k, s.cache, c, cl, v);
    CallsOwnStep(k, s.cache, c, cl, v);
    forall d | d in t.clients
      ensures CallInv(t.link, d, t.clients[d])
    {
      if d != c {
        GrowsKeeps(k, t.link, d, s.clients[d], Rejected(0));
      }
    }
    forall i | 0 <= i < |t.out|
      ensures EventOwned(t.link, t.out[i])
    {
      if i < |s.out| {
        GrowsKeeps(k, t.link, c, cl, s.out[i]);
      } else {
        GrowsKeeps(k, t.link, c, cl, t.out[i]);
      }
    }
    GrowsKeeps(k, t.link, c, cl, Rejected(0));
  }

  lemma CallsStep(s: State, a: Step, firstId: nat)
    requires CallsInv(s, firstId) && Enabled(s, a)
    ensures CallsInv(Do(s, a), firstId)
  {
    match a
    case OfLoop(l) => CallsStepLoop(s, l, firstId);
    case OfServer(c, v) => CallsStepServer(s, c, v, firstId);
    case _ =>
  }

  // ----------------------------------------------------------- one answer for each request

  function ReplyOf(e: Event, c: nat): seq<int> {
    if e.Replied? && e.client == c then [e.rid] else []
  }

  // The request ids of the answers written to client c, in order.
  function Replies(out: seq<Event>, c: nat): seq<int> {
    if out == [] then [] else Replies(out[..|out| - 1], c) + ReplyOf(out[|out| - 1], c)
  }

  lemma RepliesLog(out: seq<Event>, e: Option<Event>, c: nat)
    ensures Replies(Log(out, e), c) ==
            if e.Some? && e.value.client == c then Replies(out, c) + ReplyOf(e.value, c) else Replies(out, c)
  {
    if e.Some? {
      assert (out + [e.value])[..|out|] == out;
    }
  }

  // The request a client is busy with and has not been answered yet.
  function Pending(p: Phase): Option<int> {
    match p
    case Asked(rid) => Some(rid)
    case Forwarding(rid, _) => Some(rid)
    case Calling(rid, _, _) => Some(rid)
    case Caching(rid, _) => Some(rid)
    case Answering(rid, _) => Some(rid)
    case _ => None
  }

  predicate MayEnd(p: Phase) { p == Ended || p == Gone || (p.Releasing? && p.ended) }

  // Every request but the current one has been answered, in order, with its own id.
  predicate ReplyInv(cl: Client, replies: seq<int>) {
    if Pending(cl.phase).Some? then cl.received == replies + [Pending(cl.phase).value]
    else if MayEnd(cl.phase) then replies == cl.received || (|cl.received| > 0 && replies == cl.received[..|cl.received| - 1])
    else replies == cl.received
  }

  ghost predicate RepliesInv(clients: map<nat, Client>, out: seq<Event>) {
    && (forall c :: c in clients ==> ReplyInv(clients[c], Replies(out, c)))
    && (forall c: nat :: c !in clients ==> Replies(out, c) == [])
  }

  lemma ReplyOwnStep(k: Link, cache: Cache, c: nat, cl: Client, v: ServeStep, replies: seq<int>)
    requires ServeEnabled(k, cache, c, cl, v) && ReplyInv(cl, replies)
    ensures ReplyInv(ServeClient(k, cache, c, cl, v),
                     if ServeOut(c, cl, v).Some? then replies + ReplyOf(ServeOut(c, cl, v).value, c) else replies)
    ensures ServeOut(c, cl, v).Some? ==> ServeOut(c, cl, v).value.client == c
  {
    if v.WriteAnswer? {
      assert (replies + [cl.phase.rid])[..|replies|] == replies;
    }
  }

  // One client moved and at most one event was written, for that client.
  lemma RepliesMove(clients: map<nat, Client>, after: map<nat, Client>, c: nat, out: seq<Event>, e: Option<Event>)
    requires RepliesInv(clients, out) && (e.Some? ==> e.value.client == c)
    requires c in clients && after.Keys == clients.Keys && forall d | d in clients && d != c :: after[d] == clients[d]
    requires ReplyInv(after[c], if e.Some? then Replies(out, c) + ReplyOf(e.value, c) else Replies(out, c))
    ensures RepliesInv(after, Log(out, e))
  {
    forall d: nat
      ensures d in after ==> ReplyInv(after[d], Replies(Log(out, e), d))
      ensures d !in after ==> Replies(Log(out, e), d) == []
    {
      RepliesLog(out, e, d);
    }
  }

  lemma RepliesStep(s: State, a: Step)
    requires RepliesInv(s.clients, s.out) && Enabled(s, a)
    ensures RepliesInv(Do(s, a).clients, Do(s, a).out)
  {
    var t := Do(s, a);
    match a
    case OfLoop(l) => BroadcastKeepsPhases(s.clients, |s.link.stream|);
    case Connect(c) =>
    case OfServer(c, v) =>
      ReplyOwnStep(s.link, s.cache, c, s.clients[c], v, Replies(s.out, c));
      RepliesMove(s.clients, t.clients, c, s.out, ServeOut(c, s.clients[c], v));
    case OfForwarder(c, f) =>
      RepliesMove(s.clients, t.clients, c, s.out, ForwardOut(c, s.clients[c], f));
  }

  // ------------------------------------------------------------------------ notifications

  predicate IsNote(k: Link, n: nat) { n < |k.stream| && k.stream[n].Notification? }

  // The notifications on their way to a client.
  function Pipeline(cl: Client): seq<nat> {
    (match cl.forwarder
     case Carrying(n) => [n]
     case Handled(n) => [n]
     case _ => []) + cl.buffer
  }

  function NoteOf(e: Event, c: nat): seq<nat> {
    if e.Notified? && e.client == c then [e.pos] else []
  }

  // The notifications already sent to client c, in order.
  function Notes(out: seq<Event>, c: nat): seq<nat> {
    if out == [] then [] else Notes(out[..|out| - 1], c) + NoteOf(out[|out| - 1], c)
  }

  lemma NotesLog(out: seq<Event>, e: Option<Event>, c: nat)
    ensures Notes(Log(out, e), c) ==
            if e.Some? && e.value.client == c then Notes(out, c) + NoteOf(e.value, c) else Notes(out, c)
  {
    if e.Some? {
      assert (out + [e.value])[..|out|] == out;
    }
  }

  predicate Increasing(ns: seq<nat>) { forall i, j :: 0 <= i < j < |ns| ==> ns[i] < ns[j] }

  predicate AllNotes(k: Link, ns: seq<nat>) { forall i :: 0 <= i < |ns| ==> IsNote(k, ns[i]) }

  predicate NoteInv(k: Link, cl: Client, sent: seq<nat>) {
    && AllNotes(k, sent) && AllNotes(k, Pipeline(cl)) && Increasing(sent + Pipeline(cl))
    && |cl.buffer| <= CAPACITY
    && (cl.forwarder.Carrying? ==> IsNote(k, cl.forwarder.pos) && k.stream[cl.forwarder.pos] == Notification(true))
  }

  ghost predicate NotesInv(k: Link, clients: map<nat, Client>, cache: Cache, out: seq<Event>) {
    && (forall c :: c in clients ==> NoteInv(k, clients[c], Notes(out, c)))
    && (forall c: nat :: c !in clients ==> Notes(out, c) == [])
    && RanNotes(k, cache, out)
  }

  ghost predicate RanNotes(k: Link, cache: Cache, out: seq<Event>) {
    && (forall n :: n in cache.invalidated ==> IsNote(k, n) && k.stream[n].listChanged)
    && (forall i :: 0 <= i < |out| && out[i].Notified? ==> IsNote(k, out[i].pos))
  }

  lemma PushAppends(buffer: seq<nat>, sent: seq<nat>, n: nat)
    requires Increasing(sent + buffer) && |buffer| <= CAPACITY && forall i :: 0 <= i < |sent + buffer| ==> (sent + buffer)[i] < n
    ensures Increasing(sent + Push(buffer, n)) && |Push(buffer, n)| <= CAPACITY
  {
    assert sent + (buffer + [n]) == (sent + buffer) + [n];
  }

  lemma NoteBroadcast(k: Link, k': Link, cl: Client, sent: seq<nat>, n: nat, m: Message)
    requires NoteInv(k, cl, sent) && n == |k.stream| && k'.stream == k.stream + [m] && m.Notification?
    ensures NoteInv(k', cl.(buffer := Push(cl.buffer, n)), sent)
  {
    var cl' := cl.(buffer := Push(cl.buffer, n));
    var first := Pipeline(cl.(buffer := []));
    assert Pipeline(cl) == first + cl.buffer && Pipeline(cl') == first + cl'.buffer;
    assert sent + Pipeline(cl) == (sent + first) + cl.buffer;
    assert sent + Pipeline(cl') == (sent + first) + cl'.buffer;
    assert forall i :: 0 <= i < |Pipeline(cl')| ==>
      Pipeline(cl')[i] == if i < |Pipeline(cl)| then Pipeline(cl)[i] else n;
    assert forall i :: 0 <= i < |sent + Pipeline(cl)| ==>
      (sent + Pipeline(cl))[i] == if i < |sent| then sent[i] else Pipeline(cl)[i - |sent|];
    PushAppends(cl.buffer, sent + first, n);
  }

  // Taking a notification and invalidating for it leave it on its way; sending it ends that.
  lemma PipelineStep(k: Link, cl: Client, f: ForwardStep)
    requires ForwardEnabled(k, cl, f)
    ensures Pipeline(cl) == (if f.SendNote? then [cl.forwarder.pos] else []) + Pipeline(ForwardClient(k, cl, f))
  {
  }

  lemma NoteOwnStep(k: Link, c: nat, cl: Client, f: ForwardStep, sent: seq<nat>)
    requires ForwardEnabled(k, cl, f) && NoteInv(k, cl, sent)
    ensures NoteInv(k, ForwardClient(k, cl, f),
                    if ForwardOut(c, cl, f).Some? then sent + NoteOf(ForwardOut(c, cl, f).value, c) else sent)
    ensures ForwardOut(c, cl, f).Some? ==> ForwardOut(c, cl, f).value.client == c
  {
    var cl' := ForwardClient(k, cl, f);
    PipelineStep(k, cl, f);
    if f.SendNote? {
      hide Pipeline;
      var n := cl.forwarder.pos;
      assert IsNote(k, Pipeline(cl)[0]) && Pipeline(cl)[0] == n;
      assert forall i :: 0 <= i < |Pipeline(cl')| ==> Pipeline(cl')[i] == Pipeline(cl)[i + 1];
      assert (sent + [n]) + Pipeline(cl') == sent + Pipeline(cl);
    } else {
      assert [] + Pipeline(cl') == Pipeline(cl');
      if f.TakeNote? {
        assert IsNote(k, Pipeline(cl)[0]);
      }
    }
  }

  lemma NoteKept(k: Link, k': Link, cl: Client, after: Client, sent: seq<nat>)
    requires NoteInv(k, cl, sent) && after.buffer == cl.buffer && after.forwarder == cl.forwarder
    requires k.stream <= k'.stream
    ensures NoteInv(k', after, sent)
  {
    assert Pipeline(after) == Pipeline(cl);
  }

  lemma NotesStepLoop(s: State, l: LoopStep)
    requires NotesInv(s.link, s.clients, s.cache, s.out) && LoopEnabled(s.link, l)
    ensures NotesInv(LoopLink(s, l), LoopClients(s, l), s.cache, s.out)
  {
    var k, k', after := s.link, LoopLink(s, l), LoopClients(s, l);
    LoopGrows(s, l);
    BroadcastKeepsPhases(s.clients, |k.stream|);
    forall c | c in after
      ensures NoteInv(k', after[c], Notes(s.out, c))
    {
      if l.ReadMessage? && l.m.Notification? && s.clients[c].subscribed {
        NoteBroadcast(k, k', s.clients[c], Notes(s.out, c), |k.stream|, l.m);
      } else {
        NoteKept(k, k', s.clients[c], after[c], Notes(s.out, c));
      }
    }
  }

  // One client moved and at most one event was written, for that client.
  lemma NotesMove(k: Link, k': Link, clients: map<nat, Client>, after: map<nat, Client>, c: nat,
                  cache: Cache, cache': Cache, out: seq<Event>, e: Option<Event>)
    requires NotesInv(k, clients, cache, out) && k'.stream == k.stream
    requires e.Some? ==> e.value.client == c
    requires c in clients && after.Keys == clients.Keys && forall d | d in clients && d != c :: after[d] == clients[d]
    requires NoteInv(k', after[c], if e.Some? then Notes(out, c) + NoteOf(e.value, c) else Notes(out, c))
    requires RanNotes(k', cache', Log(out, e))
    ensures NotesInv(k', after, cache', Log(out, e))
  {
    forall d: nat
      ensures d in after ==> NoteInv(k', after[d], Notes(Log(out, e), d))
      ensures d !in after ==> Notes(Log(out, e), d) == []
    {
      NotesLog(out, e, d);
      if d in clients && d != c {
        NoteKept(k, k', clients[d], after[d], Notes(out, d));
      }
    }
  }

  lemma ServeKeepsNotes(k: Link, cache: Cache, c: nat, cl: Client, v: ServeStep)
    requires ServeEnabled(k, cache, c, cl, v)
    ensures ServeLink(k, cache, c, cl, v).stream == k.stream
    ensures ServeCache(k, cache, c, cl, v).invalidated == cache.invalidated
    ensures ServeClient(k, cache, c, cl, v).buffer == cl.buffer && ServeClient(k, cache, c, cl, v).forwarder == cl.forwarder
    ensures var e := ServeOut(c, cl, v); e.Some? ==> e.value.client == c && !e.value.Notified?
  {
  }

  lemma NotesStepServer(s: State, c: nat, v: ServeStep)
    requires NotesInv(s.link, s.clients, s.cache, s.out) && Enabled(s, OfServer(c, v))
    ensures var t := Do(s, OfServer(c, v)); NotesInv(t.link, t.clients, t.cache, t.out)
  {
    var t, e := Do(s, OfServer(c, v)), ServeOut(c, s.clients[c], v);
    ServeKeepsNotes(s.link, s.cache, c, s.clients[c], v);
    NoteKept(s.link, t.link, s.clients[c], t.clients[c], Notes(s.out, c));
    assert e.Some? ==> Notes(s.out, c) + NoteOf(e.value, c) == Notes(s.out, c);
    NotesMove(s.link, t.link, s.clients, t.clients, c, s.cache, t.cache, s.out, e);
  }

  lemma RanForward(k: Link, cache: Cache, out: seq<Event>, c: nat, cl: Client, f: ForwardStep, sent: seq<nat>)
    requires ForwardEnabled(k, cl, f) && NoteInv(k, cl, sent) && RanNotes(k, cache, out)
    ensures RanNotes(k, ForwardCache(cache, cl, f), Log(out, ForwardOut(c, cl, f)))
  {
    if cl.forwarder.Carrying? || cl.forwarder.Handled? {
      assert Pipeline(cl)[0] == cl.forwarder.pos;
    }
  }

  lemma NotesStepForwarder(s: State, c: nat, f: ForwardStep)
    requires NotesInv(s.link, s.clients, s.cache, s.out) && Enabled(s, OfForwarder(c, f))
    ensures var t := Do(s, OfForwarder(c, f)); NotesInv(t.link, t.clients, t.cache, t.out)
  {
    var t, cl := Do(s, OfForwarder(c, f)), s.clients[c];
    var sent := Notes(s.out, c);
    assert NoteInv(s.link, cl, sent);
    NoteOwnStep(s.link, c, cl, f, sent);
    RanForward(s.link, s.cache, s.out, c, cl, f, sent);
    NotesMove(s.link, t.link, s.clients, t.clients, c, s.cache, t.cache, s.out, ForwardOut(c, cl, f));
  }

  lemma NotesStep(s: State, a: Step)
    requires NotesInv(s.link, s.clients, s.cache, s.out) && Enabled(s, a)
    ensures NotesInv(Do(s, a).link, Do(s, a).clients, Do(s, a).cache, Do(s, a).out)
  {
    match a
    case OfLoop(l) => NotesStepLoop(s, l);
    case Connect(c) =>
    case OfServer(c, v) => NotesStepServer(s, c, v);
    case OfForwarder(c, f) => NotesStepForwarder(s, c, f);
  }

  // ----------------------------------------------------------------- timing and freshness

  // The read loop has not moved past the answer at q.
  predicate AtLoop(k: Link, q: nat) {
    q + 1 == |k.stream| && (k.loop == Waiting(q) || k.loop == Stopped)
  }

  // An answer whose ack timer has not fired holds the read loop back until it is acknowledged.
  ghost predicate TimedInv(k: Link, clients: map<nat, Client>) {
    && (forall q :: Queued(k, q) && q !in k.expired ==> AtLoop(k, q))
    && (forall c, p :: Holds(clients, c, p) && p !in k.expired ==> AtLoop(k, p))
    && (forall q :: q in k.expired ==> q < |k.stream|)
    && (k.loop.Offering? || k.loop.Waiting? ==> k.loop.pos !in k.expired)
    && (k.loop.Waiting? ==> k.loop.pos in k.closedAcks || Queued(k, k.loop.pos) || exists c :: Holds(clients, c, k.loop.pos))
  }

  // The two guarantees: what is cached is fresh, what is written is in upstream order.
  datatype Guarantee = Freshness | Order

  // The step that the guarantee is about is still ahead of the client, for the answer at p.
  predicate Awaits(g: Guarantee, k: Link, ph: Phase, p: nat) {
    match g
    case Freshness => Stores(k.stream, ph, p)
    case Order => Writes(ph, p)
  }

  // The ack timer fired on an answer before that step was taken.
  predicate Late(g: Guarantee, k: Link) {
    match g
    case Freshness => k.lateStore
    case Order => k.lateWrite
  }

  predicate Fresh(cache: Cache) {
    cache.slot.Some? ==> forall n | n in cache.invalidated :: n < cache.slot.value
  }

  // No notification was sent before an answer that precedes it upstream.
  predicate Ordered(out: seq<Event>) {
    forall i, j :: 0 <= i < j < |out| && out[i].Notified? && out[j].Replied? && out[j].origin.FromUpstream?
      ==> out[i].pos < out[j].origin.pos
  }

  predicate Kept(g: Guarantee, s: State) {
    match g
    case Freshness => Fresh(s.cache)
    case Order => Ordered(s.out)
  }

  ghost predicate InTime(g: Guarantee, k: Link, clients: map<nat, Client>) {
    forall c, p :: c in clients && Awaits(g, k, clients[c].phase, p) ==> p !in k.expired
  }

  lemma TimedSame(k: Link, clients: map<nat, Client>, k': Link, after: map<nat, Client>)
    requires TimedInv(k, clients) && SameHolders(clients, after)
    requires k'.stream == k.stream && k'.expired == k.expired && k'.loop == k.loop
    requires k'.queue == k.queue && k'.closedAcks == k.closedAcks
    ensures TimedInv(k', after)
  {
  }

  lemma TimedLoop(s: State, l: LoopStep)
    requires AcksInv(s.link, s.clients) && TimedInv(s.link, s.clients) && LoopEnabled(s.link, l)
    ensures TimedInv(LoopLink(s, l), s.clients)
  {
    var k := s.link;
    match l
    case Offer =>
      assert forall q :: q in k.queue + [k.loop.pos] <==> q in k.queue || q == k.loop.pos;
      assert Queued(LoopLink(s, l), k.loop.pos);
    case _ =>
  }

  lemma TimedTake(k: Link, clients: map<nat, Client>, c: nat, k': Link, after: map<nat, Client>)
    requires TimedInv(k, clients) && |k.queue| > 0 && Moved(clients, after, c, None, Some(k.queue[0]))
    requires k'.stream == k.stream && k'.expired == k.expired && k'.loop == k.loop && k'.queue == k.queue[1..]
    requires k'.closedAcks == k.closedAcks
    ensures TimedInv(k', after)
  {
    assert Queued(k, k.queue[0]);
    assert forall q :: q in k.queue ==> q == k.queue[0] || q in k.queue[1..];
    assert forall q :: Queued(k', q) ==> Queued(k, q);
    assert Holds(after, c, k.queue[0]);
    if k.loop.Waiting? {
      if d :| Holds(clients, d, k.loop.pos) {
        assert Holds(after, d, k.loop.pos);
      }
    }
  }

  lemma TimedDrop(k: Link, clients: map<nat, Client>, k': Link, after: map<nat, Client>)
    requires TimedInv(k, clients) && |k.queue| > 0 && SameHolders(clients, after)
    requires k'.stream == k.stream && k'.expired == k.expired && k'.loop == k.loop && k'.queue == k.queue[1..]
    requires k'.closedAcks == k.closedAcks + {k.queue[0]}
    ensures TimedInv(k', after)
  {
    assert forall q :: q in k.queue ==> q == k.queue[0] || q in k.queue[1..];
    assert forall q :: Queued(k', q) ==> Queued(k, q);
  }

  lemma TimedRelease(k: Link, clients: map<nat, Client>, c: nat, p: nat, k': Link, after: map<nat, Client>)
    requires TimedInv(k, clients) && Moved(clients, after, c, Some(p), None)
    requires k'.stream == k.stream && k'.expired == k.expired && k'.loop == k.loop && k'.queue == k.queue
    requires k'.closedAcks == k.closedAcks + {p}
    ensures TimedInv(k', after)
  {
    if k.loop.Waiting? {
      if d :| Holds(clients, d, k.loop.pos) {
        assert d != c ==> Holds(after, d, k.loop.pos);
      }
    }
  }

  lemma TimedServer(s: State, c: nat, v: ServeStep)
    requires TimedInv(s.link, s.clients) && Enabled(s, OfServer(c, v))
    ensures TimedInv(Do(s, OfServer(c, v)).link, Do(s, OfServer(c, v)).clients)
  {
    var k, cl, t := s.link, s.clients[c], Do(s, OfServer(c, v));
    HeldAfter(k, s.cache, c, cl, v);
    if v.TakeResponse? {
      if Matches(k, cl) {
        TimedTake(k, s.clients, c, t.link, t.clients);
      } else {
        TimedDrop(k, s.clients, t.link, t.clients);
      }
    } else if v.Release? {
      TimedRelease(k, s.clients, c, cl.phase.pos, t.link, t.clients);
    } else {
      TimedSame(k, s.clients, t.link, t.clients);
    }
  }

  lemma TimedStep(s: State, a: Step)
    requires AcksInv(s.link, s.clients) && TimedInv(s.link, s.clients) && Enabled(s, a)
    ensures TimedInv(Do(s, a).link, Do(s, a).clients)
  {
    match a
    case OfLoop(l) =>
      TimedLoop(s, l);
      BroadcastKeepsPhases(s.clients, |s.link.stream|);
      TimedSame(LoopLink(s, l), s.clients, LoopLink(s, l), LoopClients(s, l));
    case OfServer(c, v) => TimedServer(s, c, v);
    case _ => TimedSame(s.link, s.clients, Do(s, a).link, Do(s, a).clients);
  }

  lemma LateStays(g: Guarantee, s: State, a: Step)
    requires Late(g, s.link) && Enabled(s, a)
    ensures Late(g, Do(s, a).link)
  {
  }

  lemma InTimeLoop(g: Guarantee, s: State, l: LoopStep)
    requires AcksInv(s.link, s.clients) && TimedInv(s.link, s.clients) && InTime(g, s.link, s.clients) && LoopEnabled(s.link, l)
    requires !Late(g, LoopLink(s, l))
    ensures InTime(g, LoopLink(s, l), LoopClients(s, l))
  {
    var k, k', after := s.link, LoopLink(s, l), LoopClients(s, l);
    BroadcastKeepsPhases(s.clients, |k.stream|);
    forall c, p | c in after && Awaits(g, k', after[c].phase, p) ensures p !in k'.expired {
      assert after[c].phase == s.clients[c].phase;
      assert Holds(s.clients, c, p);
      assert Awaits(g, k, s.clients[c].phase, p);
    }
  }

  // What a client awaits after a step of its own.
  lemma AwaitsAfter(g: Guarantee, k: Link, cache: Cache, c: nat, cl: Client, v: ServeStep, p: nat)
    requires ServeEnabled(k, cache, c, cl, v) && Awaits(g, k, ServeClient(k, cache, c, cl, v).phase, p)
    ensures Awaits(g, k, cl.phase, p) || (v.TakeResponse? && Matches(k, cl) && p == k.queue[0])
    ensures v.TakeResponse? && Matches(k, cl) && p in k.expired ==> Late(g, ServeLink(k, cache, c, cl, v))
  {
  }

  lemma InTimeServer(g: Guarantee, s: State, c: nat, v: ServeStep)
    requires InTime(g, s.link, s.clients) && Enabled(s, OfServer(c, v)) && !Late(g, Do(s, OfServer(c, v)).link)
    ensures InTime(g, Do(s, OfServer(c, v)).link, Do(s, OfServer(c, v)).clients)
  {
    var t := Do(s, OfServer(c, v));
    assert t.link.stream == s.link.stream && t.link.expired == s.link.expired;
    forall d, p | d in t.clients && Awaits(g, t.link, t.clients[d].phase, p) ensures p !in t.link.expired {
      if d == c {
        AwaitsAfter(g, s.link, s.cache, c, s.clients[c], v, p);
      } else {
        assert Awaits(g, s.link, s.clients[d].phase, p);
      }
    }
  }

  lemma InTimeStep(g: Guarantee, s: State, a: Step)
    requires AcksInv(s.link, s.clients) && TimedInv(s.link, s.clients) && InTime(g, s.link, s.clients) && Enabled(s, a)
    requires !Late(g, Do(s, a).link)
    ensures InTime(g, Do(s, a).link, Do(s, a).clients)
  {
    match a
    case OfLoop(l) => InTimeLoop(g, s, l);
    case OfServer(c, v) => InTimeServer(g, s, c, v);
    case Connect(c) =>
    case OfForwarder(c, f) =>
      var t := Do(s, a);
      forall d, p | d in t.clients && Awaits(g, t.link, t.clients[d].phase, p) ensures p !in t.link.expired {
        assert Awaits(g, s.link, s.clients[d].phase, p);
      }
  }

  ghost predicate Passed(g: Guarantee, s: State, n: nat) {
    match g
    case Freshness => n in s.cache.invalidated
    case Order => exists i :: 0 <= i < |s.out| && s.out[i].Notified? && s.out[i].pos == n
  }

  // A later notification has been acted on already.
  ghost predicate Overtaken(g: Guarantee, s: State, p: nat) { exists n :: n > p && Passed(g, s, n) }

  ghost predicate AwaitsInVain(g: Guarantee, s: State, c: nat, p: nat) {
    c in s.clients && Awaits(g, s.link, s.clients[c].phase, p) && Overtaken(g, s, p)
  }

  lemma StoreKeeps(s: State, c: nat)
    requires Enabled(s, OfServer(c, StoreCache)) && RanNotes(s.link, s.cache, s.out) && Fresh(s.cache)
    ensures Fresh(Do(s, OfServer(c, StoreCache)).cache) || AwaitsInVain(Freshness, s, c, s.clients[c].phase.pos)
  {
    var p, t := s.clients[c].phase.pos, Do(s, OfServer(c, StoreCache));
    if !Fresh(t.cache) {
      var n :| n in s.cache.invalidated && n >= p;
      assert IsNote(s.link, n) && n != p;
      assert Passed(Freshness, s, n);
    }
  }

  lemma WriteKeeps(s: State, c: nat)
    requires Enabled(s, OfServer(c, WriteAnswer(true))) && AcksInv(s.link, s.clients)
    requires RanNotes(s.link, s.cache, s.out) && Ordered(s.out)
    ensures var ph := s.clients[c].phase;
            Ordered(Do(s, OfServer(c, WriteAnswer(true))).out)
            || (ph.origin.FromUpstream? && AwaitsInVain(Order, s, c, ph.origin.pos))
  {
    var t := Do(s, OfServer(c, WriteAnswer(true)));
    if !Ordered(t.out) {
      var i, j :| 0 <= i < j < |t.out| && t.out[i].Notified? && t.out[j].Replied? && t.out[j].origin.FromUpstream?
        && t.out[i].pos >= t.out[j].origin.pos;
      assert j == |s.out| && t.out[i] == s.out[i];
      var p := s.clients[c].phase.origin.pos;
      assert Holds(s.clients, c, p) && IsAnswer(s.link, p) && IsNote(s.link, s.out[i].pos);
      assert Passed(Order, s, s.out[i].pos);
    }
  }

  // Only storing and writing can break a guarantee, and only with an answer that has been overtaken.
  lemma KeptStep(g: Guarantee, s: State, a: Step)
    requires Kept(g, s) && Enabled(s, a) && AcksInv(s.link, s.clients) && RanNotes(s.link, s.cache, s.out)
    ensures Kept(g, Do(s, a)) || exists c, p :: AwaitsInVain(g, s, c, p)
  {
    if a.OfServer? && a.v.StoreCache? && g.Freshness? {
      StoreKeeps(s, a.c);
    } else if a.OfServer? && a.v == WriteAnswer(true) && g.Order? {
      WriteKeeps(s, a.c);
    }
  }

  lemma KeptInTime(g: Guarantee, s: State, a: Step)
    requires AcksInv(s.link, s.clients) && TimedInv(s.link, s.clients) && RanNotes(s.link, s.cache, s.out)
    requires InTime(g, s.link, s.clients) && Kept(g, s) && Enabled(s, a)
    ensures Kept(g, Do(s, a))
  {
    KeptStep(g, s, a);
    forall c, p ensures !AwaitsInVain(g, s, c, p) {
      if c in s.clients && Awaits(g, s.link, s.clients[c].phase, p) {
        NotOvertaken(g, s, c, p);
      }
    }
  }

  // An answer that holds the read loop back is the last message read.
  lemma NotOvertaken(g: Guarantee, s: State, c: nat, p: nat)
    requires TimedInv(s.link, s.clients) && RanNotes(s.link, s.cache, s.out)
    requires c in s.clients && Awaits(g, s.link, s.clients[c].phase, p) && p !in s.link.expired
    ensures !Overtaken(g, s, p)
  {
    assert Holds(s.clients, c, p);
    forall n: nat | Passed(g, s, n) ensures n <= p {
      assert IsNote(s.link, n);
    }
  }

  // ------------------------------------------------------- an upstream answer is used once

  ghost predicate Used(k: Link, clients: map<nat, Client>, p: nat) {
    p in k.closedAcks || exists c :: Holds(clients, c, p) && clients[c].phase.Releasing?
  }

  ghost predicate OnceInv(k: Link, clients: map<nat, Client>, out: seq<Event>) {
    && (forall i :: 0 <= i < |out| && out[i].Replied? && out[i].origin.FromUpstream? ==> Used(k, clients, out[i].origin.pos))
    && UsedOnce(out)
  }

  predicate UsedOnce(out: seq<Event>) {
    forall i, j :: 0 <= i < j < |out| && out[i].Replied? && out[j].Replied?
                   && out[i].origin.FromUpstream? && out[j].origin.FromUpstream?
      ==> out[i].origin.pos != out[j].origin.pos
  }

  lemma UsedKept(s: State, a: Step, p: nat)
    requires Enabled(s, a) && Used(s.link, s.clients, p)
    ensures Used(Do(s, a).link, Do(s, a).clients, p)
  {
    var t := Do(s, a);
    if p !in s.link.closedAcks {
      var c :| Holds(s.clients, c, p) && s.clients[c].phase.Releasing?;
      BroadcastKeepsPhases(s.clients, |s.link.stream|);
      assert Holds(t.clients, c, p) || p in t.link.closedAcks;
    }
  }

  lemma OnceStep(s: State, a: Step)
    requires AcksInv(s.link, s.clients) && OnceInv(s.link, s.clients, s.out) && Enabled(s, a)
    ensures OnceInv(Do(s, a).link, Do(s, a).clients, Do(s, a).out)
  {
    var t := Do(s, a);
    forall p: nat | Used(s.link, s.clients, p) ensures Used(t.link, t.clients, p) {
      UsedKept(s, a, p);
    }
    if a.OfServer? && a.v == WriteAnswer(true) && s.clients[a.c].phase.origin.FromUpstream? {
      var p := s.clients[a.c].phase.origin.pos;
      assert Holds(s.clients, a.c, p) && Holds(t.clients, a.c, p);
      assert !Used(s.link, s.clients, p);
    }
  }

  // ------------------------------------------------------------------------- every run

  ghost predicate Inv(s: State, firstId: nat) {
    && AcksInv(s.link, s.clients)
    && CallsInv(s, firstId)
    && RepliesInv(s.clients, s.out)
    && NotesInv(s.link, s.clients, s.cache, s.out)
    && OnceInv(s.link, s.clients, s.out)
    && TimedInv(s.link, s.clients)
    && (forall g: Guarantee :: !Late(g, s.link) ==> InTime(g, s.link, s.clients) && Kept(g, s))
  }

  lemma InvStep(s: State, a: Step, firstId: nat)
    requires Inv(s, firstId) && Enabled(s, a)
    ensures Inv(Do(s, a), firstId) && Grows(s.link, Do(s, a).link)
  {
    AcksStep(s, a);
    CallsStep(s, a, firstId);
    RepliesStep(s, a);
    NotesStep(s, a);
    OnceStep(s, a);
    StepGrows(s, a, firstId);
    TimedStep(s, a);
    forall g: Guarantee | !Late(g, Do(s, a).link) ensures InTime(g, Do(s, a).link, Do(s, a).clients) && Kept(g, Do(s, a)) {
      if Late(g, s.link) {
        LateStays(g, s, a);
      }
      InTimeStep(g, s, a);
      KeptInTime(g, s, a);
    }
  }

  lemma StepGrows(s: State, a: Step, firstId: nat)
    requires CallsInv(s, firstId) && Enabled(s, a)
    ensures Grows(s.link, Do(s, a).link)
  {
    match a
    case OfLoop(l) => LoopGrows(s, l);
    case OfServer(c, v) => ServeGrows(s.link, s.cache, c, s.clients[c], v);
    case _ =>
  }

  lemma {:induction false} RunInv(s: State, steps: seq<Step>, firstId: nat)
    requires Inv(s, firstId) && Exec(s, steps).Some?
    ensures Inv(Exec(s, steps).value, firstId) && Grows(s.link, Exec(s, steps).value.link)
    decreases |steps|
  {
    if steps != [] {
      InvStep(s, steps[0], firstId);
      RunInv(Do(s, steps[0]), steps[1..], firstId);
    }
  }

  ghost predicate Reachable(s: State, firstId: nat) {
    exists steps :: Exec(Init(firstId), steps) == Some(s)
  }

  lemma ReachableInv(s: State, firstId: nat)
    requires Reachable(s, firstId)
    ensures Inv(s, firstId)
  {
    var steps :| Exec(Init(firstId), steps) == Some(s);
    RunInv(Init(firstId), steps, firstId);
  }

  /**
    While the ack timer has not fired on an answer that is about to be cached, the cache is empty
    or holds a tools/list answer read after every list_changed whose invalidation has run.
  */
  lemma CacheIsFresh(s: State, firstId: nat)
    requires Reachable(s, firstId) && !s.link.lateStore
    ensures s.cache.slot.Some? ==>
              && OwnedTools(s.link, s.cache.slot.value)
              && s.link.stream[s.cache.slot.value].storable
              && forall n | n in s.cache.invalidated :: n < s.cache.slot.value
    ensures forall n | n in s.cache.invalidated :: n < |s.link.stream| && s.link.stream[n] == Notification(true)
  {
    ReachableInv(s, firstId);
    assert !Late(Freshness, s.link);
  }

  /**
    While the ack timer has not fired on an answer that is still to be written, no client is sent
    a notification before an answer that precedes it upstream.
  */
  lemma NotificationsDoNotOvertake(s: State, firstId: nat, i: nat, j: nat)
    requires Reachable(s, firstId) && !s.link.lateWrite && i < |s.out| && j < |s.out|
    requires s.out[i].Notified? && s.out[j].Replied? && s.out[j].origin.FromUpstream?
    requires s.out[j].origin.pos < s.out[i].pos
    ensures j < i
  {
    ReachableInv(s, firstId);
    assert !Late(Order, s.link);
  }

  /** An upstream answer is written to one client only, for the request its id was allotted to. */
  lemma NoCrossTalk(s: State, firstId: nat, i: nat, j: nat)
    requires Reachable(s, firstId) && i < |s.out| && j < |s.out|
    requires s.out[i].Replied? && s.out[i].origin.FromUpstream?
    requires s.out[j].Replied? && s.out[j].origin.FromUpstream?
    ensures Owned(s.link, s.out[i].origin.pos, s.out[i].client, s.out[i].request)
    ensures s.out[i].origin.pos == s.out[j].origin.pos ==> i == j
  {
    ReachableInv(s, firstId);
  }

  /** No ack is closed twice, whatever the timers do. */
  lemma NoAckClosedTwice(s: State, firstId: nat)
    requires Reachable(s, firstId)
    ensures !s.link.panicked
  {
    ReachableInv(s, firstId);
  }

  /** A later state of a run has allotted no id again and read only further messages. */
  lemma IdsNeverReused(s: State, steps: seq<Step>, firstId: nat, id: int)
    requires Reachable(s, firstId) && Exec(s, steps).Some? && id in s.link.owner
    ensures var t := Exec(s, steps).value;
            && firstId < id <= s.link.nextId <= t.link.nextId
            && id in t.link.owner && t.link.owner[id] == s.link.owner[id]
            && s.link.stream <= t.link.stream
  {
    ReachableInv(s, firstId);
    RunInv(s, steps, firstId);
  }

  /** Each client gets one answer per request, in order and with the id of that request. */
  lemma OneAnswerPerRequest(s: State, firstId: nat, c: nat)
    requires Reachable(s, firstId) && c in s.clients
    ensures var replies, received := Replies(s.out, c), s.clients[c].received;
            && replies <= received && |received| <= |replies| + 1
            && (s.clients[c].phase == Idle ==> replies == received)
  {
    ReachableInv(s, firstId);
  }

  /** A client is sent notifications in upstream order, none twice. */
  lemma NotificationsInOrder(s: State, firstId: nat, c: nat)
    requires Reachable(s, firstId) && c in s.clients
    ensures Increasing(Notes(s.out, c)) && AllNotes(s.link, Notes(s.out, c))
  {
    ReachableInv(s, firstId);
    var sent, rest := Notes(s.out, c), Pipeline(s.clients[c]);
    assert NoteInv(s.link, s.clients[c], sent);
    assert forall i :: 0 <= i < |sent| ==> sent[i] == (sent + rest)[i];
  }
}
