/**
  The protocol between one real MCP process and the clients that share it.

  Three kinds of thread interleave: the read loop of the process, one serving loop per
  client and one notification forwarder per client.  Every atomic action of a thread is a
  `Step`; a run is any list of steps each of which is enabled when it is taken, so every
  interleaving is a run.  A message of the process is known by its position in `stream`.
*/
module Upstream {
  import opened Buffers
  import opened Options

  const QUEUE := 64   // capacity of the response queue

  datatype Message =
    | Response(id: int, usable: bool, storable: bool)
    | Notification(listChanged: bool)
    | ServerRequest

  datatype ReadLoop = Reading | Offering(pos: nat) | Waiting(pos: nat) | Stopped

  // Where an answer sent to a client comes from.
  datatype Origin = FromUpstream(pos: nat) | FromCache(pos: nat) | Local

  datatype Kind = LocalRequest | ToolsList | Forwarded

  // What the serving loop of a client is doing.
  datatype Phase =
    | Idle
    | Asked(rid: int)                         // tools/list read, cache not yet consulted
    | Forwarding(rid: int, tools: bool)       // has no backend call yet
    | Calling(rid: int, tools: bool, id: int) // holds the call lock, waits for `id`
    | Caching(rid: int, pos: nat)             // accepted a usable tools/list answer
    | Answering(rid: int, origin: Origin)     // the answer is ready to be written
    | Releasing(pos: nat, ended: bool)        // written, or the write failed; ack still open
    | Ended
    | Gone

  datatype Forwarder = Detached | Listening | Carrying(pos: nat) | Handled(pos: nat)

  datatype Client = Client(phase: Phase, subscribed: bool, buffer: seq<nat>,
                           forwarder: Forwarder, received: seq<int>)

  // Everything written to a client, in the order of the writes of all clients.
  datatype Event =
    | Replied(client: nat, rid: int, request: nat, origin: Origin)
    | Notified(client: nat, pos: nat)
    | Rejected(client: nat)

  // The call made for the `request`-th request of `client`.
  datatype Call = Call(client: nat, request: nat, tools: bool)

  // The state of the real process and of the calls made to it.
  datatype Link = Link(
    stream: seq<Message>,       // what the read loop has read
    loop: ReadLoop,
    queue: seq<nat>,            // offered responses, by position
    closedAcks: set<nat>,
    panicked: bool,             // a closed channel was closed again
    expired: set<nat>,          // responses whose ack timer fired
    lateStore: bool,            // the timer fired on a response that its caller is about to cache
    lateWrite: bool,            // the timer fired on a response that its caller has not yet written
    exited: bool,               // the process has exited
    lock: Option<nat>,          // holder of the call lock
    nextId: int,
    owner: map<int, Call>)      // upstream id -> the call it was allotted to

  // The tools/list cache: position of the cached answer, and every list_changed
  // notification whose invalidation has run.
  datatype Cache = Cache(slot: Option<nat>, invalidated: set<nat>)

  datatype State = State(link: Link, clients: map<nat, Client>, cache: Cache, out: seq<Event>)

  datatype LoopStep = ReadMessage(m: Message) | Offer | SeeAck | AckTimeout | StopLoop | Exit

  datatype ServeStep =
    | ReadRequest(rid: int, kind: Kind) | Reject | Hangup
    | CacheHit | CacheMiss(removes: bool)
    | Subscribe | StartFails
    | BeginCall(sent: bool) | GiveUp | TakeResponse
    | StoreCache | WriteAnswer(ok: bool) | Release | Cleanup

  datatype ForwardStep = Attach | TakeNote | Invalidate | SendNote

  datatype Step =
    | OfLoop(l: LoopStep)
    | Connect(c: nat)
    | OfServer(c: nat, v: ServeStep)
    | OfForwarder(c: nat, f: ForwardStep)

  function Init(firstId: nat): State {
    State(Link([], Reading, [], {}, false, {}, false, false, false, None, firstId, map[]), map[], Cache(None, {}), [])
  }

  // The response a client has accepted and not yet acknowledged.
  function Held(p: Phase): Option<nat> {
    match p
    case Caching(_, pos) => Some(pos)
    case Answering(_, FromUpstream(pos)) => Some(pos)
    case Releasing(pos, _) => Some(pos)
    case _ => None
  }

  predicate Holds(clients: map<nat, Client>, c: nat, p: nat) {
    c in clients && Held(clients[c].phase) == Some(p)
  }

  // The answer at p is about to go into the cache.
  predicate Stores(stream: seq<Message>, ph: Phase, p: nat) {
    ph.Caching? && ph.pos == p && p < |stream| && stream[p].Response? && stream[p].storable
  }

  // The answer at p is still to be written to the client.
  predicate Writes(ph: Phase, p: nat) { Held(ph) == Some(p) && !ph.Releasing? }

  // ------------------------------------------------------------------- the read loop

  function Broadcast(clients: map<nat, Client>, n: nat): map<nat, Client> {
    map c | c in clients ::
      if clients[c].subscribed then clients[c].(buffer := Push(clients[c].buffer, n)) else clients[c]
  }

  predicate LoopEnabled(k: Link, l: LoopStep) {
    match l
    case ReadMessage(_) => k.loop == Reading
    case Offer => k.loop.Offering? && |k.queue| < QUEUE
    case SeeAck => k.loop.Waiting? && k.loop.pos in k.closedAcks
    case AckTimeout => k.loop.Waiting?
    case StopLoop => k.loop == Reading || (k.exited && k.loop != Stopped)
    case Exit => !k.exited
  }

  function LoopLink(s: State, l: LoopStep): Link
    requires LoopEnabled(s.link, l)
  {
    var k := s.link;
    match l
    case ReadMessage(m) =>
      k.(stream := k.stream + [m], loop := if m.Response? then Offering(|k.stream|) else Reading)
    case Offer => k.(queue := k.queue + [k.loop.pos], loop := Waiting(k.loop.pos))
    case SeeAck => k.(loop := Reading)
    case AckTimeout =>
      k.(loop := Reading, expired := k.expired + {k.loop.pos},
         lateStore := k.lateStore || exists c | c in s.clients :: Stores(k.stream, s.clients[c].phase, k.loop.pos),
         lateWrite := k.lateWrite || exists c | c in s.clients :: Writes(s.clients[c].phase, k.loop.pos))
    case StopLoop => k.(loop := Stopped)
    case Exit => k.(exited := true)
  }

  function LoopClients(s: State, l: LoopStep): map<nat, Client> {
    if l.ReadMessage? && l.m.Notification? then Broadcast(s.clients, |s.link.stream|) else s.clients
  }

  // ---------------------------------------------------------- the serving loop of a client

  predicate ServeEnabled(k: Link, cache: Cache, c: nat, cl: Client, v: ServeStep) {
    match v
    case ReadRequest(_, _) => cl.phase == Idle
    case Reject => cl.phase == Idle
    case Hangup => cl.phase == Idle
    case CacheHit => cl.phase.Asked? && cache.slot.Some?
    case CacheMiss(removes) => cl.phase.Asked? && (cache.slot.Some? ==> removes)
    case Subscribe => !cl.subscribed && (cl.phase == Idle || cl.phase.Forwarding?)
    case StartFails => cl.phase.Forwarding?
    case BeginCall(_) => cl.phase.Forwarding? && cl.subscribed && k.lock == None
    case GiveUp => cl.phase.Calling?
    case TakeResponse => cl.phase.Calling? && |k.queue| > 0 && k.queue[0] < |k.stream|
    case StoreCache => cl.phase.Caching? && cl.phase.pos < |k.stream|
    case WriteAnswer(_) => cl.phase.Answering?
    case Release => cl.phase.Releasing?
    case Cleanup => cl.phase == Ended && (cl.forwarder == Detached || cl.forwarder == Listening)
  }

  function ServeClient(k: Link, cache: Cache, c: nat, cl: Client, v: ServeStep): Client
    requires ServeEnabled(k, cache, c, cl, v)
  {
    match v
    case ReadRequest(rid, kind) =>
      var next := match kind
                  case LocalRequest => Answering(rid, Local)
                  case ToolsList => Asked(rid)
                  case Forwarded => Forwarding(rid, false);
      cl.(phase := next, received := cl.received + [rid])
    case Reject => cl
    case Hangup => cl.(phase := Ended)
    case CacheHit => cl.(phase := Answering(cl.phase.rid, FromCache(cache.slot.value)))
    case CacheMiss(_) => cl.(phase := Forwarding(cl.phase.rid, true))
    case Subscribe => cl.(subscribed := true)
    case StartFails => cl.(phase := Answering(cl.phase.rid, Local))
    case BeginCall(sent) =>
      cl.(phase := if sent then Calling(cl.phase.rid, cl.phase.tools, k.nextId + 1) else Answering(cl.phase.rid, Local))
    case GiveUp => cl.(phase := Answering(cl.phase.rid, Local))
    case TakeResponse =>
      var p := k.queue[0];
      if !Matches(k, cl) then cl
      else if cl.phase.tools && k.stream[p].usable then cl.(phase := Caching(cl.phase.rid, p))
      else cl.(phase := Answering(cl.phase.rid, FromUpstream(p)))
    case StoreCache => cl.(phase := Answering(cl.phase.rid, FromUpstream(cl.phase.pos)))
    case WriteAnswer(ok) =>
      cl.(phase := if cl.phase.origin.FromUpstream? then Releasing(cl.phase.origin.pos, !ok)
                   else if ok then Idle else Ended)
    case Release => cl.(phase := if cl.phase.ended then Ended else Idle)
    case Cleanup => cl.(phase := Gone, subscribed := false)
  }

  predicate Carries(k: Link, p: nat, id: int) { p < |k.stream| && k.stream[p].Response? && k.stream[p].id == id }

  // The response at the head of the queue carries the id the caller waits for.
  predicate Matches(k: Link, cl: Client)
    requires cl.phase.Calling? && |k.queue| > 0 && k.queue[0] < |k.stream|
  {
    Carries(k, k.queue[0], cl.phase.id)
  }

  // Closing a closed Go channel panics.
  function CloseAck(k: Link, p: nat): Link {
    k.(panicked := k.panicked || p in k.closedAcks, closedAcks := k.closedAcks + {p})
  }

  function ServeLink(k: Link, cache: Cache, c: nat, cl: Client, v: ServeStep): Link
    requires ServeEnabled(k, cache, c, cl, v)
  {
    match v
    case BeginCall(sent) =>
      k.(nextId := k.nextId + 1, owner := k.owner[k.nextId + 1 := Call(c, |cl.received|, cl.phase.tools)],
         lock := if sent then Some(c) else None)
    case GiveUp => k.(lock := None)
    case TakeResponse =>
      var rest := k.(queue := k.queue[1..]);
      if Matches(k, cl) then
        rest.(lock := None,
              lateStore := k.lateStore || (k.queue[0] in k.expired && cl.phase.tools && k.stream[k.queue[0]].usable && k.stream[k.queue[0]].storable),
              lateWrite := k.lateWrite || k.queue[0] in k.expired)
      else CloseAck(rest, k.queue[0])
    case Release => CloseAck(k, cl.phase.pos)
    case _ => k
  }

  function ServeCache(k: Link, cache: Cache, c: nat, cl: Client, v: ServeStep): Cache
    requires ServeEnabled(k, cache, c, cl, v)
  {
    match v
    case CacheMiss(true) => cache.(slot := None)
    case StoreCache =>
      var m := k.stream[cl.phase.pos];
      cache.(slot := if m.Response? && m.storable then Some(cl.phase.pos) else None)
    case _ => cache
  }

  function ServeOut(c: nat, cl: Client, v: ServeStep): Option<Event> {
    match v
    case Reject => Some(Rejected(c))
    case WriteAnswer(true) =>
      if cl.phase.Answering? then Some(Replied(c, cl.phase.rid, |cl.received|, cl.phase.origin)) else None
    case _ => None
  }

  // --------------------------------------------------------- the forwarder of a client

  predicate ForwardEnabled(k: Link, cl: Client, f: ForwardStep) {
    match f
    case Attach => cl.subscribed && cl.forwarder == Detached && cl.phase != Gone
    case TakeNote => cl.forwarder == Listening && cl.phase != Gone && |cl.buffer| > 0 && cl.buffer[0] < |k.stream|
    case Invalidate => cl.forwarder.Carrying?
    case SendNote => cl.forwarder.Handled?
  }

  function ForwardClient(k: Link, cl: Client, f: ForwardStep): Client
    requires ForwardEnabled(k, cl, f)
  {
    match f
    case Attach => cl.(forwarder := Listening)
    case TakeNote =>
      var n := cl.buffer[0];
      cl.(buffer := cl.buffer[1..],
          forwarder := if k.stream[n] == Notification(true) then Carrying(n) else Handled(n))
    case Invalidate => cl.(forwarder := Handled(cl.forwarder.pos))
    case SendNote => cl.(forwarder := Listening)
  }

  function ForwardCache(cache: Cache, cl: Client, f: ForwardStep): Cache {
    if f.Invalidate? && cl.forwarder.Carrying? then Cache(None, cache.invalidated + {cl.forwarder.pos}) else cache
  }

  function ForwardOut(c: nat, cl: Client, f: ForwardStep): Option<Event> {
    if f.SendNote? && cl.forwarder.Handled? then Some(Notified(c, cl.forwarder.pos)) else None
  }

  // --------------------------------------------------------------------------- runs

  function Log(out: seq<Event>, e: Option<Event>): seq<Event> {
    if e.Some? then out + [e.value] else out
  }

  predicate Enabled(s: State, a: Step) {
    match a
    case OfLoop(l) => LoopEnabled(s.link, l)
    case Connect(c) => c !in s.clients
    case OfServer(c, v) => c in s.clients && ServeEnabled(s.link, s.cache, c, s.clients[c], v)
    case OfForwarder(c, f) => c in s.clients && ForwardEnabled(s.link, s.clients[c], f)
  }

  function Do(s: State, a: Step): State
    requires Enabled(s, a)
  {
    match a
    case OfLoop(l) => State(LoopLink(s, l), LoopClients(s, l), s.cache, s.out)
    case Connect(c) => State(s.link, s.clients[c := Client(Idle, false, [], Detached, [])], s.cache, s.out)
    case OfServer(c, v) =>
      var cl := s.clients[c];
      State(ServeLink(s.link, s.cache, c, cl, v),
            s.clients[c := ServeClient(s.link, s.cache, c, cl, v)],
            ServeCache(s.link, s.cache, c, cl, v),
            Log(s.out, ServeOut(c, cl, v)))
    case OfForwarder(c, f) =>
      var cl := s.clients[c];
      State(s.link,
            s.clients[c := ForwardClient(s.link, cl, f)],
            ForwardCache(s.cache, cl, f),
            Log(s.out, ForwardOut(c, cl, f)))
  }

  // The state a list of steps leads to, if every step is enabled when it is taken.
  function Exec(s: State, steps: seq<Step>): Option<State>
    decreases |steps|
  {
    if steps == [] then Some(s)
    else if Enabled(s, steps[0]) then Exec(Do(s, steps[0]), steps[1..])
    else None
  }
}
