/**
  What a request asks decides how it is answered: only tools/list looks at the cache and fills it,
  other forwarded requests are answered by the process or by an error, and the rest never reach it.
*/
module UpstreamKinds {
  import opened Options
  import opened Buffers
  import opened Upstream
  import opened UpstreamSafety

  datatype Request = Request(rid: int, kind: Kind)

  function ReadBy(a: Step, c: nat): seq<Request> {
    match a
    case OfServer(d, ReadRequest(rid, kind)) => if d == c then [Request(rid, kind)] else []
    case _ => []
  }

  // The requests of client c, as they were read in the course of a run.
  function Requests(past: seq<Step>, c: nat): seq<Request> {
    if past == [] then [] else Requests(past[..|past| - 1], c) + ReadBy(past[|past| - 1], c)
  }

  // The id was allotted to a call for a request that asked for the tools list, or for another forwarded one.
  predicate CalledFor(k: Link, past: seq<Step>, id: int) {
    id in k.owner && var call := k.owner[id];
    && 0 < call.request <= |Requests(past, call.client)|
    && Requests(past, call.client)[call.request - 1].kind == if call.tools then ToolsList else Forwarded
  }

  // At some moment of the run the cache held the answer at p.
  ghost predicate WasCached(firstId: nat, past: seq<Step>, p: nat) {
    exists j :: 0 <= j <= |past| && var s := Exec(Init(firstId), past[..j]); s.Some? && s.value.cache.slot == Some(p)
  }

  // An answer that may be stored, to a call for a request that asked for the tools list.
  predicate ListAnswer(k: Link, past: seq<Step>, p: nat) {
    OwnedTools(k, p) && k.stream[p].storable && CalledFor(k, past, k.stream[p].id)
  }

  // The origin an answer may have, given what the request asked.
  ghost predicate Suits(firstId: nat, past: seq<Step>, k: Link, origin: Origin, kind: Kind) {
    match origin
    case FromCache(p) => kind == ToolsList && ListAnswer(k, past, p) && WasCached(firstId, past, p)
    case FromUpstream(_) => kind != LocalRequest
    case Local => true
  }

  ghost predicate PhaseSuits(firstId: nat, past: seq<Step>, k: Link, ph: Phase, q: Request) {
    match ph
    case Asked(rid) => q == Request(rid, ToolsList)
    case Forwarding(rid, tools) => q == Request(rid, if tools then ToolsList else Forwarded)
    case Calling(rid, tools, _) => q == Request(rid, if tools then ToolsList else Forwarded)
    case Caching(rid, _) => q == Request(rid, ToolsList)
    case Answering(rid, origin) => q.rid == rid && Suits(firstId, past, k, origin, q.kind)
    case _ => true
  }

  ghost predicate ClientSuits(firstId: nat, past: seq<Step>, k: Link, cl: Client, read: seq<Request>) {
    && |read| == |cl.received| && (forall i :: 0 <= i < |read| ==> read[i].rid == cl.received[i])
    && (Pending(cl.phase).Some? ==> read != [] && PhaseSuits(firstId, past, k, cl.phase, read[|read| - 1]))
  }

  ghost predicate ReplySuits(firstId: nat, past: seq<Step>, k: Link, e: Event) {
    e.Replied? ==>
      && 0 < e.request <= |Requests(past, e.client)|
      && var q := Requests(past, e.client)[e.request - 1];
         q.rid == e.rid && Suits(firstId, past, k, e.origin, q.kind)
  }

  ghost predicate KindsInv(firstId: nat, past: seq<Step>, s: State) {
    && Exec(Init(firstId), past) == Some(s)
    && (forall c :: c in s.clients ==> ClientSuits(firstId, past, s.link, s.clients[c], Requests(past, c)))
    && (forall c: nat :: c !in s.clients ==> Requests(past, c) == [])
    && (forall id :: id in s.link.owner ==> CalledFor(s.link, past, id))
    && (s.cache.slot.Some? ==> ListAnswer(s.link, past, s.cache.slot.value))
    && (forall i :: 0 <= i < |s.out| ==> ReplySuits(firstId, past, s.link, s.out[i]))
  }

  // ----------------------------------------------------------------------- what a step keeps

  lemma RequestsMore(past: seq<Step>, a: Step, c: nat)
    ensures Requests(past + [a], c) == Requests(past, c) + ReadBy(a, c)
  {
    assert (past + [a])[..|past|] == past;
  }

  lemma {:induction false} ExecMore(s: State, past: seq<Step>, a: Step)
    requires Exec(s, past).Some? && Enabled(Exec(s, past).value, a)
    ensures Exec(s, past + [a]) == Some(Do(Exec(s, past).value, a))
    decreases |past|
  {
    if past == [] {
      assert [] + [a] == [a] && [a][1..] == [];
      assert Exec(Do(s, a), []) == Some(Do(s, a));
    } else {
      assert (past + [a])[1..] == past[1..] + [a];
      ExecMore(Do(s, past[0]), past[1..], a);
    }
  }

  lemma CachedMore(firstId: nat, past: seq<Step>, a: Step, p: nat)
    requires WasCached(firstId, past, p)
    ensures WasCached(firstId, past + [a], p)
  {
    var j :| 0 <= j <= |past| && var s := Exec(Init(firstId), past[..j]); s.Some? && s.value.cache.slot == Some(p);
    assert (past + [a])[..j] == past[..j];
  }

  lemma CachedNow(firstId: nat, past: seq<Step>, s: State)
    requires Exec(Init(firstId), past) == Some(s) && s.cache.slot.Some?
    ensures WasCached(firstId, past, s.cache.slot.value)
  {
    assert past[..|past|] == past;
  }

  // What holds of a call, an answer or a reply goes on holding.
  lemma CalledMore(k: Link, k': Link, past: seq<Step>, a: Step, id: int)
    requires Grows(k, k') && CalledFor(k, past, id)
    ensures CalledFor(k', past + [a], id)
  {
    RequestsMore(past, a, k.owner[id].client);
  }

  lemma SuitsMore(firstId: nat, k: Link, k': Link, past: seq<Step>, a: Step, origin: Origin, kind: Kind)
    requires Grows(k, k') && Suits(firstId, past, k, origin, kind)
    ensures Suits(firstId, past + [a], k', origin, kind)
  {
    if origin.FromCache? {
      CachedMore(firstId, past, a, origin.pos);
      CalledMore(k, k', past, a, k.stream[origin.pos].id);
    }
  }

  lemma ReplyMore(firstId: nat, k: Link, k': Link, past: seq<Step>, a: Step, e: Event)
    requires Grows(k, k') && ReplySuits(firstId, past, k, e)
    ensures ReplySuits(firstId, past + [a], k', e)
  {
    if e.Replied? {
      RequestsMore(past, a, e.client);
      SuitsMore(firstId, k, k', past, a, e.origin, Requests(past, e.client)[e.request - 1].kind);
    }
  }

  // A client that takes no step, or whose step is not its serving loop's.
  lemma ClientMore(firstId: nat, k: Link, k': Link, past: seq<Step>, a: Step, cl: Client, after: Client, c: nat)
    requires Grows(k, k') && ClientSuits(firstId, past, k, cl, Requests(past, c)) && ReadBy(a, c) == []
    requires after.phase == cl.phase && after.received == cl.received
    ensures ClientSuits(firstId, past + [a], k', after, Requests(past + [a], c))
  {
    RequestsMore(past, a, c);
    if cl.phase.Answering? {
      SuitsMore(firstId, k, k', past, a, cl.phase.origin, Requests(past, c)[|Requests(past, c)| - 1].kind);
    }
  }

  // The serving loop of a client takes a step that reads no request.
  lemma ClientServes(firstId: nat, k: Link, past: seq<Step>, cache: Cache, c: nat, cl: Client, v: ServeStep)
    requires ServeEnabled(k, cache, c, cl, v) && !v.ReadRequest? && Grows(k, ServeLink(k, cache, c, cl, v))
    requires ClientSuits(firstId, past, k, cl, Requests(past, c))
    requires cache.slot.Some? ==> ListAnswer(k, past, cache.slot.value) && WasCached(firstId, past, cache.slot.value)
    ensures ClientSuits(firstId, past + [OfServer(c, v)], ServeLink(k, cache, c, cl, v), ServeClient(k, cache, c, cl, v),
                        Requests(past + [OfServer(c, v)], c))
  {
    hide WasCached, ListAnswer, Grows, ServeLink, ServeCache, ServeOut;
    var a, k' := OfServer(c, v), ServeLink(k, cache, c, cl, v);
    RequestsMore(past, a, c);
    if v.CacheHit? {
      assert Suits(firstId, past, k, FromCache(cache.slot.value), ToolsList);
      SuitsMore(firstId, k, k', past, a, FromCache(cache.slot.value), ToolsList);
    }
  }

  lemma ClientReads(firstId: nat, k: Link, past: seq<Step>, cache: Cache, c: nat, cl: Client, rid: int, kind: Kind)
    requires cl.phase == Idle && ClientSuits(firstId, past, k, cl, Requests(past, c))
    ensures var v := ReadRequest(rid, kind);
            ClientSuits(firstId, past + [OfServer(c, v)], k, ServeClient(k, cache, c, cl, v), Requests(past + [OfServer(c, v)], c))
  {
    RequestsMore(past, OfServer(c, ReadRequest(rid, kind)), c);
  }

  // A call is recorded with the kind of the request it is made for.
  lemma CallRecorded(firstId: nat, k: Link, past: seq<Step>, cache: Cache, c: nat, cl: Client, sent: bool)
    requires ServeEnabled(k, cache, c, cl, BeginCall(sent)) && ClientSuits(firstId, past, k, cl, Requests(past, c))
    ensures CalledFor(ServeLink(k, cache, c, cl, BeginCall(sent)), past + [OfServer(c, BeginCall(sent))], k.nextId + 1)
  {
    hide Suits, WasCached, ListAnswer, ServeClient, ServeCache, ServeOut, Requests;
    var a, read := OfServer(c, BeginCall(sent)), Requests(past, c);
    RequestsMore(past, a, c);
    assert ReadBy(a, c) == [] && read + [] == read;
    assert read[|read| - 1] == Request(cl.phase.rid, if cl.phase.tools then ToolsList else Forwarded);
  }

  lemma OwnerKinds(firstId: nat, past: seq<Step>, s: State, c: nat, v: ServeStep)
    requires KindsInv(firstId, past, s) && Enabled(s, OfServer(c, v)) && Grows(s.link, Do(s, OfServer(c, v)).link)
    ensures forall id :: id in Do(s, OfServer(c, v)).link.owner ==> CalledFor(Do(s, OfServer(c, v)).link, past + [OfServer(c, v)], id)
  {
    hide ClientSuits, ReplySuits, ListAnswer, Grows, CalledFor;
    var a := OfServer(c, v);
    var t := Do(s, a);
    forall id | id in t.link.owner ensures CalledFor(t.link, past + [a], id) {
      if id in s.link.owner {
        CalledMore(s.link, t.link, past, a, id);
      } else {
        assert v.BeginCall? && id == s.link.nextId + 1;
        CallRecorded(firstId, s.link, past, s.cache, c, s.clients[c], v.sent);
      }
    }
  }

  lemma ReplyWritten(firstId: nat, k: Link, k': Link, past: seq<Step>, c: nat, cl: Client, v: ServeStep)
    requires Grows(k, k') && ClientSuits(firstId, past, k, cl, Requests(past, c)) && ServeOut(c, cl, v).Some?
    ensures ReplySuits(firstId, past + [OfServer(c, v)], k', ServeOut(c, cl, v).value)
  {
    hide Grows, Suits;
    RequestsMore(past, OfServer(c, v), c);
    if v == WriteAnswer(true) {
      SuitsMore(firstId, k, k', past, OfServer(c, v), cl.phase.origin, Requests(past, c)[|Requests(past, c)| - 1].kind);
    }
  }

  lemma SlotSuits(firstId: nat, past: seq<Step>, s: State, c: nat, v: ServeStep)
    requires KindsInv(firstId, past, s) && Enabled(s, OfServer(c, v)) && CallInv(s.link, c, s.clients[c])
    requires Grows(s.link, Do(s, OfServer(c, v)).link)
    ensures var t := Do(s, OfServer(c, v));
            t.cache.slot.Some? ==> ListAnswer(t.link, past + [OfServer(c, v)], t.cache.slot.value)
  {
    hide ClientSuits, ReplySuits, CalledFor;
    var t := Do(s, OfServer(c, v));
    if t.cache.slot.Some? {
      var p := t.cache.slot.value;
      assert OwnedTools(s.link, p) && s.link.stream[p].storable;
      CalledMore(s.link, t.link, past, OfServer(c, v), s.link.stream[p].id);
    }
  }

  lemma ServerKinds(firstId: nat, past: seq<Step>, s: State, c: nat, v: ServeStep)
    requires KindsInv(firstId, past, s) && CallsInv(s, firstId) && Enabled(s, OfServer(c, v))
    ensures KindsInv(firstId, past + [OfServer(c, v)], Do(s, OfServer(c, v)))
  {
    hide ClientSuits, ReplySuits, ListAnswer, CalledFor, WasCached;
    var a, k, cl := OfServer(c, v), s.link, s.clients[c];
    var t := Do(s, a);
    ServeGrows(k, s.cache, c, cl, v);
    ExecMore(Init(firstId), past, a);
    OwnerKinds(firstId, past, s, c, v);
    assert CallInv(k, c, cl);
    SlotSuits(firstId, past, s, c, v);
    if s.cache.slot.Some? {
      CachedNow(firstId, past, s);
    }
    forall d | d in t.clients ensures ClientSuits(firstId, past + [a], t.link, t.clients[d], Requests(past + [a], d)) {
      if d != c {
        ClientMore(firstId, k, t.link, past, a, s.clients[d], t.clients[d], d);
      } else if v.ReadRequest? {
        ClientReads(firstId, k, past, s.cache, c, cl, v.rid, v.kind);
      } else {
        ClientServes(firstId, k, past, s.cache, c, cl, v);
      }
    }
    forall d: nat | d !in t.clients ensures Requests(past + [a], d) == [] {
      RequestsMore(past, a, d);
    }
    forall i | 0 <= i < |t.out| ensures ReplySuits(firstId, past + [a], t.link, t.out[i]) {
      if i < |s.out| {
        ReplyMore(firstId, k, t.link, past, a, s.out[i]);
      } else {
        ReplyWritten(firstId, k, t.link, past, c, cl, v);
      }
    }
  }

  // What a step of another thread leaves alone.
  ghost predicate Aside(s: State, t: State) {
    && t.link.owner == s.link.owner && (t.cache.slot.Some? ==> t.cache.slot == s.cache.slot)
    && (forall c :: c in s.clients ==> c in t.clients && t.clients[c].phase == s.clients[c].phase && t.clients[c].received == s.clients[c].received)
    && (forall c :: c in t.clients && c !in s.clients ==> t.clients[c] == Client(Idle, false, [], Detached, []))
    && s.out <= t.out && forall i :: |s.out| <= i < |t.out| ==> !t.out[i].Replied?
  }

  lemma LoopAside(s: State, l: LoopStep)
    requires LoopEnabled(s.link, l)
    ensures Aside(s, Do(s, OfLoop(l)))
  {
    hide Push;
    BroadcastKeepsPhases(s.clients, |s.link.stream|);
  }

  lemma ForwardAside(s: State, c: nat, f: ForwardStep)
    requires Enabled(s, OfForwarder(c, f))
    ensures Aside(s, Do(s, OfForwarder(c, f)))
  {
    hide ServeLink, ServeClient, LoopLink;
  }

  lemma OthersAside(s: State, a: Step)
    requires Enabled(s, a) && !a.OfServer?
    ensures Aside(s, Do(s, a)) && forall c :: ReadBy(a, c) == []
  {
    match a
    case OfLoop(l) => LoopAside(s, l);
    case OfForwarder(c, f) => ForwardAside(s, c, f);
    case Connect(c) =>
  }

  lemma OtherKinds(firstId: nat, past: seq<Step>, s: State, a: Step)
    requires KindsInv(firstId, past, s) && Enabled(s, a) && !a.OfServer? && Grows(s.link, Do(s, a).link)
    ensures KindsInv(firstId, past + [a], Do(s, a))
  {
    hide ClientSuits, ReplySuits, ListAnswer, CalledFor, WasCached, Grows, Do, Enabled;
    var t := Do(s, a);
    ExecMore(Init(firstId), past, a);
    OthersAside(s, a);
    forall id | id in t.link.owner ensures CalledFor(t.link, past + [a], id) {
      CalledMore(s.link, t.link, past, a, id);
    }
    if t.cache.slot.Some? {
      AnswerMore(s.link, t.link, past, a, t.cache.slot.value);
    }
    forall d: nat ensures Requests(past + [a], d) == Requests(past, d) {
      RequestsMore(past, a, d);
    }
    forall d | d in t.clients ensures ClientSuits(firstId, past + [a], t.link, t.clients[d], Requests(past + [a], d)) {
      if d in s.clients {
        ClientMore(firstId, s.link, t.link, past, a, s.clients[d], t.clients[d], d);
      } else {
        NewClient(firstId, past + [a], t.link);
      }
    }
    forall i | 0 <= i < |t.out| ensures ReplySuits(firstId, past + [a], t.link, t.out[i]) {
      if i < |s.out| {
        ReplyMore(firstId, s.link, t.link, past, a, s.out[i]);
      } else {
        NoReply(firstId, past + [a], t.link, t.out[i]);
      }
    }
  }

  lemma AnswerMore(k: Link, k': Link, past: seq<Step>, a: Step, p: nat)
    requires Grows(k, k') && ListAnswer(k, past, p)
    ensures ListAnswer(k', past + [a], p)
  {
    CalledMore(k, k', past, a, k.stream[p].id);
  }

  lemma NewClient(firstId: nat, past: seq<Step>, k: Link)
    ensures ClientSuits(firstId, past, k, Client(Idle, false, [], Detached, []), [])
  {
  }

  lemma NoReply(firstId: nat, past: seq<Step>, k: Link, e: Event)
    requires !e.Replied?
    ensures ReplySuits(firstId, past, k, e)
  {
  }

  lemma {:induction false} RunKinds(firstId: nat, past: seq<Step>, s: State)
    requires Exec(Init(firstId), past) == Some(s)
    ensures KindsInv(firstId, past, s) && Inv(s, firstId)
  {
    if past == [] {
    } else {
      hide KindsInv, Inv, Enabled;
      var n := |past| - 1;
      assert past[..n] + [past[n]] == past;
      var before := ExecInit(Init(firstId), past[..n], past[n]);
      RunKinds(firstId, past[..n], before);
      InvStep(before, past[n], firstId);
      InvCalls(before, firstId);
      match past[n]
      case OfServer(c, v) => ServerKinds(firstId, past[..n], before, c, v);
      case _ => OtherKinds(firstId, past[..n], before, past[n]);
    }
  }

  lemma InvCalls(s: State, firstId: nat)
    requires Inv(s, firstId)
    ensures CallsInv(s, firstId)
  {
  }

  // A run is a shorter run and one more step.
  lemma {:induction false} ExecInit(s: State, past: seq<Step>, a: Step) returns (before: State)
    requires Exec(s, past + [a]).Some?
    ensures Exec(s, past) == Some(before) && Enabled(before, a) && Exec(s, past + [a]) == Some(Do(before, a))
    decreases |past|
  {
    if past == [] {
      before := s;
      assert [] + [a] == [a] && [a][1..] == [];
      assert Exec(Do(s, a), []) == Some(Do(s, a));
    } else {
      assert (past + [a])[1..] == past[1..] + [a] && (past + [a])[0] == past[0];
      before := ExecInit(Do(s, past[0]), past[1..], a);
    }
  }

  // ------------------------------------------------------------------------ every answer

  /**
    Every reply is to a request that was read, with its id.  One from the cache is to a tools/list
    request, and what it holds was in the cache and came from a call for a tools/list request; one
    from upstream is to a request that is forwarded, by the call made for it; any other request is
    answered without the process.
  */
  lemma AnswersSuit(firstId: nat, past: seq<Step>, s: State, i: nat)
    requires Exec(Init(firstId), past) == Some(s) && i < |s.out| && s.out[i].Replied?
    ensures var e := s.out[i];
            && 0 < e.request <= |Requests(past, e.client)|
            && var q := Requests(past, e.client)[e.request - 1];
               && q.rid == e.rid
               && (e.origin.FromCache? ==> q.kind == ToolsList && ListAnswer(s.link, past, e.origin.pos) && WasCached(firstId, past, e.origin.pos))
               && (e.origin.FromUpstream? ==>
                     && q.kind != LocalRequest && Owned(s.link, e.origin.pos, e.client, e.request)
                     && (s.link.owner[s.link.stream[e.origin.pos].id].tools <==> q.kind == ToolsList))
               && (q.kind == LocalRequest ==> e.origin == Local)
  {
    hide ListAnswer, WasCached, Inv;
    RunKinds(firstId, past, s);
    InvCalls(s, firstId);
    var e := s.out[i];
    assert ReplySuits(firstId, past, s.link, e) && EventOwned(s.link, e);
    if e.origin.FromUpstream? {
      assert CalledFor(s.link, past, s.link.stream[e.origin.pos].id);
    }
  }

  /** What is cached answers a call for a tools/list request. */
  lemma CachedIsList(firstId: nat, past: seq<Step>, s: State)
    requires Exec(Init(firstId), past) == Some(s) && s.cache.slot.Some?
    ensures ListAnswer(s.link, past, s.cache.slot.value)
  {
    RunKinds(firstId, past, s);
  }

  /** Upstream ids are allotted to requests that are forwarded, and to no other. */
  lemma CallsAreForwarded(firstId: nat, past: seq<Step>, s: State, id: int)
    requires Exec(Init(firstId), past) == Some(s) && id in s.link.owner
    ensures CalledFor(s.link, past, id)
  {
    RunKinds(firstId, past, s);
  }

  /** A tools/list request that finds the cache filled can be answered from it, and the process is not involved. */
  lemma ListFromCache(s: State, c: nat, rid: int)
    requires c in s.clients && s.clients[c].phase == Idle && s.cache.slot.Some?
    ensures var t := Exec(s, [OfServer(c, ReadRequest(rid, ToolsList)), OfServer(c, CacheHit), OfServer(c, WriteAnswer(true))]);
            && t.Some? && t.value.link == s.link && c in t.value.clients && t.value.clients[c].phase == Idle
            && t.value.out == s.out + [Replied(c, rid, |s.clients[c].received| + 1, FromCache(s.cache.slot.value))]
  {
    var a, b, d := OfServer(c, ReadRequest(rid, ToolsList)), OfServer(c, CacheHit), OfServer(c, WriteAnswer(true));
    ExecMore(s, [], a);
    ExecMore(s, [a], b);
    ExecMore(s, [a, b], d);
    assert [] + [a] == [a] && [a] + [b] == [a, b] && [a, b] + [d] == [a, b, d];
  }

  /** Any other forwarded request takes an id of its own, whatever the cache holds. */
  lemma ForwardedTakesId(s: State, c: nat, rid: int)
    requires c in s.clients && s.clients[c].phase == Idle && s.clients[c].subscribed && s.link.lock == None
    ensures var t := Exec(s, [OfServer(c, ReadRequest(rid, Forwarded)), OfServer(c, BeginCall(true))]);
            && t.Some? && t.value.cache == s.cache && c in t.value.clients
            && t.value.clients[c].phase == Calling(rid, false, s.link.nextId + 1)
  {
    var a, b := OfServer(c, ReadRequest(rid, Forwarded)), OfServer(c, BeginCall(true));
    ExecMore(s, [], a);
    ExecMore(s, [a], b);
    assert [] + [a] == [a] && [a] + [b] == [a, b];
  }
}
