/**
  One call on the backend object, as its loop runs while no other thread takes a step: unmatched
  responses are acknowledged and dropped until the response with the call's own id is found.
  Each of its actions is a step of `Upstream`, so the loop is a run of such steps.
*/
module Backend {
  import opened Options
  import opened Upstream

  // Every queued response has been read.
  predicate Queued(k: Link) { forall i :: 0 <= i < |k.queue| ==> k.queue[i] < |k.stream| }

  // A caller and the backend after the queued responses have been looked at.
  datatype Turn = Turn(link: Link, client: Client)

  function TakeAll(k: Link, cache: Cache, c: nat, cl: Client): Turn
    requires Queued(k)
    decreases |k.queue|
  {
    if !cl.phase.Calling? || k.queue == [] then Turn(k, cl)
    else TakeAll(ServeLink(k, cache, c, cl, TakeResponse), cache, c, ServeClient(k, cache, c, cl, TakeResponse))
  }

  /** The loop of a call is a run of `TakeResponse` steps of the caller. */
  lemma {:induction false} TakeAllIsRun(s: State, c: nat) returns (steps: seq<Step>)
    requires c in s.clients && Queued(s.link)
    ensures forall i :: 0 <= i < |steps| ==> steps[i] == OfServer(c, TakeResponse)
    ensures var t := TakeAll(s.link, s.cache, c, s.clients[c]);
            Exec(s, steps) == Some(State(t.link, s.clients[c := t.client], s.cache, s.out))
    decreases |s.link.queue|
  {
    var cl := s.clients[c];
    if !cl.phase.Calling? || s.link.queue == [] {
      steps := [];
      assert s.clients[c := cl] == s.clients;
    } else {
      var next := Do(s, OfServer(c, TakeResponse));
      var rest := TakeAllIsRun(next, c);
      steps := [OfServer(c, TakeResponse)] + rest;
      assert steps[1..] == rest;
      var t := TakeAll(next.link, next.cache, c, next.clients[c]);
      assert next.clients[c := t.client] == s.clients[c := t.client];
    }
  }

  // No response before position i of the queue carries the id.
  predicate NoneBefore(k: Link, i: nat, id: int)
    requires i <= |k.queue|
  {
    forall j :: 0 <= j < i ==> !Carries(k, k.queue[j], id)
  }

  // The caller holds the i-th queued response, or goes on waiting if there is none.
  predicate Found(k: Link, cl: Client, i: nat, t: Turn)
    requires i <= |k.queue|
  {
    && t.link.stream == k.stream && t.link.nextId == k.nextId && t.link.closedAcks == k.closedAcks + (set p | p in k.queue[..i])
    && if i == |k.queue| then t.client == cl && t.link.queue == [] && t.link.lock == k.lock
       else Held(t.client.phase) == Some(k.queue[i]) && t.link.queue == k.queue[i + 1..] && t.link.lock == None
  }

  /**
    A call ends with the first queued response that carries its own id, or goes on waiting if there
    is none; every response before it is taken off the queue and acknowledged, and no other.
  */
  lemma {:induction false} CallFindsOwnResponse(k: Link, cache: Cache, c: nat, cl: Client, i: nat)
    requires Queued(k) && cl.phase.Calling? && i <= |k.queue| && NoneBefore(k, i, cl.phase.id)
    requires i < |k.queue| ==> Carries(k, k.queue[i], cl.phase.id)
    ensures Found(k, cl, i, TakeAll(k, cache, c, cl))
    decreases i
  {
    if i > 0 {
      hide TakeAll, Found;
      var k' := CloseAck(k.(queue := k.queue[1..]), k.queue[0]);
      assert !Carries(k, k.queue[0], cl.phase.id);
      OneDropped(k, cache, c, cl);
      assert forall j :: 0 <= j < |k'.queue| ==> k'.queue[j] == k.queue[j + 1];
      CallFindsOwnResponse(k', cache, c, cl, i - 1);
      FoundMore(k, cl, i, TakeAll(k', cache, c, cl));
    } else if k.queue != [] {
      OneTaken(k, cache, c, cl);
    }
  }

  lemma OneTaken(k: Link, cache: Cache, c: nat, cl: Client)
    requires Queued(k) && cl.phase.Calling? && k.queue != [] && Carries(k, k.queue[0], cl.phase.id)
    ensures Found(k, cl, 0, TakeAll(k, cache, c, cl))
  {
    var k', cl' := ServeLink(k, cache, c, cl, TakeResponse), ServeClient(k, cache, c, cl, TakeResponse);
    assert TakeAll(k', cache, c, cl') == Turn(k', cl');
  }

  lemma FoundMore(k: Link, cl: Client, i: nat, t: Turn)
    requires 0 < i <= |k.queue| && Found(CloseAck(k.(queue := k.queue[1..]), k.queue[0]), cl, i - 1, t)
    ensures Found(k, cl, i, t)
  {
    assert k.queue[..i] == [k.queue[0]] + k.queue[1..][..i - 1];
    assert i < |k.queue| ==> k.queue[1..][i..] == k.queue[i + 1..];
  }

  lemma OneDropped(k: Link, cache: Cache, c: nat, cl: Client)
    requires Queued(k) && cl.phase.Calling? && k.queue != [] && !Carries(k, k.queue[0], cl.phase.id)
    ensures Queued(CloseAck(k.(queue := k.queue[1..]), k.queue[0]))
    ensures TakeAll(k, cache, c, cl) == TakeAll(CloseAck(k.(queue := k.queue[1..]), k.queue[0]), cache, c, cl)
  {
  }

  class RealClient {
    var stream: seq<Message>
    var queue: seq<nat>
    var lock: Option<nat>
    var nextId: int
    ghost var closedAcks: set<nat>
    ghost var panicked: bool
    ghost var lateStore: bool
    ghost var lateWrite: bool
    ghost var owner: map<int, Call>
    ghost const expired: set<nat>
    ghost const exited: bool
    ghost const loop: ReadLoop

    ghost function Value(): Link
      reads this
    {
      Link(stream, loop, queue, closedAcks, panicked, expired, lateStore, lateWrite, exited, lock, nextId, owner)
    }

    ghost constructor (k: Link)
      ensures Value() == k
    {
      stream, queue, lock, nextId := k.stream, k.queue, k.lock, k.nextId;
      closedAcks, panicked, owner := k.closedAcks, k.panicked, k.owner;
      lateStore, lateWrite := k.lateStore, k.lateWrite;
      expired, exited, loop := k.expired, k.exited, k.loop;
    }

    // Allot the next id, take the call lock and send the request.
    method BeginCall(c: nat, cl: Client, sent: bool, ghost cache: Cache) returns (id: int, next: Client)
      requires ServeEnabled(Value(), cache, c, cl, ServeStep.BeginCall(sent))
      modifies this
      ensures Value() == ServeLink(old(Value()), cache, c, cl, ServeStep.BeginCall(sent))
      ensures next == ServeClient(old(Value()), cache, c, cl, ServeStep.BeginCall(sent)) && id == old(nextId) + 1
    {
      nextId := nextId + 1;
      id := nextId;
      owner := owner[id := Call(c, |cl.received|, cl.phase.tools)];
      lock := if sent then Some(c) else None;
      next := cl.(phase := if sent then Calling(cl.phase.rid, cl.phase.tools, id) else Answering(cl.phase.rid, Local));
    }

    // Closing a closed channel panics.
    method CloseAckOf(p: nat)
      modifies this`closedAcks, this`panicked
      ensures Value() == CloseAck(old(Value()), p)
    {
      panicked, closedAcks := panicked || p in closedAcks, closedAcks + {p};
    }

    // The loop over the responses that are queued.
    method AwaitResponse(c: nat, caller: Client, ghost cache: Cache) returns (cl: Client)
      requires caller.phase.Calling? && Queued(Value())
      modifies this
      ensures Turn(Value(), cl) == TakeAll(old(Value()), cache, c, caller)
    {
      cl := caller;
      var id := caller.phase.id;
      while |queue| > 0
        invariant Queued(Value()) && cl == caller
        invariant TakeAll(Value(), cache, c, cl) == TakeAll(old(Value()), cache, c, caller)
        decreases |queue|
      {
        ghost var before := Value();
        var p := queue[0];
        queue := queue[1..];
        if stream[p].Response? && stream[p].id == id {
          lock := None;
          lateStore := lateStore || (p in expired && cl.phase.tools && stream[p].usable && stream[p].storable);
          lateWrite := lateWrite || p in expired;
          cl := cl.(phase := if cl.phase.tools && stream[p].usable then Caching(cl.phase.rid, p)
                             else Answering(cl.phase.rid, FromUpstream(p)));
          assert Value() == ServeLink(before, cache, c, caller, TakeResponse);
          return;
        }
        CloseAckOf(p);
        assert Value() == ServeLink(before, cache, c, caller, TakeResponse);
      }
    }

    // Written, or failed to be written: the read loop may go on.
    method Release(c: nat, cl: Client, ghost cache: Cache) returns (next: Client)
      requires cl.phase.Releasing?
      modifies this
      ensures Value() == ServeLink(old(Value()), cache, c, cl, ServeStep.Release)
      ensures next == ServeClient(old(Value()), cache, c, cl, ServeStep.Release)
    {
      CloseAckOf(cl.phase.pos);
      next := cl.(phase := if cl.phase.ended then Ended else Idle);
    }
  }
}
