/**
  The protocol delivers notifications through the hub of subscribers: the buffer of each client is
  a channel of the hub, and what its forwarder has sent on or holds is what was taken from it.
*/
module UpstreamHub {
  import opened Buffers
  import opened Options
  import opened Upstream
  import UpstreamSafety
  import S = Subscribers

  type Hub = S.Hub<nat>

  // The positions of the notifications, in order.
  function NotesRead(stream: seq<Message>): seq<nat> {
    if stream == [] then []
    else
      var n := |stream| - 1;
      NotesRead(stream[..n]) + if stream[n].Notification? then [n] else []
  }

  // The notification in the forwarder's hands.
  function InHand(f: Forwarder): seq<nat> {
    match f
    case Carrying(n) => [n]
    case Handled(n) => [n]
    case _ => []
  }

  // The client and its channel.
  ghost predicate Reflects(cl: Client, ch: S.Chan<nat>, sent: seq<nat>) {
    ch.buffer == cl.buffer && ch.taken == sent + InHand(cl.forwarder)
  }

  ghost predicate Unlisted(cl: Client, sent: seq<nat>) {
    !cl.subscribed && cl.buffer == [] && cl.forwarder == Detached && sent == []
  }

  // The channel of a client that has subscribed is listed until the client is gone.
  ghost predicate Linked(cl: Client, h: Hub, chan: map<nat, nat>, c: nat, sent: seq<nat>) {
    if c in chan then
      && chan[c] < |h.chans| && Reflects(cl, h.chans[chan[c]], sent)
      && (chan[c] in h.subs <==> cl.subscribed) && (!cl.subscribed ==> cl.phase == Gone)
    else Unlisted(cl, sent)
  }

  ghost predicate OneEach(chan: map<nat, nat>) { forall c, d :: c in chan && d in chan && chan[c] == chan[d] ==> c == d }

  // `chan` gives the channel of each client that has subscribed.
  ghost predicate Mirrors(s: State, h: Hub, chan: map<nat, nat>) {
    && h.log == NotesRead(s.link.stream) && OneEach(chan)
    && (forall c :: c in chan ==> c in s.clients && chan[c] < |h.chans|)
    && (forall c :: c in s.clients ==> Linked(s.clients[c], h, chan, c, UpstreamSafety.Notes(s.out, c)))
    && (forall c: nat :: c !in s.clients ==> UpstreamSafety.Notes(s.out, c) == [])
  }

  function Apply(h: Hub, op: Option<S.Op<nat>>): Hub { if op.None? then h else S.Step(h, op.value) }

  lemma NoteRead(s: State, m: Message)
    ensures NotesRead(s.link.stream + [m]) == NotesRead(s.link.stream) + if m.Notification? then [|s.link.stream|] else []
  {
    assert (s.link.stream + [m])[..|s.link.stream|] == s.link.stream;
  }

  // A broadcast reaches the channels of the subscribed clients.
  lemma BroadcastLinks(cl: Client, h: Hub, chan: map<nat, nat>, c: nat, sent: seq<nat>, n: nat)
    requires Linked(cl, h, chan, c, sent)
    ensures Linked(if cl.subscribed then cl.(buffer := Push(cl.buffer, n)) else cl, S.Step(h, S.Op<nat>.Broadcast(n)), chan, c, sent)
  {
  }

  lemma LoopMirrors(s: State, l: LoopStep, h: Hub, chan: map<nat, nat>) returns (op: Option<S.Op<nat>>)
    requires Mirrors(s, h, chan) && LoopEnabled(s.link, l)
    ensures Mirrors(Do(s, OfLoop(l)), Apply(h, op), chan)
  {
    hide Linked, OneEach;
    if l.ReadMessage? {
      NoteRead(s, l.m);
      if l.m.Notification? {
        var n := |s.link.stream|;
        var send: S.Op<nat> := S.Op<nat>.Broadcast(n);
        op := Some(send);
        forall c | c in s.clients
          ensures Linked(LoopClients(s, l)[c], S.Step(h, send), chan, c, UpstreamSafety.Notes(s.out, c))
        {
          BroadcastLinks(s.clients[c], h, chan, c, UpstreamSafety.Notes(s.out, c), n);
        }
      } else {
        op := None;
      }
    } else {
      op := None;
    }
  }

  // Another hub in which only the channel of c may differ.
  ghost predicate OnlyOf(h: Hub, h': Hub, chan: map<nat, nat>, c: nat) {
    && h'.log == h.log && |h.chans| <= |h'.chans|
    && forall i: nat :: i < |h.chans| && (c in chan ==> i != chan[c]) ==> h'.chans[i] == h.chans[i] && (i in h'.subs <==> i in h.subs)
  }

  lemma OneMoves(s: State, t: State, h: Hub, h': Hub, chan: map<nat, nat>, chan': map<nat, nat>, c: nat)
    requires Mirrors(s, h, chan) && OnlyOf(h, h', chan, c) && c in s.clients && c in t.clients
    requires t.link.stream == s.link.stream && t.clients == s.clients[c := t.clients[c]]
    requires forall d: nat :: d != c ==> UpstreamSafety.Notes(t.out, d) == UpstreamSafety.Notes(s.out, d)
    requires OneEach(chan') && (forall d :: d != c ==> (d in chan' <==> d in chan)) && (forall d :: d in chan && d != c ==> chan'[d] == chan[d])
    requires c in chan ==> c in chan' && chan'[c] == chan[c]
    requires c in chan' ==> chan'[c] < |h'.chans|
    requires Linked(t.clients[c], h', chan', c, UpstreamSafety.Notes(t.out, c))
    ensures Mirrors(t, h', chan')
  {
    forall d | d in t.clients ensures Linked(t.clients[d], h', chan', d, UpstreamSafety.Notes(t.out, d)) {
      if d != c {
        assert Linked(s.clients[d], h, chan, d, UpstreamSafety.Notes(s.out, d));
      }
    }
  }

  lemma Cleaned(cl: Client, after: Client, h: Hub, chan: map<nat, nat>, c: nat, sent: seq<nat>)
    requires Linked(cl, h, chan, c, sent) && S.HubInv(h) && c in chan && chan[c] in h.subs
    requires after == cl.(phase := Gone, subscribed := false)
    ensures var h' := S.Step(h, S.Unsubscribe(chan[c])); Linked(after, h', chan, c, sent) && OnlyOf(h, h', chan, c)
  {
    S.WithoutDistinct(h.subs, chan[c]);
  }

  lemma Subscribed(cl: Client, h: Hub, chan: map<nat, nat>, c: nat, sent: seq<nat>)
    requires Linked(cl, h, chan, c, sent) && c !in chan && S.HubInv(h)
    requires OneEach(chan) && forall d :: d in chan ==> chan[d] < |h.chans|
    ensures var h', chan' := S.Step(h, S.Op<nat>.Subscribe), chan[c := |h.chans|];
            Linked(cl.(subscribed := true), h', chan', c, sent) && OnlyOf(h, h', chan, c) && OneEach(chan') && |h.chans| < |h'.chans|
  {
    var h' := S.Step(h, S.Op<nat>.Subscribe);
    assert forall i :: i in h'.subs <==> i in h.subs || i == |h.chans|;
  }

  lemma ServerMirrors(s: State, c: nat, v: ServeStep, h: Hub, chan: map<nat, nat>) returns (op: Option<S.Op<nat>>, chan': map<nat, nat>)
    requires Mirrors(s, h, chan) && S.HubInv(h) && Enabled(s, OfServer(c, v))
    ensures Mirrors(Do(s, OfServer(c, v)), Apply(h, op), chan')
  {
    hide S.HubInv;
    op, chan' := None, chan;
    var t, cl := Do(s, OfServer(c, v)), s.clients[c];
    var sent := UpstreamSafety.Notes(s.out, c);
    UpstreamSafety.ServeKeepsNotes(s.link, s.cache, c, cl, v);
    forall d: nat ensures UpstreamSafety.Notes(t.out, d) == UpstreamSafety.Notes(s.out, d) {
      UpstreamSafety.NotesLog(s.out, ServeOut(c, cl, v), d);
    }
    assert Linked(cl, h, chan, c, sent);
    if v.Subscribe? {
      op, chan' := Some(S.Op<nat>.Subscribe), chan[c := |h.chans|];
      Subscribed(cl, h, chan, c, sent);
    } else if v.Cleanup? && c in chan && cl.subscribed {
      op := Some(S.Unsubscribe(chan[c]));
      Cleaned(cl, t.clients[c], h, chan, c, sent);
    }
    OneMoves(s, t, h, Apply(h, op), chan, chan', c);
  }

  lemma Taken(k: Link, c: nat, cl: Client, f: ForwardStep, h: Hub, chan: map<nat, nat>, sent: seq<nat>) returns (op: Option<S.Op<nat>>)
    requires ForwardEnabled(k, cl, f) && Linked(cl, h, chan, c, sent)
    ensures OnlyOf(h, Apply(h, op), chan, c)
    ensures Linked(ForwardClient(k, cl, f), Apply(h, op), chan, c,
                   if ForwardOut(c, cl, f).Some? then sent + UpstreamSafety.NoteOf(ForwardOut(c, cl, f).value, c) else sent)
  {
    op := if f.TakeNote? then Some(S.Receive(chan[c])) else None;
    if f.TakeNote? {
      assert h.chans[chan[c]].taken == sent + [] == sent;
    }
  }

  lemma ForwarderMirrors(s: State, c: nat, f: ForwardStep, h: Hub, chan: map<nat, nat>) returns (op: Option<S.Op<nat>>)
    requires Mirrors(s, h, chan) && Enabled(s, OfForwarder(c, f))
    ensures Mirrors(Do(s, OfForwarder(c, f)), Apply(h, op), chan)
  {
    var t, cl := Do(s, OfForwarder(c, f)), s.clients[c];
    forall d: nat
      ensures UpstreamSafety.Notes(t.out, d) == if d == c && ForwardOut(c, cl, f).Some?
              then UpstreamSafety.Notes(s.out, c) + UpstreamSafety.NoteOf(ForwardOut(c, cl, f).value, c) else UpstreamSafety.Notes(s.out, d)
    {
      UpstreamSafety.NotesLog(s.out, ForwardOut(c, cl, f), d);
    }
    assert Linked(cl, h, chan, c, UpstreamSafety.Notes(s.out, c));
    op := Taken(s.link, c, cl, f, h, chan, UpstreamSafety.Notes(s.out, c));
    OneMoves(s, t, h, Apply(h, op), chan, chan, c);
  }

  lemma StepMirrors(s: State, a: Step, h: Hub, chan: map<nat, nat>) returns (op: Option<S.Op<nat>>, chan': map<nat, nat>)
    requires Mirrors(s, h, chan) && S.HubInv(h) && Enabled(s, a)
    ensures Mirrors(Do(s, a), Apply(h, op), chan')
  {
    hide S.HubInv;
    chan' := chan;
    match a
    case OfLoop(l) => op := LoopMirrors(s, l, h, chan);
    case Connect(c) => op := None;
    case OfServer(c, v) => op, chan' := ServerMirrors(s, c, v, h, chan);
    case OfForwarder(c, f) => op := ForwarderMirrors(s, c, f, h, chan);
  }

  lemma {:induction false} RunMirrors(s: State, steps: seq<Step>, ops: seq<S.Op<nat>>, chan: map<nat, nat>)
    returns (all: seq<S.Op<nat>>, chan': map<nat, nat>)
    requires Exec(s, steps).Some? && Mirrors(s, S.Run(ops), chan)
    ensures Mirrors(Exec(s, steps).value, S.Run(all), chan')
    decreases |steps|
  {
    hide Mirrors;
    if steps == [] {
      all, chan' := ops, chan;
    } else {
      S.RunInv(ops);
      var op, next := StepMirrors(s, steps[0], S.Run(ops), chan);
      var more := if op.None? then ops else ops + [op.value];
      assert op.Some? ==> more[..|ops|] == ops;
      all, chan' := RunMirrors(Do(s, steps[0]), steps[1..], more, next);
    }
  }

  /**
    What a client has been sent is, in order, part of the notifications read while it was
    subscribed; if it was never offered one while 16 were buffered, only those on their way are missing.
  */
  lemma SentIsHeard(s: State, firstId: nat, c: nat) returns (ops: seq<S.Op<nat>>, ch: nat)
    requires UpstreamSafety.Reachable(s, firstId) && c in s.clients && s.clients[c].subscribed
    ensures S.Run(ops).log == NotesRead(s.link.stream) && ch < |S.Run(ops).chans|
    ensures var me, sent := S.Run(ops).chans[ch], UpstreamSafety.Notes(s.out, c) + InHand(s.clients[c].forwarder);
            && me.until == None && me.since <= |NotesRead(s.link.stream)|
            && S.Subsequence(sent, NotesRead(s.link.stream)[me.since..])
            && ((forall i :: 0 <= i < |me.offers| ==> !me.offers[i].full) ==>
                  sent + s.clients[c].buffer == NotesRead(s.link.stream)[me.since..])
  {
    var steps :| Exec(Init(firstId), steps) == Some(s);
    var start: seq<S.Op<nat>> := [];
    assert Mirrors(Init(firstId), S.Run(start), map[]);
    var chan;
    ops, chan := RunMirrors(Init(firstId), steps, start, map[]);
    assert Linked(s.clients[c], S.Run(ops), chan, c, UpstreamSafety.Notes(s.out, c));
    ch := chan[c];
    S.RunInv(ops);
    S.ReceivedInOrder(ops, ch);
  }
}
