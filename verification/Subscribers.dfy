/**
  The list of notification channels of one backend (`subscribe`, `unsubscribe` and
  `broadcastNotification`).  `Registry` is the list as the program keeps it, over channel
  objects; `Hub` is the same list on values, together with the history of each channel,
  over which the guarantees of every interleaving are stated.
*/
module Subscribers {
  import opened Buffers
  import opened Options
  import opened Sequences

  // s without the first occurrence of x.
  function Without<T(==)>(s: seq<T>, x: T): (r: seq<T>)
    ensures x !in s ==> r == s
  {
    if s == [] then [] else if s[0] == x then s[1..] else [s[0]] + Without(s[1..], x)
  }

  lemma {:induction false} WithoutAt<T>(s: seq<T>, i: nat)
    requires i < |s| && s[i] !in s[..i]
    ensures Without(s, s[i]) == s[..i] + s[i + 1..]
  {
    if i > 0 {
      assert s[0] in s[..i];
      assert s[1..][..i - 1] == s[..i][1..];
      WithoutAt(s[1..], i - 1);
      assert s[..i] == [s[0]] + s[1..][..i - 1] && s[1..][i..] == s[i + 1..];
    }
  }

  lemma WithoutDistinct<T>(s: seq<T>, x: T)
    requires Distinct(s)
    ensures Distinct(Without(s, x))
    ensures forall y :: y in Without(s, x) <==> y in s && y != x
  {
    if x in s {
      var i :| 0 <= i < |s| && s[i] == x;
      assert x !in s[..i];
      WithoutAt(s, i);
      var r := s[..i] + s[i + 1..];
      assert forall k :: 0 <= k < |r| ==> r[k] == if k < i then s[k] else s[k + 1];
      forall y | y in s && y != x ensures y in r {
        var k :| 0 <= k < |s| && s[k] == y;
        assert r[if k < i then k else k - 1] == y;
      }
    }
  }

  // ------------------------------------------------------------------ as the program has it

  class Channel<M> {
    var buffer: seq<M>
    var open: bool

    constructor ()
      ensures open && buffer == []
    {
      open, buffer := true, [];
    }

    // Sending on a closed channel panics: the callers have to rule it out.
    method Send(m: M)
      requires open
      modifies this
      ensures open && buffer == Push(old(buffer), m)
    {
      if |buffer| < CAPACITY {
        buffer := buffer + [m];
      }
    }

    // Closing a closed channel panics.
    method Close()
      requires open
      modifies this
      ensures !open && buffer == old(buffer)
    {
      open := false;
    }
  }

  class Registry<M> {
    var subs: seq<Channel<M>>

    ghost predicate Valid()
      reads this, subs
    {
      Distinct(subs) && forall i :: 0 <= i < |subs| ==> subs[i].open && |subs[i].buffer| <= CAPACITY
    }

    constructor ()
      ensures Valid() && subs == []
    {
      subs := [];
    }

    method Subscribe() returns (ch: Channel<M>)
      requires Valid()
      modifies this
      ensures Valid() && fresh(ch) && ch.open && ch.buffer == []
      ensures subs == old(subs) + [ch]
    {
      ch := new Channel<M>();
      subs := subs + [ch];
    }

    method Unsubscribe(ch: Channel<M>)
      requires Valid()
      modifies this, ch
      ensures Valid()
      ensures subs == Without(old(subs), ch)
      ensures ch in old(subs) ==> !ch.open && ch.buffer == old(ch.buffer)
      ensures ch !in old(subs) ==> unchanged(ch)
    {
      WithoutDistinct(subs, ch);
      for i := 0 to |subs|
        invariant subs == old(subs) && ch !in subs[..i] && unchanged(ch)
      {
        if subs[i] == ch {
          WithoutAt(subs, i);
          subs := subs[..i] + subs[i + 1..];
          ch.Close();
          return;
        }
      }
    }

    // Every listed channel is offered m once; no other channel is touched.
    method Broadcast(m: M)
      requires Valid()
      modifies subs
      ensures Valid() && subs == old(subs)
      ensures forall i :: 0 <= i < |subs| ==> subs[i].open && subs[i].buffer == Push(old(subs[i].buffer), m)
    {
      for i := 0 to |subs|
        invariant Valid() && subs == old(subs)
        invariant forall k :: 0 <= k < i ==> subs[k].buffer == Push(old(subs[k].buffer), m)
        invariant forall k :: i <= k < |subs| ==> subs[k].buffer == old(subs[k].buffer)
      {
        subs[i].Send(m);
      }
    }
  }

  // ----------------------------------------------------------------------- every history

  // One message offered to a channel, and whether the channel was full.
  datatype Offer<M> = Offer(msg: M, full: bool)

  // `since` and `until` delimit the broadcasts made while the channel was listed.
  datatype Chan<M> = Chan(open: bool, buffer: seq<M>, taken: seq<M>, offers: seq<Offer<M>>,
                          since: nat, until: Option<nat>)

  datatype Hub<M> = Hub(subs: seq<nat>, chans: seq<Chan<M>>, log: seq<M>, panicked: bool)

  datatype Op<M> = Subscribe | Unsubscribe(ch: nat) | Broadcast(m: M) | Receive(ch: nat)

  function Offered<M>(c: Chan<M>, m: M): Chan<M> {
    c.(buffer := Push(c.buffer, m), offers := c.offers + [Offer(m, |c.buffer| >= CAPACITY)])
  }

  function Step<M>(h: Hub<M>, op: Op<M>): Hub<M> {
    match op
    case Subscribe => h.(subs := h.subs + [|h.chans|], chans := h.chans + [Chan(true, [], [], [], |h.log|, None)])
    case Unsubscribe(ch) =>
      if ch !in h.subs || ch >= |h.chans| then h
      else h.(subs := Without(h.subs, ch),
              chans := h.chans[ch := h.chans[ch].(open := false, until := Some(|h.log|))],
              panicked := h.panicked || !h.chans[ch].open)
    case Broadcast(m) =>
      h.(log := h.log + [m],
         chans := seq(|h.chans|, i requires 0 <= i < |h.chans| => if i in h.subs then Offered(h.chans[i], m) else h.chans[i]),
         panicked := h.panicked || exists i | 0 <= i < |h.chans| :: i in h.subs && !h.chans[i].open)
    case Receive(ch) =>
      if ch < |h.chans| && h.chans[ch].buffer != [] then
        var c := h.chans[ch];
        h.(chans := h.chans[ch := c.(buffer := c.buffer[1..], taken := c.taken + [c.buffer[0]])])
      else h
  }

  function Run<M>(ops: seq<Op<M>>): Hub<M> {
    if ops == [] then Hub([], [], [], false) else Step(Run(ops[..|ops| - 1]), ops[|ops| - 1])
  }

  // The messages of the offers that found room.
  function Accepted<M>(offers: seq<Offer<M>>): seq<M> {
    if offers == [] then []
    else
      var last := offers[|offers| - 1];
      Accepted(offers[..|offers| - 1]) + if last.full then [] else [last.msg]
  }

  function Messages<M>(offers: seq<Offer<M>>): seq<M> {
    seq(|offers|, i requires 0 <= i < |offers| => offers[i].msg)
  }

  /**
    A channel was offered exactly the broadcasts made while it was listed, and the messages
    taken from it, followed by those it still buffers, are the offers that found room.
  */
  ghost predicate ChanInv<M>(c: Chan<M>, log: seq<M>) {
    && c.since <= |log| && |c.buffer| <= CAPACITY
    && (c.until.Some? ==> c.since <= c.until.value <= |log|)
    && c.open == c.until.None?
    && Messages(c.offers) == (if c.until.Some? then log[c.since..c.until.value] else log[c.since..])
    && c.taken + c.buffer == Accepted(c.offers)
  }

  ghost predicate HubInv<M>(h: Hub<M>) {
    && !h.panicked && Distinct(h.subs)
    && (forall i :: 0 <= i < |h.subs| ==> h.subs[i] < |h.chans|)
    && (forall ch: nat :: ch < |h.chans| ==> (h.chans[ch].open <==> ch in h.subs))
    && (forall ch: nat :: ch < |h.chans| ==> ChanInv(h.chans[ch], h.log))
  }

  lemma OfferedInv<M>(c: Chan<M>, log: seq<M>, m: M)
    requires ChanInv(c, log) && c.open
    ensures ChanInv(Offered(c, m), log + [m])
  {
    var o := Offer(m, |c.buffer| >= CAPACITY);
    assert (c.offers + [o])[..|c.offers|] == c.offers;
    assert Messages(c.offers + [o]) == Messages(c.offers) + [m];
    assert (log + [m])[c.since..] == log[c.since..] + [m];
    assert c.taken + (c.buffer + [m]) == (c.taken + c.buffer) + [m];
  }

  lemma UnlistedInv<M>(c: Chan<M>, log: seq<M>, m: M)
    requires ChanInv(c, log) && !c.open
    ensures ChanInv(c, log + [m])
  {
    assert (log + [m])[c.since..c.until.value] == log[c.since..c.until.value];
  }

  lemma SubscribeInv<M>(h: Hub<M>)
    requires HubInv(h)
    ensures HubInv(Step(h, Subscribe))
  {
    var newcomer: Chan<M> := Chan(true, [], [], [], |h.log|, None);
    assert ChanInv(newcomer, h.log);
  }

  lemma UnsubscribeInv<M>(h: Hub<M>, ch: nat)
    requires HubInv(h)
    ensures HubInv(Step(h, Unsubscribe(ch)))
  {
    WithoutDistinct(h.subs, ch);
    if ch in h.subs && ch < |h.chans| {
      var subs, c := Without(h.subs, ch), h.chans[ch];
      assert h.log[c.since..|h.log|] == h.log[c.since..];
      assert ChanInv(c.(open := false, until := Some(|h.log|)), h.log);
      assert forall i :: 0 <= i < |subs| ==> subs[i] in subs;
    }
  }

  lemma BroadcastInv<M>(h: Hub<M>, m: M)
    requires HubInv(h)
    ensures HubInv(Step(h, Broadcast(m)))
  {
    var t := Step(h, Broadcast(m));
    forall ch: nat | ch < |t.chans|
      ensures ChanInv(t.chans[ch], t.log) && (t.chans[ch].open <==> ch in h.subs)
    {
      if ch in h.subs {
        OfferedInv(h.chans[ch], h.log, m);
      } else {
        UnlistedInv(h.chans[ch], h.log, m);
      }
    }
  }

  lemma ReceiveInv<M>(h: Hub<M>, ch: nat)
    requires HubInv(h)
    ensures HubInv(Step(h, Receive(ch)))
  {
    if ch < |h.chans| && h.chans[ch].buffer != [] {
      var c := h.chans[ch];
      assert (c.taken + [c.buffer[0]]) + c.buffer[1..] == c.taken + c.buffer;
      assert ChanInv(c.(buffer := c.buffer[1..], taken := c.taken + [c.buffer[0]]), h.log);
    }
  }

  lemma StepInv<M>(h: Hub<M>, op: Op<M>)
    requires HubInv(h)
    ensures HubInv(Step(h, op))
  {
    match op
    case Subscribe => SubscribeInv(h);
    case Unsubscribe(ch) => UnsubscribeInv(h, ch);
    case Broadcast(m) => BroadcastInv(h, m);
    case Receive(ch) => ReceiveInv(h, ch);
  }

  /** Over any interleaving: no panic, the listed channels are the open ones, and every channel keeps its order. */
  lemma {:induction false} RunInv<M>(ops: seq<Op<M>>)
    ensures HubInv(Run(ops))
  {
    if ops != [] {
      RunInv(ops[..|ops| - 1]);
      StepInv(Run(ops[..|ops| - 1]), ops[|ops| - 1]);
    }
  }

  // ---------------------------------------------------------------- what a subscriber sees

  // s is t with some elements left out.
  predicate Subsequence<M(==)>(s: seq<M>, t: seq<M>) {
    s == [] || (t != [] && (Subsequence(s, t[..|t| - 1])
                            || (s[|s| - 1] == t[|t| - 1] && Subsequence(s[..|s| - 1], t[..|t| - 1]))))
  }

  lemma SubsequenceMore<M>(s: seq<M>, t: seq<M>, x: M)
    requires Subsequence(s, t)
    ensures Subsequence(s, t + [x]) && Subsequence(s + [x], t + [x])
  {
    assert (t + [x])[..|t|] == t && (s + [x])[..|s|] == s;
  }

  lemma OfferMore<M>(offers: seq<Offer<M>>)
    requires offers != []
    ensures var init, last := offers[..|offers| - 1], offers[|offers| - 1];
            Messages(offers) == Messages(init) + [last.msg] && (last.full ==> Accepted(offers) == Accepted(init))
            && (!last.full ==> Accepted(offers) == Accepted(init) + [last.msg])
  {
  }

  lemma {:induction false} AcceptedSubsequence<M>(offers: seq<Offer<M>>)
    ensures Subsequence(Accepted(offers), Messages(offers))
  {
    if offers == [] {
    } else {
      var init, last := offers[..|offers| - 1], offers[|offers| - 1];
      AcceptedSubsequence(init);
      OfferMore(offers);
      hide Subsequence, Accepted, Messages;
      SubsequenceMore(Accepted(init), Messages(init), last.msg);
    }
  }

  lemma {:induction false} AcceptedAll<M>(offers: seq<Offer<M>>)
    requires forall i :: 0 <= i < |offers| ==> !offers[i].full
    ensures Accepted(offers) == Messages(offers)
  {
    if offers == [] {
    } else {
      OfferMore(offers);
      AcceptedAll(offers[..|offers| - 1]);
    }
  }

  lemma {:induction false} PrefixSubsequence<M>(s: seq<M>, more: seq<M>, t: seq<M>)
    requires Subsequence(s + more, t)
    ensures Subsequence(s, t)
    decreases |t|, |more|
  {
    if s != [] && t != [] {
      var all := s + more;
      if Subsequence(all, t[..|t| - 1]) {
        PrefixSubsequence(s, more, t[..|t| - 1]);
      } else if more != [] {
        assert all[..|all| - 1] == s + more[..|more| - 1];
        PrefixSubsequence(s, more[..|more| - 1], t[..|t| - 1]);
      } else {
        assert all == s;
      }
    }
  }

  /**
    What a subscriber has received is, in order, part of the broadcasts made while it was
    listed; nothing is missing but the offers made to a full buffer and what is still buffered.
  */
  lemma ReceivedInOrder<M>(ops: seq<Op<M>>, ch: nat)
    requires ch < |Run(ops).chans|
    ensures var h, c := Run(ops), Run(ops).chans[ch];
            && c.since <= |h.log| && (c.until.Some? ==> c.since <= c.until.value <= |h.log|)
            && var heard := if c.until.Some? then h.log[c.since..c.until.value] else h.log[c.since..];
               && Subsequence(c.taken, heard)
               && ((forall i :: 0 <= i < |c.offers| ==> !c.offers[i].full) ==> c.taken + c.buffer == heard)
  {
    hide Subsequence, Accepted, Messages, Run;
    RunInv(ops);
    var c := Run(ops).chans[ch];
    AcceptedSubsequence(c.offers);
    PrefixSubsequence(c.taken, c.buffer, Messages(c.offers));
    if forall i :: 0 <= i < |c.offers| ==> !c.offers[i].full {
      AcceptedAll(c.offers);
    }
  }
}
