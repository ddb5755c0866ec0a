/**
  When `setup update` converges, on what a caller can see before the plan is applied: which
  rewritten entries of a file replace each other, and which references name a socket that the
  daemon configuration is not written for.  A home is given for each of the two ways to fail.
*/
module UpdateExact {
  import opened Options
  import opened Sequences
  import opened Text
  import opened Servers
  import opened Sorting
  import opened Update
  import opened UpdateConverges

  function After(e: Env, plan: Plan, s: RawServer): RawServer { Replace(e.w, s, e.binary, plan.socket, plan.ports) }

  // ------------------------------------------------------------ entries that replace each other

  // No later entry of the list has the name.
  predicate Last(servers: seq<RawServer>, j: nat) { forall l :: j < l < |servers| ==> j < |servers| && servers[l].name != servers[j].name }

  // Entry j of a rewritten file is t, and is there when the file is read again.
  predicate Stands(h: Home, plan: Plan, i: nat, j: nat, t: RawServer) {
    && i < |h.clients| && i < |plan.updates| && j < |plan.updates[i]| && plan.updates[i][j] == t
    && (h.clients[i].format.Json? ==> Last(plan.updates[i], j))
  }

  // Two entries of one name in a TOML file are merged; here there are none.
  predicate TomlDistinct(h: Home, plan: Plan) {
    forall i :: 0 <= i < |h.clients| && i < |plan.updates| && h.clients[i].format.Toml? ==> DistinctNames(plan.updates[i])
  }

  // Some entry that shows the key stands.
  ghost predicate Survives(e: Env, h: Home, plan: Plan, k: string) {
    exists i: nat, j: nat, t :: Stands(h, plan, i, j, t) && Shown(e.w, plan.socket, t) && Key(t.name) == k
  }

  lemma {:induction false} LastOf(servers: seq<RawServer>, name: string) returns (j: nat)
    requires HasName(servers, name)
    ensures j < |servers| && Last(servers, j) && servers[j] == LastNamed(servers, name)
  {
    var n := |servers| - 1;
    if servers[n].name == name {
      j := n;
    } else {
      j := LastOf(servers[..n], name);
    }
  }

  lemma OverwrittenStands(servers: seq<RawServer>, t: RawServer)
    ensures t in Overwritten(servers) <==> exists j: nat :: j < |servers| && Last(servers, j) && servers[j] == t
  {
    if t in Overwritten(servers) {
      var j := LastOf(servers, t.name);
    }
    if j: nat :| j < |servers| && Last(servers, j) && servers[j] == t {
      LastNamedAt(servers, j);
    }
  }

  lemma UntouchedFile(e: Env, h: Home, plan: Plan, i: nat)
    requires IsPlan(e, h, plan) && plan.blockers == [] && i < |h.clients| && h.clients[i].format.JsonWithComments?
    ensures i < |plan.updates| && plan.updates[i] == h.clients[i].servers
  {
    hide AnyRewritten;
    PlanUpdates(e, h, plan);
    NoBlockers(e, h, plan);
    CommentedUntouched(e.w, plan.ports, h.clients, i);
    Untouched(e, h.clients[i].servers, plan.socket, plan.ports);
  }

  lemma FileStands(e: Env, h: Home, plan: Plan, i: nat, t: RawServer)
    requires Facts(e.w) && IsPlan(e, h, plan) && plan.blockers == [] && TomlDistinct(h, plan) && i < |h.clients| == |plan.updates|
    ensures t in ReadBack(e.w, h.clients[i], plan.updates[i]) <==> exists j: nat :: Stands(h, plan, i, j, t)
  {
    var next := plan.updates[i];
    match h.clients[i].format
    case Json =>
      OverwrittenStands(next, t);
      if j: nat :| j < |next| && Last(next, j) && next[j] == t {
        assert Stands(h, plan, i, j, t);
      }
    case JsonWithComments =>
      UntouchedFile(e, h, plan, i);
      if t in next {
        var j :| 0 <= j < |next| && next[j] == t;
        assert Stands(h, plan, i, j, t);
      }
    case Toml =>
      DistinctReadsAs(next, e.w.merge(next));
      if t in next {
        var j :| 0 <= j < |next| && next[j] == t;
        assert Stands(h, plan, i, j, t);
      }
  }

  lemma RemainsIff(e: Env, h: Home, plan: Plan, t: RawServer)
    requires Facts(e.w) && IsPlan(e, h, plan) && plan.blockers == [] && TomlDistinct(h, plan) && |h.clients| == |plan.updates|
    ensures t in Remaining(e, h, plan) <==> exists i: nat, j: nat :: Stands(h, plan, i, j, t)
  {
    hide Facts, IsPlan, TomlDistinct, Stands, ReadBack;
    var after := WrittenClients(e.w, h.clients, plan.updates);
    AllServersIn(after, t);
    if t in Remaining(e, h, plan) {
      var i: nat :| i < |after| && t in after[i].servers;
      FileStands(e, h, plan, i, t);
    }
    if i: nat, j: nat :| Stands(h, plan, i, j, t) {
      assert i < |after| by { StandsIn(h, plan, i, j, t); }
      FileStands(e, h, plan, i, t);
      assert t in after[i].servers;
    }
  }

  lemma StandsIn(h: Home, plan: Plan, i: nat, j: nat, t: RawServer)
    requires Stands(h, plan, i, j, t)
    ensures i < |h.clients| && i < |plan.updates| && j < |plan.updates[i]| && plan.updates[i][j] == t
  {
  }

  /** Each key that keeps a wrapper stays shown exactly if an entry that shows it is not replaced by a later one. */
  lemma ShownIffSurvives(e: Env, h: Home, plan: Plan)
    requires Facts(e.w) && IsPlan(e, h, plan) && plan.blockers == [] && TomlDistinct(h, plan) && |h.clients| == |plan.updates|
    ensures StaysShown(e, h, plan) <==> forall k :: Kept(e, h, plan, k) ==> Survives(e, h, plan, k)
  {
    hide Facts, IsPlan, TomlDistinct, Remaining, Shown, Key, Kept, Stands;
    forall k ensures Shows(e.w, plan.socket, Remaining(e, h, plan), k) <==> Survives(e, h, plan, k) {
      if s :| s in Remaining(e, h, plan) && Shown(e.w, plan.socket, s) && Key(s.name) == k {
        RemainsIff(e, h, plan, s);
        var i: nat, j: nat :| Stands(h, plan, i, j, s);
      }
      if i: nat, j: nat, t :| Stands(h, plan, i, j, t) && Shown(e.w, plan.socket, t) && Key(t.name) == k {
        RemainsIff(e, h, plan, t);
      }
    }
  }

  // ------------------------------------------------------------------- references to other sockets

  // A reference by command line that names the one socket and not the other.
  predicate OnlyUnder(w: World, s: RawServer, socket: string, other: string) {
    && EffectiveKind(s) == "stdio" && w.base(s.command) != WRAPPER && s.args != [] && s.args[0] == "client" && "--name" in s.args
    && SocketArg(s.args, socket) && !SocketArg(s.args, other)
  }

  // It is left as it is, and not recognised under the other socket.
  predicate LeftAlone(w: World, ports: map<string, nat>, s: RawServer, socket: string, other: string) {
    OnlyUnder(w, s, socket, other) && !IsHTTPRef(w, s) && !(s.url != "" && Key(s.name) in ports)
  }

  /** A server that is shown stops being shown exactly if it is such a reference and has no stored credential. */
  lemma StopsIff(e: Env, plan: Plan, s: RawServer, socket: string)
    ensures Shown(e.w, socket, s) && !Shown(e.w, plan.socket, After(e, plan, s))
       <==> LeftAlone(e.w, plan.ports, s, socket, plan.socket) && !CanWrap(e.w, s)
  {
    hide NodeRepl, OAuthManaged, IsHTTPRef, Local, ExplicitAuth, Key;
    if Rewrites(e.w, plan.ports, s) {
      RewrittenIsRef(e.w, s, e.binary, plan.socket, plan.ports);
    }
  }

  /** A server that remains is to be wrapped exactly if it was so before, or is such a reference with a stored credential. */
  lemma WrapsIff(e: Env, plan: Plan, s: RawServer, socket: string)
    requires socket != ""
    ensures ToWrap(e.w, plan.socket, After(e, plan, s)) ==>
              ToWrap(e.w, socket, s) || (LeftAlone(e.w, plan.ports, s, socket, plan.socket) && CanWrap(e.w, s))
    ensures LeftAlone(e.w, plan.ports, s, socket, plan.socket) && CanWrap(e.w, s) ==> ToWrap(e.w, plan.socket, After(e, plan, s))
  {
    hide NodeRepl, OAuthManaged, IsHTTPRef, Local, ExplicitAuth, Key;
    if Rewrites(e.w, plan.ports, s) {
      RewrittenIsRef(e.w, s, e.binary, plan.socket, plan.ports);
    }
  }

  lemma AfterKey(e: Env, plan: Plan, s: RawServer)
    ensures Key(After(e, plan, s).name) == Key(s.name)
  {
    hide Rewrites;
    RewrittenIsRef(e.w, s, e.binary, plan.socket, plan.ports);
  }

  ghost predicate UpdatesDistinct(plan: Plan) { forall i :: 0 <= i < |plan.updates| ==> DistinctNames(plan.updates[i]) }

  // The server shows its key after it has been rewritten.
  ghost predicate ShownAfter(e: Env, h: Home, plan: Plan, k: string) {
    exists s :: s in AllServers(h.clients) && Shown(e.w, plan.socket, After(e, plan, s)) && Key(s.name) == k
  }

  // A server of the home and the entry it is written as.
  lemma EntryOf(e: Env, h: Home, plan: Plan, s: RawServer) returns (i: nat, j: nat)
    requires IsPlan(e, h, plan) && s in AllServers(h.clients)
    ensures |h.clients| == |plan.updates| && i < |h.clients| && j < |plan.updates[i]| && plan.updates[i][j] == After(e, plan, s)
  {
    hide Replace, IsPlan;
    PlanUpdates(e, h, plan);
    AllServersIn(h.clients, s);
    i :| 0 <= i < |h.clients| && s in h.clients[i].servers;
    j :| 0 <= j < |h.clients[i].servers| && h.clients[i].servers[j] == s;
  }

  lemma ServerOf(e: Env, h: Home, plan: Plan, i: nat, j: nat) returns (s: RawServer)
    requires IsPlan(e, h, plan) && |h.clients| == |plan.updates| && i < |h.clients| && j < |plan.updates[i]|
    ensures s in AllServers(h.clients) && plan.updates[i][j] == After(e, plan, s)
  {
    hide Replace, IsPlan;
    PlanUpdates(e, h, plan);
    s := h.clients[i].servers[j];
    AllServersIn(h.clients, s);
  }

  lemma DistinctStands(h: Home, plan: Plan, i: nat, j: nat)
    requires UpdatesDistinct(plan) && i < |h.clients| == |plan.updates| && j < |plan.updates[i]|
    ensures Stands(h, plan, i, j, plan.updates[i][j])
  {
  }

  lemma SurvivesIffShown(e: Env, h: Home, plan: Plan, k: string)
    requires IsPlan(e, h, plan) && UpdatesDistinct(plan)
    ensures Survives(e, h, plan, k) <==> ShownAfter(e, h, plan, k)
  {
    hide Replace, IsPlan, UpdatesDistinct, Shown, Key, Stands;
    PlanUpdates(e, h, plan);
    if i: nat, j: nat, t :| Stands(h, plan, i, j, t) && Shown(e.w, plan.socket, t) && Key(t.name) == k {
      StandsIn(h, plan, i, j, t);
      var s := ServerOf(e, h, plan, i, j);
      AfterKey(e, plan, s);
    }
    if s :| s in AllServers(h.clients) && Shown(e.w, plan.socket, After(e, plan, s)) && Key(s.name) == k {
      var i, j := EntryOf(e, h, plan, s);
      DistinctStands(h, plan, i, j);
      AfterKey(e, plan, s);
    }
  }

  // A key that keeps a wrapper is shown before.
  lemma KeptPresent(e: Env, h: Home, plan: Plan, k: string)
    requires HomeOk(h) && IsPlan(e, h, plan) && Kept(e, h, plan, k)
    ensures Shows(e.w, LooseSocket(e, h), AllServers(h.clients), k)
  {
    hide Shown, Key, IsPlan, ScanServers, NewPlan, BuiltFrom, OwnPath;
    ScanFinds(e.w, LooseSocket(e, h), AllServers(h.clients), k);
    if a :| a in plan.added && Key(a.content.name) == k {
      AddedFrom(e, h, plan, a);
      CurrentNamed(e, h, k);
    }
  }

  // Nothing is lost to the other socket: a key shown by a reference that only the loose reading recognises has another server to show it.
  ghost predicate OthersShow(e: Env, h: Home, plan: Plan) {
    forall s :: s in AllServers(h.clients) && LeftAlone(e.w, plan.ports, s, LooseSocket(e, h), plan.socket) && !CanWrap(e.w, s) ==>
      (Kept(e, h, plan, Key(s.name)) ==> ShownAfter(e, h, plan, Key(s.name)))
  }

  // Such a reference that a stored credential lets be wrapped has a wrapper.
  ghost predicate OthersWrapped(e: Env, h: Home, plan: Plan) {
    forall s :: s in AllServers(h.clients) && LeftAlone(e.w, plan.ports, s, LooseSocket(e, h), plan.socket) && CanWrap(e.w, s) ==>
      Kept(e, h, plan, Key(s.name))
  }

  lemma ShownIffOthersShow(e: Env, h: Home, plan: Plan, h': Home)
    requires Applied(e, h, plan, h') && UpdatesDistinct(plan)
    ensures StaysShown(e, h, plan) <==> OthersShow(e, h, plan)
  {
    hide Facts, IsPlan, HomeOk, UpdatesDistinct, Shown, Key, Kept, After, LeftAlone, CanWrap, Apply, FreshPaths, ShownAfter, Survives, Remaining,
         LooseSocket;
    assert TomlDistinct(h, plan) by { DistinctToml(h, plan); }
    ShownIffSurvives(e, h, plan);
    forall k ensures Survives(e, h, plan, k) <==> ShownAfter(e, h, plan, k) {
      SurvivesIffShown(e, h, plan, k);
    }
    if OthersShow(e, h, plan) {
      forall k | Kept(e, h, plan, k) ensures ShownAfter(e, h, plan, k) {
        KeptShown(e, h, plan, k);
      }
    }
  }

  lemma KeptShown(e: Env, h: Home, plan: Plan, k: string)
    requires HomeOk(h) && IsPlan(e, h, plan) && OthersShow(e, h, plan) && Kept(e, h, plan, k)
    ensures ShownAfter(e, h, plan, k)
  {
    hide IsPlan, HomeOk, Shown, Key, Kept, After, LeftAlone, CanWrap, LooseSocket;
    KeptPresent(e, h, plan, k);
    var s :| s in AllServers(h.clients) && Shown(e.w, LooseSocket(e, h), s) && Key(s.name) == k;
    StopsIff(e, plan, s, LooseSocket(e, h));
  }

  lemma DistinctToml(h: Home, plan: Plan)
    requires UpdatesDistinct(plan)
    ensures TomlDistinct(h, plan)
  {
  }

  // A remaining entry to be wrapped has a wrapper, if it was to be wrapped before or the condition on references holds.
  lemma WrappedIfOthersWrapped(e: Env, h: Home, plan: Plan, h': Home)
    requires Applied(e, h, plan, h') && TomlDistinct(h, plan) && OthersWrapped(e, h, plan)
    ensures StaysWrapped(e, h, plan)
  {
    hide Facts, IsPlan, HomeOk, TomlDistinct, ToWrap, Key, Kept, After, LeftAlone, CanWrap, Apply, FreshPaths, Remaining, Stands, LooseSocket;
    forall k | WrapsKey(e.w, plan.socket, Remaining(e, h, plan), k) ensures Kept(e, h, plan, k) {
      var t :| t in Remaining(e, h, plan) && ToWrap(e.w, plan.socket, t) && Key(t.name) == k;
      RemainsIff(e, h, plan, t);
      var i: nat, j: nat :| Stands(h, plan, i, j, t);
      StandsIn(h, plan, i, j, t);
      var s := ServerOf(e, h, plan, i, j);
      AfterKey(e, plan, s);
      LooseNamed(e, h);
      WrapsIff(e, plan, s, LooseSocket(e, h));
      if ToWrap(e.w, LooseSocket(e, h), s) {
        NewIsKept(e, h, plan, s);
      }
    }
  }

  lemma LooseNamed(e: Env, h: Home)
    requires e.defaultSocket != ""
    ensures LooseSocket(e, h) != ""
  {
  }

  lemma NewIsKept(e: Env, h: Home, plan: Plan, s: RawServer)
    requires HomeOk(h) && IsPlan(e, h, plan) && s in AllServers(h.clients) && ToWrap(e.w, LooseSocket(e, h), s)
    ensures Kept(e, h, plan, Key(s.name))
  {
    hide IsPlan, ToWrap, Key, ScanServers, LooseSocket, Keys;
    var k := Key(s.name);
    ScanFinds(e.w, LooseSocket(e, h), AllServers(h.clients), k);
    assert WrapsKey(e.w, LooseSocket(e, h), AllServers(h.clients), k);
    CurrentNamed(e, h, k);
    if k !in Keys(plan.existing) {
      AddedFor(e, h, plan, k);
    }
  }

  lemma WrappedIffOthersWrapped(e: Env, h: Home, plan: Plan, h': Home)
    requires Applied(e, h, plan, h') && UpdatesDistinct(plan)
    ensures StaysWrapped(e, h, plan) <==> OthersWrapped(e, h, plan)
  {
    hide Facts, IsPlan, HomeOk, UpdatesDistinct, ToWrap, Key, Kept, After, LeftAlone, CanWrap, Apply, FreshPaths, Remaining, LooseSocket;
    assert TomlDistinct(h, plan) by { DistinctToml(h, plan); }
    if OthersWrapped(e, h, plan) {
      WrappedIfOthersWrapped(e, h, plan, h');
    }
    if StaysWrapped(e, h, plan) {
      forall s | s in AllServers(h.clients) && LeftAlone(e.w, plan.ports, s, LooseSocket(e, h), plan.socket) && CanWrap(e.w, s)
        ensures Kept(e, h, plan, Key(s.name))
      {
        LooseNamed(e, h);
        WrapsIff(e, plan, s, LooseSocket(e, h));
        var i, j := EntryOf(e, h, plan, s);
        DistinctStands(h, plan, i, j);
        RemainsIff(e, h, plan, After(e, plan, s));
        AfterKey(e, plan, s);
      }
    }
  }

  // ------------------------------------------------------------------------- the two conditions

  /**
    If no two servers of a file are rewritten to one name, the second run removes nothing exactly if
    every key that a reference to another socket keeps is also shown by a server after rewriting,
    and adds nothing exactly if every such reference with a stored credential has a wrapper.
  */
  lemma ConvergesIffDistinct(e: Env, h: Home, plan: Plan, h': Home)
    requires Applied(e, h, plan, h') && UpdatesDistinct(plan) && AllAddedLoad(plan)
    ensures NewPlan(e, h').Some?
    ensures NewPlan(e, h').value.removed == [] <==> OthersShow(e, h, plan)
    ensures NewPlan(e, h').value.added == [] <==> OthersWrapped(e, h, plan)
  {
    hide Applied, UpdatesDistinct, AllAddedLoad, NewPlan, OthersShow, OthersWrapped, StaysShown, StaysWrapped;
    UpdateConverges.UpdateConverges(e, h, plan, h');
    UpdatesMatch(e, h, plan, h');
    ShownIffOthersShow(e, h, plan, h');
    WrappedIffOthersWrapped(e, h, plan, h');
  }

  /**
    If no TOML file gets two servers of one name, the second run removes nothing exactly if for
    every key that keeps a wrapper an entry that shows it is not replaced by a later entry of its
    name, and adds nothing if references to another socket have wrappers; for one, if there are
    none because the two readings of the daemon's socket agree.
  */
  lemma ConvergesIffSurvives(e: Env, h: Home, plan: Plan, h': Home)
    requires Applied(e, h, plan, h') && TomlDistinct(h, plan) && AllAddedLoad(plan)
    ensures NewPlan(e, h').Some?
    ensures NewPlan(e, h').value.removed == [] <==> forall k :: Kept(e, h, plan, k) ==> Survives(e, h, plan, k)
    ensures OthersWrapped(e, h, plan) ==> NewPlan(e, h').value.added == []
    ensures LooseSocket(e, h) == StrictSocket(e, h) ==> OthersWrapped(e, h, plan) && OthersShow(e, h, plan)
  {
    UpdatesMatch(e, h, plan, h');
    PlanUpdates(e, h, plan);
    assert LooseSocket(e, h) == StrictSocket(e, h) ==> OthersWrapped(e, h, plan) && OthersShow(e, h, plan);
    hide AllAddedLoad, NewPlan, OthersWrapped, OthersShow, StaysShown, StaysWrapped, Survives, Kept, TomlDistinct, IsPlan, HomeOk, Facts, FreshPaths;
    UpdateConverges.UpdateConverges(e, h, plan, h');
    ShownIffSurvives(e, h, plan);
    if OthersWrapped(e, h, plan) {
      WrappedIfOthersWrapped(e, h, plan, h');
    }
  }
}
