/**
  MCP servers as the configuration of a client lists them: which ones can be put behind the
  wrapper, which ones already point to it, and how an entry is rewritten to point to it.
*/
module Servers {
  import opened Options
  import opened Text
  import opened Decimal
  import opened Sorting

  datatype RawServer = RawServer(name: string, kind: string, auth: string, oauthClientID: string, oauthResource: string,
                           oauthScopes: seq<string>, command: string, args: seq<string>, env: map<string, string>,
                           url: string, headers: map<string, string>)

  // What the program asks of libraries and of its surroundings.
  datatype World = World(
    parseUrl: string -> Option<(string, string)>,  // scheme and host name
    base: string -> string,                        // last element of a path
    fields: string -> seq<string>,                 // text split at white space
    credential: RawServer -> bool,                 // an unexpired OAuth credential bound to the server is stored
    bindable: nat -> bool,                         // the local port can be listened on
    merge: seq<RawServer> -> seq<RawServer>)       // what servers written to a TOML file are read as

  ghost predicate Facts(w: World) {
    && (forall s: string, i :: 0 <= i < |w.fields(s)| ==> w.fields(s)[i] != "")
    && (forall s: seq<RawServer> :: ReadsAs(s, w.merge(s)))
    && w.parseUrl("") != Some(("http", "127.0.0.1"))
  }

  predicate HasName(servers: seq<RawServer>, name: string) { exists i :: 0 <= i < |servers| && servers[i].name == name }

  // No other server of the list has the name.
  predicate Alone(servers: seq<RawServer>, i: nat) {
    i < |servers| && forall j :: 0 <= j < |servers| && j != i ==> servers[j].name != servers[i].name
  }

  // Writing keeps names, and servers whose name is theirs alone.
  ghost predicate ReadsAs(written: seq<RawServer>, found: seq<RawServer>) {
    && (forall name: string :: HasName(written, name) <==> HasName(found, name))
    && (forall i: nat, t :: Alone(written, i) && t in found && t.name == written[i].name ==> t == written[i])
  }

  predicate DistinctNames(servers: seq<RawServer>) {
    forall i, j :: 0 <= i < j < |servers| ==> servers[i].name != servers[j].name
  }

  ghost predicate SameServers(a: seq<RawServer>, b: seq<RawServer>) { forall s: RawServer :: s in a <==> s in b }

  lemma DistinctReadsAs(written: seq<RawServer>, found: seq<RawServer>)
    requires ReadsAs(written, found) && DistinctNames(written)
    ensures SameServers(found, written)
  {
    forall i: nat | i < |written| ensures Alone(written, i) && written[i] in found {
      assert HasName(written, written[i].name);
      var j :| 0 <= j < |found| && found[j].name == written[i].name;
      assert found[j] in found;
    }
    forall t | t in found ensures t in written {
      var j :| 0 <= j < |found| && found[j] == t;
      assert HasName(found, t.name);
      var i: nat :| i < |written| && written[i].name == t.name;
      assert Alone(written, i);
    }
  }

  // --------------------------------------------------------------- servers in a JSON object

  // The last server of the name: writing a JSON object, later entries replace earlier ones.
  function LastNamed(servers: seq<RawServer>, name: string): (s: RawServer)
    requires HasName(servers, name)
    ensures s.name == name && s in servers
  {
    if servers[|servers| - 1].name == name then servers[|servers| - 1] else LastNamed(servers[..|servers| - 1], name)
  }

  lemma {:induction false} LastNamedAt(servers: seq<RawServer>, i: nat)
    requires i < |servers| && forall j :: i < j < |servers| ==> servers[j].name != servers[i].name
    ensures HasName(servers, servers[i].name) && LastNamed(servers, servers[i].name) == servers[i]
    decreases |servers|
  {
    var n := |servers| - 1;
    if i < n {
      LastNamedAt(servers[..n], i);
    }
  }

  ghost function NamesOf(servers: seq<RawServer>): set<string> { set i | 0 <= i < |servers| :: servers[i].name }

  // The object is read back in the order of its names.
  ghost function Overwritten(servers: seq<RawServer>): (r: seq<RawServer>)
    ensures forall s: RawServer :: s in r <==> HasName(servers, s.name) && s == LastNamed(servers, s.name)
  {
    var names := Ascending(NamesOf(servers));
    assert forall name :: name in names <==> HasName(servers, name);
    var r := seq(|names|, i requires 0 <= i < |names| => assert names[i] in names; LastNamed(servers, names[i]));
    assert forall s: RawServer :: HasName(servers, s.name) && s == LastNamed(servers, s.name) ==> s in r by {
      forall s: RawServer | HasName(servers, s.name) && s == LastNamed(servers, s.name) ensures s in r {
        assert s.name in names;
        var i :| 0 <= i < |names| && names[i] == s.name;
        assert r[i] == s;
      }
    }
    r
  }

  lemma OverwrittenReads(servers: seq<RawServer>)
    ensures ReadsAs(servers, Overwritten(servers))
  {
    var r := Overwritten(servers);
    forall name: string ensures HasName(servers, name) <==> HasName(r, name) {
      if HasName(servers, name) {
        assert LastNamed(servers, name) in r;
      }
      if i :| 0 <= i < |r| && r[i].name == name {
        assert r[i] in r;
      }
    }
    forall i: nat, t | Alone(servers, i) && t in r && t.name == servers[i].name ensures t == servers[i] {
      LastNamedAt(servers, i);
    }
  }

  const WRAPPER := "lazy-mcp-wrapper"
  const LOCAL_PREFIX := "http://127.0.0.1:"

  // ------------------------------------------------------------------------------ names

  function CanonicalName(name: string): string {
    var trimmed := TrimSpace(name);
    if EqualFold(trimmed, "playwright") then "playwright" else trimmed
  }

  // Servers are told apart by this key.
  function Key(name: string): string { Lower(CanonicalName(name)) }

  lemma CanonicalTwice(name: string)
    ensures CanonicalName(CanonicalName(name)) == CanonicalName(name)
  {
    var lead, tail := TrimSplit(name, IsSpace);
    TrimFixed(TrimSpace(name), IsSpace);
    TrimFixed("playwright", IsSpace);
  }

  // ------------------------------------------------------------------- what kind of server

  function DefaultKind(kind: string): string { if kind == "" then "stdio" else kind }

  function EffectiveKind(s: RawServer): string {
    if s.kind == "" && s.url != "" then "streamable-http" else DefaultKind(s.kind)
  }

  predicate HostIs(w: World, url: string, host: string) {
    var parsed := w.parseUrl(TrimSpace(url));
    parsed.Some? && EqualFold(parsed.value.1, host)
  }

  predicate ChatGPTManaged(s: RawServer) { TrimSpace(s.url) != "" && EqualFold(s.auth, "chatgpt") }

  predicate OAuthManaged(w: World, s: RawServer) {
    TrimSpace(s.url) != "" && !ChatGPTManaged(s) && (EqualFold(s.auth, "oauth") || HostIs(w, s.url, "mcp.figma.com"))
  }

  predicate Local(w: World, s: RawServer) {
    var parsed := w.parseUrl(TrimSpace(s.url));
    parsed.Some? && (parsed.value.1 == "127.0.0.1" || parsed.value.1 == "::1" || EqualFold(parsed.value.1, "localhost"))
  }

  predicate HasPrefix(s: string, p: string) { |p| <= |s| && s[..|p|] == p }

  predicate Contains(s: string, t: string) { exists i :: 0 <= i <= |s| && HasPrefix(s[i..], t) }

  predicate AuthHeader(key: string) {
    key == "authorization" || key == "x-api-key" || Contains(key, "token") || Contains(key, "api-key")
  }

  predicate ExplicitAuth(s: RawServer) { exists k | k in s.headers :: TrimSpace(s.headers[k]) != "" && AuthHeader(Lower(k)) }

  // A reference to the local HTTP endpoint of a wrapper.
  predicate IsHTTPRef(w: World, s: RawServer) {
    var url := TrimSpace(s.url);
    || HasPrefix(url, LOCAL_PREFIX)
    || (w.parseUrl(url).Some? && w.parseUrl(url).value == ("http", "127.0.0.1"))
  }

  predicate SocketArg(args: seq<string>, socket: string) {
    exists i :: 0 <= i < |args| - 1 && args[i] == "--socket" && (socket == "" || args[i + 1] == socket)
  }

  // A reference to the wrapper by command line.
  predicate IsCommandRef(w: World, s: RawServer, socket: string) {
    && EffectiveKind(s) == "stdio"
    && (|| w.base(s.command) == WRAPPER
        || (s.args != [] && s.args[0] == "client" && SocketArg(s.args, socket) && "--name" in s.args))
  }

  predicate IsRef(w: World, s: RawServer, socket: string) { IsCommandRef(w, s, socket) || IsHTTPRef(w, s) }

  predicate NodeRepl(w: World, s: RawServer) {
    EqualFold(s.name, "node_repl") || Contains(Lower(w.base(s.command)), "node_repl")
  }

  predicate Wrappable(w: World, s: RawServer) {
    if NodeRepl(w, s) || OAuthManaged(w, s) then false
    else
      var kind := EffectiveKind(s);
      if kind == "stdio" then
        s.command != "" && w.base(s.command) != WRAPPER && "client" !in s.args && "--config" !in s.args
      else if kind == "http" || kind == "streamable-http" then
        s.url != "" && !IsHTTPRef(w, s) && (Local(w, s) || EqualFold(s.auth, "none") || ExplicitAuth(s))
      else false
  }

  predicate CanWrap(w: World, s: RawServer) { Wrappable(w, s) || (OAuthManaged(w, s) && w.credential(s)) }

  // The loop over the arguments, with its two flags.
  method CheckCommandRef(w: World, s: RawServer, socket: string) returns (r: bool)
    ensures r == IsCommandRef(w, s, socket)
  {
    if EffectiveKind(s) != "stdio" {
      return false;
    }
    if w.base(s.command) == WRAPPER {
      return true;
    }
    if |s.args| == 0 || s.args[0] != "client" {
      return false;
    }
    var hasSocket, hasName := false, false;
    for i := 0 to |s.args|
      invariant hasSocket == SocketArg(s.args[..if i < |s.args| then i + 1 else i], socket)
      invariant hasName == ("--name" in s.args[..i])
    {
      if s.args[i] == "--socket" {
        if i + 1 < |s.args| && (socket == "" || s.args[i + 1] == socket) {
          hasSocket := true;
        }
      } else if s.args[i] == "--name" {
        hasName := true;
      }
    }
    return hasSocket && hasName;
  }

  // ---------------------------------------------------------------------------- rewriting

  function LocalAddress(port: nat): string { LOCAL_PREFIX + Numeral(port) }

  predicate Rewrites(w: World, ports: map<string, nat>, s: RawServer) {
    Wrappable(w, s) || (s.url != "" && Key(s.name) in ports)
  }

  function Rewrite(s: RawServer, binary: string, socket: string, ports: map<string, nat>): RawServer {
    var name := CanonicalName(s.name);
    if s.url != "" then
      RawServer(name, EffectiveKind(s), "", "", "", [], "", [], map[], LocalAddress(if Lower(name) in ports then ports[Lower(name)] else 0), map[])
    else
      s.(name := name, kind := "stdio", command := binary, args := ["client", "--socket", socket, "--name", name], env := map[])
  }

  function Replace(w: World, s: RawServer, binary: string, socket: string, ports: map<string, nat>): RawServer {
    if Rewrites(w, ports, s) then Rewrite(s, binary, socket, ports) else s
  }

  function ReplaceAll(w: World, servers: seq<RawServer>, binary: string, socket: string, ports: map<string, nat>): (r: seq<RawServer>)
    ensures |r| == |servers| && forall i :: 0 <= i < |r| ==> r[i] == Replace(w, servers[i], binary, socket, ports)
  {
    seq(|servers|, i requires 0 <= i < |servers| => Replace(w, servers[i], binary, socket, ports))
  }

  method ReplaceWithWrapperRefs(w: World, servers: seq<RawServer>, binary: string, socket: string, ports: map<string, nat>)
    returns (out: seq<RawServer>)
    ensures out == ReplaceAll(w, servers, binary, socket, ports)
  {
    out := [];
    for i := 0 to |servers|
      invariant |out| == i && forall k :: 0 <= k < i ==> out[k] == Replace(w, servers[k], binary, socket, ports)
    {
      var next, name := servers[i], CanonicalName(servers[i].name);
      if Wrappable(w, next) || (next.url != "" && Lower(name) in ports) {
        next := next.(name := name, env := map[]);
        if next.url != "" {
          next := next.(kind := EffectiveKind(servers[i]), auth := "", oauthClientID := "", oauthResource := "", oauthScopes := [],
                        url := LocalAddress(if Lower(name) in ports then ports[Lower(name)] else 0),
                        command := "", args := [], headers := map[]);
        } else {
          next := next.(kind := "stdio", command := binary, args := ["client", "--socket", socket, "--name", name]);
        }
      }
      out := out + [next];
    }
  }

  lemma LocalAddressIsRef(w: World, s: RawServer, port: nat)
    requires s.url == LocalAddress(port)
    ensures IsHTTPRef(w, s)
  {
    var n := Numeral(port);
    assert !IsSpace(s.url[0]) && s.url[|s.url| - 1] == n[|n| - 1];
    TrimFixed(s.url, IsSpace);
    assert s.url[..|LOCAL_PREFIX|] == LOCAL_PREFIX;
  }

  lemma RewrittenNamed(s: RawServer, binary: string, socket: string, ports: map<string, nat>)
    ensures Rewrite(s, binary, socket, ports).name == CanonicalName(s.name) == CanonicalName(CanonicalName(s.name))
  {
    CanonicalTwice(s.name);
  }

  /** A rewritten server keeps its key and is recognised as a reference to the wrapper. */
  lemma RewrittenIsRef(w: World, s: RawServer, binary: string, socket: string, ports: map<string, nat>)
    ensures Key(Rewrite(s, binary, socket, ports).name) == Key(s.name)
    ensures IsRef(w, Rewrite(s, binary, socket, ports), socket)
  {
    CanonicalTwice(s.name);
    var t := Rewrite(s, binary, socket, ports);
    if s.url != "" {
      LocalAddressIsRef(w, t, if Key(s.name) in ports then ports[Key(s.name)] else 0);
    } else {
      assert t.args[1] == "--socket" && t.args[2] == socket && t.args[3] == "--name";
    }
  }
}
