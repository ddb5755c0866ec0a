/**
  `setup update`: read the client files and the wrapper configurations, work out which wrappers
  to add and to remove, and rewrite the client files and the daemon configuration.
*/
module Update {
  import opened Options
  import opened Text
  import opened Servers
  import opened Sorting

  const PORT_BASE: nat := 54300
  const PORT_RANGE: nat := 200
  const SCHEMA_VERSION := 1

  // The configuration of one wrapper, as its file has it.
  datatype Config = Config(schemaVersion: int, name: string, sharing: string, command: string, args: seq<string>,
                           env: map<string, string>, url: string, protocol: string, httpBackend: string, upstreamMode: string,
                           auth: string, oauthClientID: string, oauthResource: string, oauthScopes: seq<string>,
                           headers: map<string, string>, localPort: int, framing: string)

  // What a setup run is given: the world, the wrapper binary, and the fixed places.
  datatype Env = Env(w: World, binary: string, dir: string, defaultSocket: string)

  datatype Format = Json | JsonWithComments | Toml

  datatype ClientFile = ClientFile(readable: bool, format: Format, servers: seq<RawServer>)

  datatype DaemonFile = DaemonFile(socket: string, configs: seq<string>)

  // `files` holds the JSON files; None is one that does not parse.
  datatype Home = Home(clients: seq<ClientFile>, files: map<string, Option<Config>>, daemon: Option<DaemonFile>)

  datatype Existing = Existing(name: string, path: string, port: int, managed: bool)

  datatype Added = Added(server: RawServer, path: string, content: Config)

  datatype Blocker = NoBinary | NoPort(name: string) | NothingRemains | NotRenderable(client: nat)

  datatype Plan = Plan(existing: seq<Existing>, added: seq<Added>, removed: seq<Existing>, socket: string,
                       nextPaths: seq<string>, ports: map<string, nat>, updates: seq<seq<RawServer>>, blockers: seq<Blocker>)

  // -------------------------------------------------------------------- wrapper configurations

  predicate SDKBackend(c: Config) { c.httpBackend == "sdk" || EqualFold(c.auth, "oauth") }

  predicate RemoteOk(c: Config) {
    var mode := Lower(TrimSpace(c.upstreamMode));
    && c.protocol in ["", "http", "streamable-http"]
    && c.httpBackend in ["", "native", "sdk"]
    && mode in ["", "auto", "legacy", "stateless"]
    && !(mode == "stateless" && SDKBackend(c))
  }

  // The checks made when a configuration is loaded.
  predicate Loads(c: Config) {
    var oauth := EqualFold(c.auth, "oauth");
    && c.schemaVersion <= SCHEMA_VERSION && c.name != ""
    && ((c.command == "") != (c.url == ""))
    && (c.auth == "" || EqualFold(c.auth, "none") || oauth)
    && (oauth ==> c.url != "" && c.httpBackend != "native")
    && (c.url != "" ==> RemoteOk(c))
    && c.sharing in ["", "shared", "session"]
    && (oauth ==> c.sharing != "shared")
    && Lower(TrimSpace(c.framing)) in ["", "header", "content-length", "mcp", "jsonl", "ndjson", "line"]
  }

  predicate LoadsAt(h: Home, path: string) {
    path in h.files && h.files[path].Some? && Loads(h.files[path].value)
  }

  function At(h: Home, path: string, managed: bool): Existing
    requires LoadsAt(h, path)
  {
    Existing(CanonicalName(h.files[path].value.name), path, h.files[path].value.localPort, managed)
  }

  predicate InlineCommand(w: World, command: string) {
    w.base(command) in ["npx", "npm", "pnpm", "yarn", "bun", "uvx"]
  }

  // A command line given as one text is split for the known launchers.
  function SplitCommand(w: World, s: RawServer): RawServer {
    if s.url != "" || |s.args| > 0 then s
    else
      var fields := w.fields(s.command);
      if |fields| <= 1 || !InlineCommand(w, fields[0]) then s else s.(command := fields[0], args := fields[1..])
  }

  function Join(words: seq<string>): string {
    if words == [] then "" else if |words| == 1 then words[0] else words[0] + " " + Join(words[1..])
  }

  predicate Stateful(s: RawServer) { Contains(Lower(s.name + " " + s.command + " " + Join(s.args)), "playwright") }

  function BuildConfig(w: World, server: RawServer, port: int): Config {
    var s := SplitCommand(w, server);
    var sharing := if Stateful(s) || OAuthManaged(w, s) then "session" else "shared";
    if s.url != "" then
      Config(SCHEMA_VERSION, s.name, sharing, "", [], map[], s.url, EffectiveKind(s), "", "",
             if s.auth == "" && OAuthManaged(w, s) then "oauth" else s.auth,
             s.oauthClientID, s.oauthResource, s.oauthScopes, s.headers, port, "")
    else
      Config(SCHEMA_VERSION, s.name, sharing, s.command, s.args, s.env, "", "", "", "", "", "", "", [], map[], port, "jsonl")
  }

  function SafeName(name: string): string {
    seq(|name|, i requires 0 <= i < |name| => if name[i] in ['/', '\\', ' ', ':'] then '-' else name[i])
  }

  function OwnPath(dir: string, name: string): string { dir + "/" + SafeName(name) + ".json" }

  // The files of the wrapper directory.
  predicate InDir(dir: string, path: string) {
    && HasPrefix(path, dir + "/") && '/' !in path[|dir| + 1..]
    && |path| >= |dir| + 6 && path[|path| - 5..] == ".json"
  }

  ghost function DirPaths(e: Env, h: Home): seq<string> {
    Ascending(set p | p in h.files && InDir(e.dir, p))
  }

  predicate AllLoad(h: Home, paths: seq<string>) { forall i :: 0 <= i < |paths| ==> LoadsAt(h, paths[i]) }

  function Managed(h: Home, paths: seq<string>): (r: seq<Existing>)
    requires AllLoad(h, paths)
    ensures |r| == |paths|
  {
    seq(|paths|, i requires 0 <= i < |paths| => At(h, paths[i], true))
  }

  function Paths(existing: seq<Existing>): seq<string> {
    seq(|existing|, i requires 0 <= i < |existing| => existing[i].path)
  }

  lemma PathsMember(existing: seq<Existing>, p: string)
    ensures p in Paths(existing) <==> exists x :: x in existing && x.path == p
  {
    if p in Paths(existing) {
      var i :| 0 <= i < |existing| && Paths(existing)[i] == p;
      assert existing[i] in existing;
    }
    if x :| x in existing && x.path == p {
      var i :| 0 <= i < |existing| && existing[i] == x;
      assert Paths(existing)[i] == p;
    }
  }

  // The configurations the daemon lists beside those of the wrapper directory.
  function WithUnmanaged(h: Home, managed: seq<Existing>, listed: seq<string>): seq<Existing> {
    if listed == [] then managed
    else
      var before, p := WithUnmanaged(h, managed, listed[..|listed| - 1]), listed[|listed| - 1];
      if p == "" || p in Paths(before) || !LoadsAt(h, p) then before else before + [At(h, p, false)]
  }

  // The strict reading of the daemon configuration wants a socket and some paths.
  predicate DaemonLoads(h: Home) { h.daemon.Some? && h.daemon.value.socket != "" && h.daemon.value.configs != [] }

  function ListedPaths(h: Home): seq<string> { if DaemonLoads(h) then h.daemon.value.configs else [] }

  function StrictSocket(e: Env, h: Home): string { if DaemonLoads(h) then h.daemon.value.socket else e.defaultSocket }

  function LooseSocket(e: Env, h: Home): string {
    if h.daemon.Some? && h.daemon.value.socket != "" then h.daemon.value.socket else e.defaultSocket
  }

  // -------------------------------------------------------------------------- scanning clients

  // First server to wrap for each key, and the keys that clients show.
  datatype Scan = Scan(current: map<string, RawServer>, present: set<string>)

  function Look(w: World, socket: string, sc: Scan, s: RawServer): Scan {
    var name, key := CanonicalName(s.name), Key(s.name);
    if IsRef(w, s, socket) then if name != "" then sc.(present := sc.present + {key}) else sc
    else if CanWrap(w, s) then
      Scan(if key in sc.current then sc.current else sc.current[key := s.(name := name)], sc.present + {key})
    else sc
  }

  function ScanServers(w: World, socket: string, servers: seq<RawServer>): Scan {
    if servers == [] then Scan(map[], {})
    else Look(w, socket, ScanServers(w, socket, servers[..|servers| - 1]), servers[|servers| - 1])
  }

  function AllServers(clients: seq<ClientFile>): seq<RawServer> {
    if clients == [] then [] else AllServers(clients[..|clients| - 1]) + clients[|clients| - 1].servers
  }

  // ---------------------------------------------------------------------- adding and removing

  predicate Free(w: World, used: set<nat>, port: nat) {
    PORT_BASE <= port < PORT_BASE + PORT_RANGE && port !in used && w.bindable(port)
  }

  ghost predicate FirstFree(w: World, used: set<nat>, port: nat) {
    Free(w, used, port) && forall p: nat :: p < port ==> !Free(w, used, p)
  }

  // The first port of the range that is neither used nor taken, if there is one.
  ghost function FreePort(w: World, used: set<nat>): (port: Option<nat>)
    ensures port.Some? ==> FirstFree(w, used, port.value)
  {
    if exists p: nat :: FirstFree(w, used, p) then
      var p: nat :| FirstFree(w, used, p);
      Some(p)
    else None
  }

  function UsedPorts(h: Home, listed: seq<string>): set<nat> {
    if listed == [] then {}
    else
      var p := listed[|listed| - 1];
      UsedPorts(h, listed[..|listed| - 1])
      + if LoadsAt(h, p) && h.files[p].value.localPort > 0 then {h.files[p].value.localPort} else {}
  }

  datatype Additions = Additions(added: seq<Added>, used: set<nat>, blockers: seq<Blocker>)

  ghost function AddOne(e: Env, a: Additions, s: RawServer): Additions {
    var port := if s.url != "" then FreePort(e.w, a.used) else None;
    var content := BuildConfig(e.w, s, if port.Some? then port.value else 0);
    Additions(a.added + [Added(s, OwnPath(e.dir, s.name), content)],
              if port.Some? then a.used + {port.value} else a.used,
              if s.url != "" && port.None? then a.blockers + [NoPort(s.name)] else a.blockers)
  }

  function Keys(existing: seq<Existing>): set<string> { set i | 0 <= i < |existing| :: Key(existing[i].name) }

  lemma KeysMember(existing: seq<Existing>, k: string)
    ensures k in Keys(existing) <==> exists x :: x in existing && Key(x.name) == k
  {
    if k in Keys(existing) {
      var i :| 0 <= i < |existing| && Key(existing[i].name) == k;
      assert existing[i] in existing;
    }
  }

  ghost function AddAll(e: Env, current: map<string, RawServer>, taken: set<string>, used: set<nat>, keys: seq<string>): Additions
    requires forall i :: 0 <= i < |keys| ==> keys[i] in current
  {
    if keys == [] then Additions([], used, [])
    else
      var before, k := AddAll(e, current, taken, used, keys[..|keys| - 1]), keys[|keys| - 1];
      if k in taken then before else AddOne(e, before, current[k])
  }

  function Absent(existing: seq<Existing>, present: set<string>): seq<Existing> {
    if existing == [] then []
    else
      var x := existing[|existing| - 1];
      Absent(existing[..|existing| - 1], present) + if Key(x.name) in present then [] else [x]
  }

  function KeptPaths(existing: seq<Existing>, removed: seq<string>): seq<string> {
    if existing == [] then []
    else
      var x := existing[|existing| - 1];
      KeptPaths(existing[..|existing| - 1], removed) + if x.path in removed then [] else [x.path]
  }

  function AddedPaths(added: seq<Added>): seq<string> {
    seq(|added|, i requires 0 <= i < |added| => added[i].path)
  }

  function KeptPorts(existing: seq<Existing>, removed: seq<Existing>): map<string, nat> {
    if existing == [] then map[]
    else
      var x, before := existing[|existing| - 1], KeptPorts(existing[..|existing| - 1], removed);
      if x.path in Paths(removed) || Key(x.name) in Keys(removed) || x.port <= 0 then before else before[Key(x.name) := x.port]
  }

  function AddPorts(ports: map<string, nat>, added: seq<Added>): map<string, nat> {
    if added == [] then ports
    else
      var a, before := added[|added| - 1], AddPorts(ports, added[..|added| - 1]);
      if a.content.localPort > 0 then before[Key(a.content.name) := a.content.localPort] else before
  }

  // ------------------------------------------------------------------------------- the plan

  predicate AnyRewritten(w: World, ports: map<string, nat>, servers: seq<RawServer>) {
    exists i :: 0 <= i < |servers| && Rewrites(w, ports, servers[i])
  }

  // A file with comments is never rewritten.
  function RenderBlockers(w: World, ports: map<string, nat>, clients: seq<ClientFile>): seq<Blocker> {
    if clients == [] then []
    else
      var c := clients[|clients| - 1];
      RenderBlockers(w, ports, clients[..|clients| - 1])
      + if c.format.JsonWithComments? && AnyRewritten(w, ports, c.servers) then [NotRenderable(|clients| - 1)] else []
  }

  predicate Readable(clients: seq<ClientFile>) { forall i :: 0 <= i < |clients| ==> clients[i].readable }

  ghost predicate Plannable(e: Env, h: Home) { AllLoad(h, DirPaths(e, h)) && Readable(h.clients) }

  ghost function ExistingIn(e: Env, h: Home): seq<Existing>
    requires Plannable(e, h)
  {
    WithUnmanaged(h, Managed(h, DirPaths(e, h)), ListedPaths(h))
  }

  ghost function AdditionsFor(e: Env, h: Home): Additions
    requires Plannable(e, h)
  {
    var current := ScanServers(e.w, LooseSocket(e, h), AllServers(h.clients)).current;
    AddAll(e, current, Keys(ExistingIn(e, h)), UsedPorts(h, ListedPaths(h)), Ascending(current.Keys))
  }

  ghost function PlanOf(e: Env, h: Home): Plan
    requires Plannable(e, h)
  {
    var existing := ExistingIn(e, h);
    var present := ScanServers(e.w, LooseSocket(e, h), AllServers(h.clients)).present;
    var additions := AdditionsFor(e, h);
    var removed := Absent(existing, present);
    var nextPaths := Sort(KeptPaths(existing, Paths(removed)) + AddedPaths(additions.added));
    var ports := AddPorts(KeptPorts(existing, removed), additions.added);
    Plan(existing, additions.added, removed, StrictSocket(e, h), nextPaths, ports,
         seq(|h.clients|, i requires 0 <= i < |h.clients| => ReplaceAll(e.w, h.clients[i].servers, e.binary, StrictSocket(e, h), ports)),
         (if e.binary == "" then [NoBinary] else []) + additions.blockers
         + (if nextPaths == [] then [NothingRemains] else []) + RenderBlockers(e.w, ports, h.clients))
  }

  // No plan is made when a client file or a file of the wrapper directory cannot be read.
  ghost function NewPlan(e: Env, h: Home): Option<Plan> {
    if Plannable(e, h) then Some(PlanOf(e, h)) else None
  }

  // ----------------------------------------------------------------------- applying the plan

  function AddFiles(files: map<string, Option<Config>>, added: seq<Added>): map<string, Option<Config>> {
    if added == [] then files
    else var a := added[|added| - 1]; AddFiles(files, added[..|added| - 1])[a.path := Some(a.content)]
  }

  // The wrapper files that are deleted.
  function Deleted(removed: seq<Existing>): set<string> {
    set i | 0 <= i < |removed| && removed[i].managed :: removed[i].path
  }

  // What the servers written to a client file are read as; a file with comments is left alone.
  ghost function ReadBack(w: World, c: ClientFile, next: seq<RawServer>): seq<RawServer> {
    match c.format
    case Json => Overwritten(next)
    case JsonWithComments => c.servers
    case Toml => w.merge(next)
  }

  ghost function WrittenClients(w: World, clients: seq<ClientFile>, updates: seq<seq<RawServer>>): seq<ClientFile>
    requires |updates| == |clients|
  {
    seq(|clients|, i requires 0 <= i < |clients| => clients[i].(servers := ReadBack(w, clients[i], updates[i])))
  }

  ghost function Apply(e: Env, h: Home, plan: Plan): Home
    requires |plan.updates| == |h.clients|
  {
    Home(WrittenClients(e.w, h.clients, plan.updates),
         AddFiles(h.files, plan.added) - Deleted(plan.removed),
         Some(DaemonFile(plan.socket, plan.nextPaths)))
  }
}
