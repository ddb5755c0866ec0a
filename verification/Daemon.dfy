/**
  The shared daemon as a value: what it serves, the resource sets it retains for clients of
  earlier generations, its active clients, and a log of every resource it has closed.
  Proxies, loggers, log closers and stats objects are identified by numbers that are never
  reused; equality of configurations stands for equality of their fingerprints.
*/
module Daemon {
  import opened Options

  datatype Sharing = Shared | Session

  datatype Config = Config(name: string, sharing: Sharing, logFile: string, rest: int)

  // What the daemon serves, by MCP name.
  datatype Served = Served(configs: map<string, Config>, proxies: map<string, nat>, loggers: map<string, nat>,
                           closers: map<string, nat>, stats: map<string, nat>)

  datatype ResourceSet = ResourceSet(generation: nat, held: Served)

  // `proxy` is the proxy the handler of the client runs on.
  datatype Client = Client(name: string, generation: nat, proxy: nat, session: bool)

  datatype State = State(
    served: Served, generation: nat, retained: seq<ResourceSet>,
    active: map<nat, Client>, nextClient: nat, stopped: bool,
    // identities handed out so far, and what became of them
    nextId: nat, built: set<nat>, logFiles: set<nat>, sessions: set<nat>, closed: multiset<nat>)

  // `log` tells whether the log file of a configuration can be opened.
  datatype FileOutcome = Unreadable | Loaded(config: Config, log: bool)

  // What a reload finds on disk; a daemon config without paths is not accepted.
  datatype Source = BadDaemonConfig | Paths(files: seq<FileOutcome>)

  datatype Mode = Mode(force: bool, graceful: bool)

  datatype Op = Bind(name: string) | Disconnect(client: nat) | Reload(mode: Mode, source: Source) | Shutdown

  const NOTHING := Served(map[], map[], map[], map[], map[])

  const INIT := State(NOTHING, 1, [], map[], 0, false, 0, {}, {}, {}, multiset{})

  // ------------------------------------------------------------------- closing and retaining

  // Close calls made for a resource set: its proxies and its log closers.
  function Closings(held: Served): multiset<nat> {
    multiset(held.proxies.Values) + multiset(held.closers.Values)
  }

  predicate ActiveIn(active: map<nat, Client>, generation: nat) {
    exists c | c in active :: active[c].generation == generation
  }

  // The retained sets that do not carry the tag.
  function Others(retained: seq<ResourceSet>, generation: nat): seq<ResourceSet> {
    if retained == [] then []
    else
      var last := retained[|retained| - 1];
      Others(retained[..|retained| - 1], generation) + if last.generation == generation then [] else [last]
  }

  // Close calls made for the sets that carry the tag.
  function TaggedClosings(retained: seq<ResourceSet>, generation: nat): multiset<nat> {
    if retained == [] then multiset{}
    else
      var last := retained[|retained| - 1];
      TaggedClosings(retained[..|retained| - 1], generation)
      + if last.generation == generation then Closings(last.held) else multiset{}
  }

  function AllClosings(retained: seq<ResourceSet>): multiset<nat> {
    if retained == [] then multiset{}
    else AllClosings(retained[..|retained| - 1]) + Closings(retained[|retained| - 1].held)
  }

  function ReleaseIfIdle(s: State, generation: nat): State {
    if ActiveIn(s.active, generation) then s
    else s.(retained := Others(s.retained, generation), closed := s.closed + TaggedClosings(s.retained, generation))
  }

  function RetainOrClose(s: State, obsolete: Option<ResourceSet>): State {
    if obsolete.None? then s
    else if ActiveIn(s.active, obsolete.value.generation) then s.(retained := s.retained + [obsolete.value])
    else s.(closed := s.closed + Closings(obsolete.value.held))
  }

  // --------------------------------------------------------------------------- reloading

  // A reload in progress: the next served state, what it created and what it kept.
  datatype Attempt = Attempt(next: Served, created: Served, reused: set<string>, nextId: nat)

  // Copy an entry, if there is one, from one map to another.
  function Carry<V>(to: map<string, V>, from: map<string, V>, name: string): map<string, V> {
    if name in from then to[name := from[name]] else to
  }

  predicate Unchanged(served: Served, c: Config) { c.name in served.configs && served.configs[c.name] == c }

  function Reuse(served: Served, a: Attempt, c: Config): Attempt
    requires Unchanged(served, c)
  {
    var n := c.name;
    var next := Served(a.next.configs[n := served.configs[n]],
                       Carry(a.next.proxies, served.proxies, n),
                       Carry(a.next.loggers, served.loggers, n),
                       Carry(a.next.closers, served.closers, n),
                       if n in served.stats then a.next.stats[n := served.stats[n]] else a.next.stats[n := a.nextId]);
    Attempt(next, a.created, a.reused + {n}, if n in served.stats then a.nextId else a.nextId + 1)
  }

  // Fresh resources are numbered stats, logger, proxy, closer.
  function NewProxy(c: Config, id: nat): map<string, nat> { if c.sharing == Shared then map[c.name := id + 2] else map[] }

  function NewCloser(c: Config, id: nat): map<string, nat> { if c.logFile != "" then map[c.name := id + 3] else map[] }

  function Create(a: Attempt, c: Config): Attempt {
    var n, id := c.name, a.nextId;
    var next := Served(a.next.configs[n := c], a.next.proxies + NewProxy(c, id), a.next.loggers[n := id + 1],
                       a.next.closers + NewCloser(c, id), a.next.stats[n := id]);
    var created := a.created.(proxies := a.created.proxies + NewProxy(c, id), closers := a.created.closers + NewCloser(c, id));
    Attempt(next, created, a.reused, id + 4)
  }

  // The file can be taken over: readable, a new name, and a log that opens if it has to be opened.
  predicate Acceptable(served: Served, a: Attempt, f: FileOutcome) {
    && f.Loaded? && f.config.name !in a.next.configs
    && (Unchanged(served, f.config) || f.config.logFile == "" || f.log)
  }

  function LoadOne(served: Served, a: Attempt, f: FileOutcome): Attempt
    requires Acceptable(served, a, f)
  {
    if Unchanged(served, f.config) then Reuse(served, a, f.config) else Create(a, f.config)
  }

  // The attempt after the files before the first one that fails, and whether none failed.
  function Load(served: Served, nextId: nat, files: seq<FileOutcome>): (r: (Attempt, bool)) {
    if files == [] then (Attempt(NOTHING, NOTHING, {}, nextId), true)
    else
      var before := Load(served, nextId, files[..|files| - 1]);
      var f := files[|files| - 1];
      if before.1 && Acceptable(served, before.0, f) then (LoadOne(served, before.0, f), true)
      else (before.0, false)
  }

  function Minus(served: Served, names: set<string>): Served {
    Served(served.configs - names, served.proxies - names, served.loggers - names, served.closers - names, served.stats - names)
  }

  // What is not reused, tagged with the current generation; nothing at all if every name is.
  function Obsolete(s: State, reused: set<string>): Option<ResourceSet> {
    if s.served.configs.Keys <= reused then None else Some(ResourceSet(s.generation, Minus(s.served, reused)))
  }

  predicate ReloadAllowed(s: State, mode: Mode) {
    !(mode.force && mode.graceful) && (mode.force || mode.graceful || s.active == map[])
  }

  predicate ReloadSucceeds(s: State, mode: Mode, source: Source) {
    ReloadAllowed(s, mode) && source.Paths? && source.files != [] && Load(s.served, s.nextId, source.files).1
  }

  function Committed(s: State, a: Attempt): State {
    s.(served := a.next, generation := s.generation + 1, nextId := a.nextId,
       built := s.built + a.created.proxies.Values, logFiles := s.logFiles + a.created.closers.Values)
  }

  // The attempt is given up and what it created is closed.
  function Abandoned(s: State, a: Attempt): State {
    s.(nextId := a.nextId, built := s.built + a.created.proxies.Values, logFiles := s.logFiles + a.created.closers.Values,
       closed := s.closed + Closings(a.created))
  }

  function AfterReload(s: State, mode: Mode, source: Source): State {
    if !ReloadAllowed(s, mode) || source.BadDaemonConfig? || source.files == [] then s
    else
      var (a, ok) := Load(s.served, s.nextId, source.files);
      if !ok then Abandoned(s, a)
      else
        var obsolete := Obsolete(s, a.reused);
        var t := Committed(s, a);
        if mode.graceful then RetainOrClose(t, obsolete)
        else if obsolete.Some? then t.(closed := t.closed + Closings(obsolete.value.held))
        else t
  }

  // ------------------------------------------------------------------------------ clients

  function Knows(s: State, name: string): bool {
    name in s.served.configs && (s.served.configs[name].sharing == Session || name in s.served.proxies)
  }

  function AfterBind(s: State, name: string): State {
    if !Knows(s, name) then s
    else
      var session := s.served.configs[name].sharing == Session;
      var proxy := if session then s.nextId else s.served.proxies[name];
      var id := s.nextClient + 1;
      s.(nextClient := id, active := s.active[id := Client(name, s.generation, proxy, session)],
         nextId := if session then s.nextId + 1 else s.nextId,
         sessions := if session then s.sessions + {proxy} else s.sessions)
  }

  // The handler closes its session proxy, if it has one, and then unregisters the client.
  function AfterDisconnect(s: State, client: nat): State {
    if client !in s.active then s
    else
      var c := s.active[client];
      var t := if c.session then s.(closed := s.closed + multiset{c.proxy}) else s;
      ReleaseIfIdle(t.(active := t.active - {client}), c.generation)
  }

  function AfterShutdown(s: State): State {
    s.(closed := s.closed + Closings(s.served) + AllClosings(s.retained), retained := [], stopped := true)
  }

  // Once stopped, the daemon accepts no bind and no reload.
  function Step(s: State, op: Op): State {
    match op
    case Disconnect(client) => AfterDisconnect(s, client)
    case Bind(name) => if s.stopped then s else AfterBind(s, name)
    case Reload(mode, source) => if s.stopped then s else AfterReload(s, mode, source)
    case Shutdown => if s.stopped then s else AfterShutdown(s)
  }

  function Run(s: State, ops: seq<Op>): State
    decreases |ops|
  {
    if ops == [] then s else Run(Step(s, ops[0]), ops[1..])
  }
}
