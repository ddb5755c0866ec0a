# Verified model of lazy-mcp-wrapper

lazy-mcp-wrapper puts one real MCP process behind many clients.  This project models the parts
of it whose correctness depends on many functions working together, and proves what they promise
for every run and every input.

| area | files | source |
|---|---|---|
| calls, acks and notifications of one real process | `Upstream`, `UpstreamSafety`, `UpstreamLate`, `UpstreamHub`, `UpstreamKinds`, `UpstreamEnds`, `Backend`, `Subscribers` | `internal/wrapper/proxy.go` |
| the tools/list cache file | `ToolsCache` | `internal/wrapper/cache.go` |
| generations and reloads of the shared daemon | `Daemon`, `DaemonSafety`, `DaemonTheorems`, `DaemonRepair`, `DaemonProcesses`, `DaemonServer` | `internal/daemon/daemon.go` |
| `setup update` | `Servers`, `Update`, `UpdateConverges`, `UpdateExact`, `UpdateStable`, `UpdateFails`, `UpdateEntries`, `UpdateServed`, `UpdateWraps`, `UpdateLoops` | `internal/setup/update.go`, `setup.go`, `reverse.go`, `adapter_json.go` |
| the configuration file of Codex | `Lines`, `Codex`, `CodexParts`, `CodexComments`, `CodexFixpoint`, `CodexMerge`, `CodexLoops` | `internal/setup/toml.go` |
| JSON with comments | `Jsonc`, `JsoncPlaces`, `JsoncTrees` | `internal/setup/adapter_json.go` |
| message framing | `Framing`, `FramingHeaders`, `Decimal` | `internal/jsonrpc/stdio.go` |
| server-sent events | `Sse` | `internal/wrapper/proxy_http.go`, `http_server.go` |
| merging of configuration paths | `PathMerge` | `internal/setup/setup.go` |
| OAuth scopes and credential binding | `Scopes` | `internal/oauth/binding.go` |

`Options`, `Sequences`, `Buffers`, `Text` and `Sorting` hold what these share.

Code that changes state in place is a class or a method with the source's loops, proved equal to a
function of its inputs or of its old state; what the source promises is proved about that function.
The protocol between the read loop, the serving loops and the notification forwarders runs in
several threads, so it is a relation over their atomic steps, and a run is any interleaving.

## Where the code and its promises part

- The graceful promise of the repository's README (line 191: existing clients keep their old proxies
  until disconnect) holds for a retired proxy exactly if all its users were bound in the generation
  that the reload ends (`GracefulPromise`).  A client that survives one reload on a reused proxy is
  still counted under its old generation, and a second reload closes its proxy
  (`TwoGracefulReloads`).  Checking the users of the proxies themselves would repair it
  (`RepairKeepsEveryUser`).
- The five-second ack timer lets the read loop go on while an answer is still unwritten.  The cache
  stays fresh until the timer fires on an answer that is about to be cached (`CacheIsFresh`), and
  answers are written in upstream order until it fires on one that is still to be written
  (`NotificationsDoNotOvertake`).  From any state, and without further ack timeouts, a stale cache
  or an overtaken answer can follow exactly if the timer has fired on an answer that a caller holds
  before that step, or will take from the queue, and a later notification can still pass it
  (`BreaksIffDoomed`, `StaleOnceTimerFires`, `OvertakenOnceTimerFires`, `StaleRun`, `OvertakenRun`).
  An answer served from the cache can be written after another client was told that the list changed
  (`CachedAnswerMayBeOvertaken`).
- A client that survives the closing of its proxy starts a process on it again, which the daemon
  never stops: not when the client leaves, and not when the daemon stops.  Only the idle timer of the
  process does.  Such a call is the only way for a process to be left (`OrphanIff`, `OnlyIdleStops`,
  `RunningAtTheEnd`, `LeftRunning`).
- A TTL beyond 9223372036854 ms overflows the nanosecond product and is not honoured
  (`TtlServedExactly`).
- `setup update` wraps a server with a URL whatever its kind and its authentication are called.  For
  some the written wrapper configuration does not load, and every later run fails.  The second run
  succeeds exactly if all added configurations load (`UpdateConverges`, `LoadsIffSupported`,
  `CommandWithUrl`).
- Two entries of a client file can be rewritten to one name, and the later one replaces the earlier
  one in a JSON file.  The second run then removes a wrapper exactly if no entry that shows its key
  is left (`UpdateConverges`, `ConvergesIffSurvives`); a home for which it does is
  `OverwrittenWrapperLost`.
- The daemon configuration is read in two ways: for recognising references its socket counts even
  if it lists no configurations, for writing them it does not.  A reference that names the one socket
  is not recognised under the other, and its wrapper is removed by the second run exactly if no other
  server shows its key (`ConvergesIffDistinct`, `StopsIff`); a home for which it is removed is
  `OtherSocketLost`.
- Servers are told apart by their names in lower case, but the daemon looks a name up as it is spelled.
  The name that a rewritten entry asks for is served exactly if a wrapper that is kept, or the first
  server of its key that is wrapped, spells it so (`NameServedIff`).  The address that is written for a
  URL has port 0 unless that wrapper has a port, or that server a URL (`PortGivenIff`).  In the home of
  `EntriesLeadNowhere` two entries lead nowhere for these reasons.
- New local ports keep clear of the wrappers that the daemon configuration lists (`PortsApart`), but not
  of other wrappers in the directory: in the home of `PortTakenTwice` a new one gets the port of one that
  is kept.
- In a Codex file, text in single quotes keeps its quotes (`BareValue`), although it is a literal string
  by TOML 1.0, section String.
- A last message line without a line feed is lost when the input ends (`LastLineLost`).
- Rewriting a Codex file twice is not rewriting it once if servers of one rewritten name are
  scattered, as the second reading gathers them, or if one of them has an address and the name has
  a port, as the merged server is rewritten again (`RewriteFileTwice`, `SettlesIff`, `ScatteredChanges`).
- Removing trailing commas twice is not removing them once exactly if another comma comes right
  before a trailing one (`CommasTwice`, `TwoCommas`).
- The event reader delivers an event that has a name but no data, and ignores a field name without a
  colon; WHATWG HTML, section 9.2.6, does the opposite in both cases.  In which blocks the two agree
  is exact (`BlockIff`, `DepartsFromStandard`).

## Model

| member | source | states |
|---|---|---|
| UpstreamSafety.RunInv | internal/wrapper/proxy.go:99-329 | over every interleaving of read loop, serving loops and forwarders the acks, replies, notifications and the cache keep their invariants |
| UpstreamSafety.CacheIsFresh | internal/wrapper/proxy.go:210-268 | until the ack timer fires on an answer that is about to be cached, the cache is empty or holds a storable tools/list answer read upstream after every list_changed notification whose invalidation has run |
| UpstreamSafety.NotificationsDoNotOvertake | internal/wrapper/proxy.go:621-651 | until the ack timer fires on an answer that is still to be written, no client is sent a notification before a response that precedes it upstream is written to its caller |
| UpstreamSafety.NoCrossTalk | internal/wrapper/proxy.go:568-610 | an upstream response is written at most once, to the client and for the request its id was allotted to |
| UpstreamSafety.NoAckClosedTwice | internal/wrapper/proxy.go:593-609 | in every run each ack channel is closed at most once, also with call timeouts and late responses |
| UpstreamSafety.IdsNeverReused | internal/wrapper/proxy.go:572-578 | upstream ids grow, and an id once allotted is never allotted again |
| UpstreamSafety.OneAnswerPerRequest | internal/wrapper/proxy.go:99-154 | each client gets one response per request, in order, with that request's own id |
| UpstreamSafety.NotificationsInOrder | internal/wrapper/proxy.go:178-208 | the notifications sent to a client are in upstream order and none is sent twice |
| UpstreamLate.BreaksIffDoomed | internal/wrapper/proxy.go:621-651 | from a reachable state with a fresh cache, or with ordered writes, a run without further ack timeouts leads to a stale cache, or to an overtaken answer, if and only if the timer has fired on an answer that its caller has still to store or write, or to take from the queue, and a later notification can pass it |
| UpstreamLate.StaleOnceTimerFires | internal/wrapper/proxy.go:638-646 | the timer firing on a storable answer that is about to be cached, or is next in the queue for a waiting tools/list call, makes a stale cache possible |
| UpstreamLate.OvertakenOnceTimerFires | internal/wrapper/proxy.go:638-646 | the timer firing on any answer that is still to be written, or to be taken by a waiting call, makes it possible that a notification overtakes it |
| UpstreamLate.StaleRun | internal/wrapper/proxy.go:638-646 | a run with one ack timeout ends in a stale cache |
| UpstreamLate.OvertakenRun | internal/wrapper/proxy.go:638-646 | a run with one ack timeout ends with an answer written after a later notification |
| UpstreamLate.CachedAnswerMayBeOvertaken | internal/wrapper/proxy.go:252-257 | a client that has read the cache can be answered after another client was sent the list_changed notification |
| UpstreamHub.RunMirrors | internal/wrapper/proxy.go:653-689 | every run of the protocol is a run of the hub of subscribers: each client's buffer is a channel of it |
| UpstreamHub.SentIsHeard | internal/wrapper/proxy.go:178-208 | what a client is sent is, in order, part of the notifications read since it subscribed, with losses only when 16 are buffered |
| UpstreamKinds.AnswersSuit | internal/wrapper/proxy.go:221-268 | every reply is to a request that was read, with its id: one from the cache is to a tools/list request and holds what was cached, one from upstream is to a forwarded request and answers the call made for it, and any other request is answered without the process |
| UpstreamKinds.CachedIsList | internal/wrapper/proxy.go:252-268 | what is cached answers a call made for a tools/list request |
| UpstreamKinds.CallsAreForwarded | internal/wrapper/proxy.go:241-250 | upstream ids are allotted to tools/list and forwarded requests and to no other |
| UpstreamKinds.ListFromCache | internal/wrapper/proxy.go:252-257 | a tools/list request that finds the cache filled is answered from it without the process |
| UpstreamKinds.ForwardedTakesId | internal/wrapper/proxy.go:243-244 | any other forwarded request takes an id of its own, whatever is cached |
| UpstreamEnds.RequestCanEnd | internal/wrapper/proxy.go:568-610 | from every reachable state the serving loop of a client can answer its request by at most four steps of its own, whatever the process, the read loop and the other clients do |
| UpstreamEnds.ClientCanLeave | internal/wrapper/proxy.go:99-208 | from every reachable state a client can leave by steps of its own two threads |
| UpstreamEnds.NothingAfterHangup | internal/wrapper/proxy.go:100-108 | after a client has hung up no request of it is read and no answer is written to it |
| UpstreamEnds.RejectionsMatch | internal/wrapper/proxy.go:117-123 | a client is sent as many rejections as it has sent messages that are no requests |
| UpstreamEnds.InvalidatedByListChanged | internal/wrapper/proxy.go:210-219 | only list_changed notifications invalidate the cache |
| UpstreamEnds.CacheChangesBy | internal/wrapper/proxy.go:210-268 | in every reachable state the cache is emptied exactly by an invalidation, an answer that may not be stored or a client that finds it unusable, and filled exactly by storing a storable answer |
| Backend.TakeAllIsRun | internal/wrapper/proxy.go:593-609 | the waiting loop of a call is a run of the protocol |
| Backend.CallFindsOwnResponse | internal/wrapper/proxy.go:593-609 | among the queued responses a call takes the first with its own id, acknowledging and dropping exactly those before it, or drops all and goes on waiting |
| Backend.RealClient.BeginCall | internal/wrapper/proxy.go:568-591 | a call allots the next id and holds the call lock, or gives it back if the request cannot be written |
| Backend.RealClient.AwaitResponse | internal/wrapper/proxy.go:593-609 | the loop over the queued responses |
| Backend.RealClient.Release | internal/wrapper/proxy.go:604-604 | once the response is written its ack is closed |
| Buffers.Push | internal/wrapper/proxy.go:682-687 | a send that would block is dropped, so 16 buffered messages are never exceeded |
| Subscribers.Channel.Send | internal/wrapper/proxy.go:683-687 | sending appends the message or drops it when 16 are buffered; the channel has to be open |
| Subscribers.Channel.Close | internal/wrapper/proxy.go:669-669 | closing asks for an open channel and keeps what is buffered |
| Subscribers.Registry.Subscribe | internal/wrapper/proxy.go:653-659 | a new open channel is listed last |
| Subscribers.Registry.Unsubscribe | internal/wrapper/proxy.go:661-672 | the channel is taken off the list and closed, and an unlisted one is not touched |
| Subscribers.Registry.Broadcast | internal/wrapper/proxy_http.go:540-555 | every listed channel is offered the message once, in a loop that keeps the list valid |
| Subscribers.WithoutDistinct | internal/wrapper/proxy_http.go:527-538 | cutting a channel out of the list keeps the others and leaves no second copy |
| Subscribers.RunInv | internal/wrapper/proxy.go:653-689 | over any interleaving nothing is sent to a closed channel, none is closed twice, and the listed channels are the open ones |
| Subscribers.ReceivedInOrder | internal/wrapper/proxy.go:653-689 | what a subscriber receives is an in-order subsequence of the broadcasts made while it was subscribed, and all of them if its buffer was never full |
| ToolsCache.Store.Read | internal/wrapper/cache.go:93-114 | a read returns the record if it is readable, reusable and not expired, and deletes it if it is expired |
| ToolsCache.Store.Write | internal/wrapper/cache.go:116-150 | a write stores the result and drops the marker, or drops both files when the TTL or the scope forbids caching |
| ToolsCache.Store.Invalidate | internal/wrapper/cache.go:199-211 | invalidating leaves the marker alone |
| ToolsCache.Store.Clear | internal/wrapper/cache.go:36-51 | clearing leaves neither file |
| ToolsCache.DurationExact | internal/wrapper/cache.go:187-192 | the int64 product of a positive TTL is exact if and only if it is at most 9223372036854 ms |
| ToolsCache.TtlServedExactly | internal/wrapper/cache.go:187-197 | a result is served for exactly its TTL if and only if that TTL does not overflow |
| ToolsCache.CacheIsOneOptionalValue | internal/wrapper/cache.go:93-211 | after any history of writes, invalidations, clearings, reads and clock advances a read hits exactly when the last write since the last invalidation or clearing may still be served, with its result; record and marker never coexist |
| ToolsCache.OnlySharedServed | internal/wrapper/cache.go:169-186 | whatever the history, only results with one of the five shared scopes, in any case and padding, are served, and never one with scope session or private |
| ToolsCache.WrittenServedIff | internal/wrapper/cache.go:116-150 | a result is served right after it was written exactly if it is not empty, its TTL is positive and its scope is shared |
| ToolsCache.ForeignNeverServed | internal/wrapper/cache.go:99-104 | a record that another version or another configuration has left is never served and not touched by reads |
| ToolsCache.ReadCleans | internal/wrapper/cache.go:105-113 | a read deletes exactly a record of its own that has expired, and what it leaves of its own is served |
| DaemonSafety.RunInv | internal/daemon/daemon.go:243-408 | every run of binds, disconnects, reloads of any mode and outcome, and shutdown keeps the resource, client, session and generation invariants |
| DaemonTheorems.Conservation | internal/daemon/daemon.go:243-399 | each shared proxy and each log closer is at each moment served, or in exactly one retained set, or closed once; shutdown closes all |
| DaemonTheorems.SessionProxies | internal/daemon/daemon.go:556-581 | a session proxy belongs to one client, is never shared, is untouched by reloads and closed when its handler ends |
| DaemonTheorems.BindAddsClient | internal/daemon/daemon.go:604-633 | in every reachable running state a bind adds a client exactly if the name is configured: one, in the current generation, on the served proxy if it is shared and on a session proxy never used before if not |
| DaemonTheorems.SessionClientExists | internal/daemon/daemon.go:615-622 | a reachable state has an active client on a session proxy |
| DaemonTheorems.RetainedHaveClients | internal/daemon/daemon.go:375-408 | each retained set is tagged with an earlier generation, its own, in which some client is still active |
| DaemonTheorems.RetainedMeansBusy | internal/daemon/daemon.go:731-742 | a plain reload that gets past the busy check finds nothing retained |
| DaemonTheorems.LoadSucceedsIff | internal/daemon/daemon.go:262-309 | the loop over the files succeeds exactly if all are readable, their names differ, and every log that has to be opened opens |
| DaemonTheorems.ReloadSucceedsIff | internal/daemon/daemon.go:731-755 | a reload succeeds exactly if its mode is allowed, the daemon configuration lists paths, and the files load |
| DaemonTheorems.OtherReloadsClose | internal/daemon/daemon.go:743-755 | a reload that is not graceful closes what it retires at once |
| DaemonTheorems.ReloadCommits | internal/daemon/daemon.go:262-318 | a successful reload serves exactly the names in the files, with the same proxy, logger, closer and stats for each unchanged configuration and new ones for the others |
| DaemonTheorems.FailedReloadChangesNothing | internal/daemon/daemon.go:259-297 | a failed reload leaves everything served and the generation as they were and closes exactly what the attempt opened |
| DaemonTheorems.GracefulPromise | internal/daemon/daemon.go:375-399 | a proxy retired by a graceful reload stays open, whatever reloads, binds and disconnects follow, until the last of its users leaves, if and only if all its users were bound in the generation that the reload ends |
| DaemonTheorems.NobodyBindsToRetired | internal/daemon/daemon.go:604-633 | no client that binds later runs on a retired proxy |
| DaemonTheorems.OldUserLosesProxy | internal/daemon/daemon.go:375-384 | a graceful reload closes a proxy in use at once when no client of the current generation is active |
| DaemonTheorems.TwoGracefulReloads | internal/daemon/daemon.go:272-290 | two graceful reloads, reusing and then retiring a proxy, close it while a client from before the first still uses it |
| DaemonRepair.RepairKeepsEveryUser | internal/daemon/daemon.go:375-408 | with a check on the users of the proxies instead of the generation, no client loses its proxy before it leaves, over every run without force and shutdown |
| DaemonProcesses.OrphanIff | internal/wrapper/proxy.go:309-345 | a real process runs on a closed proxy exactly if a client called after the proxy was closed, and the process has not become idle since |
| DaemonProcesses.OnlyIdleStops | internal/wrapper/proxy.go:697-712 | whatever the daemon does, only the idle timer or its own exit stops such a process |
| DaemonProcesses.OthersAreOwned | internal/wrapper/proxy.go:419-430 | every other process runs on a proxy that is served, retained, or of an active client's session |
| DaemonProcesses.RunningAtTheEnd | internal/daemon/daemon.go:325-331 | once the daemon has stopped and its clients are gone, the processes that run are exactly those |
| DaemonProcesses.LeftRunning | internal/daemon/daemon.go:272-290 | a run of two graceful reloads leaves such a process when the daemon stops |
| DaemonServer.ReachableOrderly | internal/daemon/daemon.go:366-373 | in every reachable state the resources of a set differ, so closing a set closes each of them once |
| DaemonServer.Server.constructor | internal/daemon/daemon.go:113-135 | a server starts in generation 1 without clients and retained sets |
| DaemonServer.Server.CloseEach | internal/daemon/daemon.go:366-373 | the loop closes each resource of a map once |
| DaemonServer.Server.CloseResourceSet | internal/daemon/daemon.go:366-373 | the proxies and the log closers of a set are closed, and nothing else |
| DaemonServer.Server.HasActiveClientInGeneration | internal/daemon/daemon.go:401-408 | the loop finds out whether some client is active in a generation |
| DaemonServer.Server.Compact | internal/daemon/daemon.go:390-398 | the in-place compaction keeps the sets of other generations in order and closes the others |
| DaemonServer.Server.CloseRetainedIfIdle | internal/daemon/daemon.go:386-399 | the retained set of a generation is released when its last client is gone |
| DaemonServer.Server.RetainOrCloseResourceSet | internal/daemon/daemon.go:375-384 | the obsolete set is retained if a client of its generation is active, and closed if not |
| DaemonServer.Server.LoadFiles | internal/daemon/daemon.go:262-309 | the loop over the files makes the attempt of the value model and touches nothing served |
| DaemonServer.Server.TakeObsolete | internal/daemon/daemon.go:333-364 | the obsolete set holds the served configurations that are not reused, with their resources |
| DaemonServer.Server.Commit | internal/daemon/daemon.go:310-318 | a commit replaces what is served, counts the generation and settles the obsolete set |
| DaemonServer.Server.Reload | internal/daemon/daemon.go:731-755 | a reload takes the value of the server to the next one of the value model and says whether it succeeded |
| DaemonServer.Server.BindClient | internal/daemon/daemon.go:604-633 | binding registers the client in the current generation on the shared proxy or on a new session proxy, or refuses an unknown name |
| DaemonServer.Server.EndHandler | internal/daemon/daemon.go:563-568 | the deferred calls close the session proxy, unregister the client and release its generation if it is idle |
| DaemonServer.Server.CloseResources | internal/daemon/daemon.go:325-331 | everything served and everything retained is closed |
| DaemonServer.Server.Shutdown | internal/daemon/daemon.go:325-331 | stopping takes the value of the server to the stopped one of the value model |
| Servers.CanonicalTwice | internal/setup/setup.go:719-725 | canonical names are canonical |
| Servers.CheckCommandRef | internal/setup/reverse.go:21-44 | the loop with its two flags decides whether a socket argument with the right value and a name argument are present |
| Servers.ReplaceWithWrapperRefs | internal/setup/setup.go:553-585 | the loop rewrites each server that is wrapped or has a local port, and keeps the others |
| Servers.LocalAddressIsRef | internal/setup/adapter_json.go:502-512 | the address written for a local port is recognised as a wrapper reference |
| Servers.OverwrittenReads | internal/setup/adapter_json.go:149-162 | writing servers to a JSON object keeps every name, and every server whose name is its own |
| Servers.RewrittenIsRef | internal/setup/setup.go:559-580 | a rewritten server keeps its key and is recognised as a wrapper reference for the socket it was written for |
| UpdateConverges.ScanFinds | internal/setup/update.go:37-70 | a scan marks exactly the keys some client shows, and keeps a server for exactly the keys of servers to be wrapped |
| UpdateConverges.ScanKeepsFirst | internal/setup/update.go:62-68 | the server kept for a key is the first one to be wrapped, canonically named |
| UpdateConverges.ExistingListed | internal/setup/update.go:208-234 | the list of wrappers holds every loadable file of the directory or of the daemon configuration exactly once |
| UpdateConverges.AddedFor | internal/setup/update.go:83-101 | every key to be wrapped that has no wrapper gets one |
| UpdateConverges.AddedFrom | internal/setup/update.go:83-101 | every added wrapper is for such a key, stored under its own name and built from the kept server |
| UpdateConverges.KeysAfter | internal/setup/update.go:136-158 | after a plan is applied clients show, and leave to wrap, the keys of the servers that remain, under the socket that was written |
| UpdateConverges.KeysFound | internal/setup/update.go:208-234 | the wrappers listed again have the keys of those that were kept or added |
| UpdateConverges.ReadableAgain | internal/setup/update.go:175-190 | after a plan is applied the wrapper directory can be read exactly if every added configuration loads |
| UpdateConverges.UpdateConverges | internal/setup/update.go:25-206 | planning again succeeds exactly if every added configuration loads; then it removes nothing exactly if each key that keeps a wrapper is shown by a server that remains, adds nothing exactly if each remaining server to be wrapped has a wrapper, and with both leaves the daemon configuration as it is |
| UpdateExact.ConvergesIffSurvives | internal/setup/adapter_json.go:149-162 | the second run removes nothing exactly if for every key that keeps a wrapper an entry that shows it is not replaced by a later entry of its name, and adds nothing if the sockets agree |
| UpdateExact.ConvergesIffDistinct | internal/setup/setup.go:666-684 | with different rewritten names the second run removes nothing exactly if every key kept by a reference to another socket is shown by another server after rewriting, and adds nothing exactly if every such reference with a stored credential has a wrapper |
| UpdateExact.StopsIff | internal/setup/reverse.go:21-44 | a server stops being shown exactly if it is a command reference that names the loosely read socket and not the written one, has no local address or port, and cannot be wrapped |
| UpdateExact.WrapsIff | internal/setup/setup.go:553-585 | a server that remains is to be wrapped only if it was before, or is such a reference with a stored credential |
| UpdateFails.OverwrittenWrapperLost | internal/setup/adapter_json.go:149-162 | a home whose second run removes the wrapper that the first one added, since its entry was replaced |
| UpdateFails.OtherSocketLost | internal/setup/reverse.go:21-44 | a home whose second run removes a wrapper that the first one kept, since another socket was written |
| UpdateWraps.CanonicalIs | internal/setup/setup.go:719-725 | a name in any case and padding of playwright is that word, and any other name is only trimmed |
| UpdateWraps.NeedsWrapperIff | internal/setup/adapter_json.go:404-513 | which servers are to be wrapped, by their kind, command, arguments, address, authentication and headers |
| UpdateWraps.WrappedKeys | internal/setup/update.go:40-70 | a run looks for wrappers for exactly the keys of the servers that need one |
| UpdateWraps.StatefulIff | internal/setup/setup.go:483-486 | state is kept exactly where playwright is mentioned, in any case |
| UpdateWraps.InDirIff | internal/setup/reverse.go:58-78 | the files of the directory are the ones right inside it that end in .json |
| UpdateWraps.SameFileIff | internal/setup/setup.go:714-717 | two names share a file exactly if they differ at most in unsafe characters and hyphens |
| UpdateWraps.PortsGiven | internal/setup/setup.go:587-615 | added wrappers for URLs get, in their order, the first ports from 54300 to 54499 that can be bound and are neither given before nor taken by a configuration that the daemon lists |
| UpdateWraps.PortsApart | internal/setup/update.go:76-101 | no two added wrappers share a port, and none shares one with a wrapper that the daemon lists |
| UpdateWraps.PortTakenTwice | internal/setup/update.go:76-101 | a home in which an added wrapper gets the port of a kept one that the daemon does not list |
| UpdateEntries.CommandEntry | internal/setup/setup.go:573-580 | a wrapped server without URL is rewritten to the wrapper binary with the written socket and its canonical name, and its key has a wrapper |
| UpdateEntries.CommandKeeps | internal/setup/setup.go:553-585 | what else such an entry says is kept |
| UpdateEntries.OtherEntry | internal/setup/setup.go:553-585 | a server that is not wrapped, and has no URL or no port for its name, is left as it is |
| UpdateEntries.AddressEntry | internal/setup/setup.go:561-572 | a rewritten server with a URL points to the local port that the plan gives its key, and says nothing else |
| UpdateEntries.PortListens | internal/setup/update.go:236-257 | the plan gives a key a port exactly if a wrapper that is kept or added for it listens on one, and then one of those |
| UpdateEntries.AddedForFirst | internal/setup/update.go:66-69 | an added wrapper is for the first server of its key to be wrapped, under its canonical name |
| UpdateEntries.AddedCommand | internal/setup/setup.go:392-428 | the wrapper added for a command starts the words of that command in its environment |
| UpdateEntries.AddedRemote | internal/setup/setup.go:392-428 | the wrapper added for a URL reaches it with the headers and the authentication of the server |
| UpdateEntries.AddedSharing | internal/setup/setup.go:394-397 | clients get sessions of their own exactly if playwright is mentioned or the logins are managed |
| UpdateServed.NameServedIff | internal/daemon/daemon.go:604-610 | the name that a rewritten entry asks for is served after the run exactly if a kept wrapper, or else the first server of its key to be wrapped, spells it so |
| UpdateServed.PortGivenIff | internal/setup/update.go:236-257 | a key to be wrapped has a port exactly if a kept wrapper has one, or else the first server of the key has a URL |
| UpdateServed.EntriesLeadNowhere | internal/setup/setup.go:561-578 | a home whose rewritten entries ask for a name that is not served and point to port 0 |
| UpdateConverges.LoadsIffSupported | internal/setup/setup.go:392-428 | the configuration built for a server loads exactly if the server has no URL, or an HTTP kind and a known authentication |
| UpdateConverges.CommandWithUrl | internal/setup/adapter_json.go:411-448 | a server of kind stdio with a command and a URL is wrapped although its wrapper does not load |
| UpdateConverges.FreshFromNames | internal/setup/update.go:96-100 | added files are new and different if managed files are stored under their own names and the names in use differ as file names |
| UpdateStable.ListedExactly | internal/setup/update.go:208-234 | the second run lists exactly the kept and the added wrappers, those of the directory first, each by path |
| UpdateStable.PortsAgain | internal/setup/update.go:236-257 | clients are pointed to the same ports again exactly if that list gives each key its port; it does if wrapper keys differ |
| UpdateStable.ReplaceTwice | internal/setup/setup.go:553-585 | rewriting a server twice is rewriting it once |
| UpdateStable.SecondRunIsEmpty | internal/setup/update.go:135-158 | when nothing is added, removed or given another port the second run has no blocker, and rewrites no client file exactly if no server that a TOML file is merged to is rewritten again |
| UpdateStable.DistinctSettled | internal/setup/toml.go:38-45 | with different names in each TOML file none is |
| UpdateLoops.ListWrapperConfigs | internal/setup/reverse.go:58-78 | the files of the directory are listed in increasing order, or listing fails at one that does not load |
| UpdateLoops.AppendUnmanaged | internal/setup/update.go:213-233 | paths of the daemon configuration that are new and load are appended as unmanaged |
| UpdateLoops.ListUpdateWrapperConfigs | internal/setup/update.go:208-234 | the two lists together |
| UpdateLoops.ScanFile | internal/setup/update.go:45-69 | the inner loop continues the scan of the files before |
| UpdateLoops.ScanClients | internal/setup/update.go:40-70 | the nested loops compute the scan of all servers, or fail at an unreadable file |
| UpdateLoops.AllocateLocalPort | internal/setup/setup.go:587-601 | the allotted port is the first of the 200 that is neither used nor taken, and there is none only if all are |
| UpdateLoops.ExistingLocalPorts | internal/setup/setup.go:603-615 | the used ports are the positive ones of the loadable configurations of the daemon |
| UpdateLoops.AddWrappers | internal/setup/update.go:77-101 | wrappers are added in the order of their keys, each with the next free port if it needs one |
| UpdateLoops.RemovedWrappers | internal/setup/update.go:102-106 | the removed wrappers are those whose key no client shows |
| UpdateLoops.NextPaths | internal/setup/update.go:112-125 | the next paths are the kept and the added ones, sorted |
| UpdateLoops.LocalPortsForUpdate | internal/setup/update.go:236-257 | the ports of kept wrappers, overridden by those of added ones |
| UpdateLoops.RewriteClients | internal/setup/update.go:136-158 | every client file is rewritten, and one with comments that would change is a blocker |
| UpdateLoops.NewUpdatePlan | internal/setup/update.go:25-160 | the program's plan is the plan that the convergence theorem is about |
| Lines.SplitTrimmed | internal/setup/toml.go:170-170 | cutting the line feeds off the joined raw lines drops exactly the empty ones at the end |
| Lines.SplitFile | internal/setup/toml.go:160-160 | a file written as lines reads as those lines and an empty one |
| Codex.CutComment | internal/setup/toml.go:245-266 | the loop with its two flags cuts at the first hash outside strings |
| CodexComments.StripIs | internal/setup/toml.go:245-266 | a value ends before the first hash that is outside strings and not escaped, and is whole without one |
| CodexComments.CommentIgnored | internal/setup/toml.go:72-72 | a value without open string reads the same with a comment behind it |
| CodexComments.AssignmentCommented | internal/setup/toml.go:60-115 | an assignment sets the same with a comment behind it |
| CodexComments.WrittenCommented | internal/setup/toml.go:173-217 | a written text or array, whatever it holds, is read the same with a comment behind it |
| CodexComments.BareValue | internal/setup/toml.go:222-230 | a value without double quotes is read as it stands |
| CodexComments.UnreadableQuotes | internal/setup/toml.go:222-230 | a quoted value that can not be unquoted is what stands between its quotes |
| CodexComments.AnnotatedServers | internal/setup/toml.go:33-117 | comments and blank lines, wherever they are added to a file, change neither its servers nor whether it is refused |
| CodexComments.RefusedIff | internal/setup/toml.go:94-115 | a file is refused exactly if the main section of a server assigns an array that does not parse |
| CodexParts.ReadFromOk | internal/setup/toml.go:33-117 | each server read has its own lines, gathered from interleaved sections, and those lines alone say the same about it |
| CodexParts.BlockRoundTrip | internal/setup/toml.go:163-220 | reading a rendered server gives the server back, with its environment, headers and client id |
| CodexParts.BlankKind | internal/setup/toml.go:176-177 | a server without a kind is written and read back as one of kind stdio |
| CodexParts.BlockOver | internal/setup/toml.go:60-115 | reading a rendered server after another one of its name sets what it says and keeps the rest |
| CodexFixpoint.ReadPile | internal/setup/toml.go:33-117 | sections of one name are merged into the server of the first one, in the order of first appearance |
| CodexFixpoint.RewriteLinesTwice | internal/setup/toml.go:131-161 | rewriting the lines of a rewritten file works, and changes nothing exactly if equal rewritten names stand together and no server that they are merged to is rewritten again |
| CodexFixpoint.RewriteFileTwice | internal/setup/toml.go:14-161 | the same for files: read, wrap and replace applied twice equals applying it once under exactly that condition, for any interleaving of sections |
| CodexMerge.SettlesIff | internal/setup/setup.go:553-585 | when all servers of a shared name are rewritten, the condition is that equal names stand together and none has a port while one of its servers has an address |
| CodexMerge.MergedRewrites | internal/setup/toml.go:33-117 | servers rewritten to one name are merged to one that is rewritten again exactly if one has an address and the name has a port |
| CodexMerge.DistinctSettles | internal/setup/toml.go:14-161 | with different rewritten names applying it twice equals applying it once |
| CodexMerge.ScatteredChanges | internal/setup/toml.go:38-45 | a file with the servers Playwright, x and playwright is changed by the second rewriting |
| CodexMerge.WrittenReadsAs | internal/setup/toml.go:33-117 | what a rewritten file is read as keeps every name, and every server whose rewritten name is its own |
| CodexFixpoint.OutsideSurvives | internal/setup/toml.go:131-161 | the lines outside MCP sections survive in their order up to blank lines at the end |
| CodexFixpoint.BlankBetween | internal/setup/toml.go:152-160 | one blank line parts the lines outside, if any is not blank, from the first section |
| CodexParts.EveryLineOnce | internal/setup/toml.go:33-152 | the lines outside and the raw lines of all servers account for each line exactly once |
| CodexLoops.SetDraft | internal/setup/toml.go:67-115 | an assignment fills in its field of the record, or fails on an array that does not parse |
| CodexLoops.Reader.FlushRaw | internal/setup/toml.go:22-31 | flushing moves the pending lines to the open record without changing what has been read |
| CodexLoops.Reader.OpenSection | internal/setup/toml.go:35-53 | a section line opens the record of its server, a new one at the end if there is none |
| CodexLoops.Reader.CloseSection | internal/setup/toml.go:54-59 | another section line closes the open record |
| CodexLoops.Reader.AddLine | internal/setup/toml.go:60-115 | a line of the open section is kept and read |
| CodexLoops.ParseLines | internal/setup/toml.go:14-129 | the loop over the lines gives the servers of the file or fails where reading fails |
| CodexLoops.FrontLines | internal/setup/toml.go:131-158 | the other loop keeps the lines outside, without the blank ones at the end |
| CodexLoops.BlockLines | internal/setup/toml.go:173-217 | a server is printed as its block, tables sorted by key |
| CodexLoops.RenderLines | internal/setup/toml.go:163-220 | rewritten servers are printed, the others keep their lines |
| CodexLoops.RewriteCodexFile | internal/setup/adapter_codex.go:37-48 | the program's rewriting is the one of the fixpoint theorem |
| Jsonc.StripJSONComments | internal/setup/adapter_json.go:228-292 | the loop that moves its index past comments computes the comment pass or fails on an open string or comment |
| Jsonc.StripJSONTrailingCommas | internal/setup/adapter_json.go:294-332 | the loop with its look-ahead computes the comma pass |
| Jsonc.NormalizeJSONC | internal/setup/adapter_json.go:220-226 | the two passes one after the other |
| Jsonc.CommentsKeepBreaks | internal/setup/adapter_json.go:228-292 | stripping comments keeps the exact sequence of CR and LF |
| JsoncPlaces.CommentsByPlace | internal/setup/adapter_json.go:228-292 | of any text the comment pass keeps exactly the bytes outside comments and the line breaks, by an automaton over positions, and it fails exactly if the text ends inside a string or a block comment |
| JsoncPlaces.NormalizeFailsIff | internal/setup/adapter_json.go:220-226 | normalising fails exactly if the text ends inside a string or a block comment |
| Jsonc.CommentsGoneAtOnce | internal/setup/adapter_json.go:228-292 | stripping comments is idempotent: removing some never creates another |
| Jsonc.CommasRemoved | internal/setup/adapter_json.go:294-332 | exactly the commas outside strings whose next byte but white space closes a container are removed |
| Jsonc.CommasTwice | internal/setup/adapter_json.go:294-332 | removing trailing commas twice is removing them once exactly if no other comma outside strings comes right before a trailing one |
| Jsonc.TwoCommas | internal/setup/adapter_json.go:320-328 | a text for which it is not |
| JsoncTrees.CommentsStripped | internal/setup/adapter_json.go:228-292 | a comment between any two tokens is replaced by its line breaks |
| JsoncTrees.CommasDropped | internal/setup/adapter_json.go:294-332 | a comma is dropped exactly if the next token closes a container |
| JsoncTrees.NormalizeExact | internal/setup/adapter_json.go:220-336 | any JSON tree printed with white space, comments and trailing commas normalises to the same text with comments replaced by their line breaks and without the trailing commas |
| JsoncTrees.LiteralsKept | internal/setup/adapter_json.go:220-336 | every string literal is kept byte for byte |
| JsoncTrees.CleanIsJson | internal/setup/adapter_json.go:220-336 | what is left has no comments and no trailing commas |
| JsoncTrees.NormalizeJson | internal/setup/adapter_json.go:220-336 | JSON is left as it is |
| Sorting.LessIff | internal/setup/update.go:81-81 | names are sorted by the first character that differs, and a name comes before those it begins |
| Decimal.NumeralReads | internal/setup/setup.go:627-629 | the port in a written address reads back as the number |
| Decimal.ValueOfDigits | internal/jsonrpc/stdio.go:212-212 | reading printed digits gives the number back |
| Framing.AtoiPrint | internal/jsonrpc/stdio.go:153-157 | a printed length of at most 63 bits is read back |
| Framing.ParseLength | internal/jsonrpc/stdio.go:146-160 | the header that is written is parsed to the length |
| FramingHeaders.FrameRead | internal/jsonrpc/stdio.go:107-160 | whatever the header lines are, in any order and with LF or CRLF, the last length they announce is how much of the input the body takes; a negative or too large one fails |
| FramingHeaders.MessageRead | internal/jsonrpc/stdio.go:107-160 | a message is read from a frame with one Content-Length line, in any case and padding, among any other header lines, and exactly what follows is left |
| FramingHeaders.LengthMissing | internal/jsonrpc/stdio.go:131-133 | a frame without a length line is refused after its empty line |
| FramingHeaders.LengthUnreadable | internal/jsonrpc/stdio.go:153-157 | the first length that can not be read is refused |
| FramingHeaders.ColonMissing | internal/jsonrpc/stdio.go:148-151 | a line without a colon is refused, as the first one or after others |
| FramingHeaders.HeadersCutOff | internal/jsonrpc/stdio.go:117-121 | an input that ends within the header lines is the end of the input |
| FramingHeaders.LengthFolded | internal/jsonrpc/stdio.go:152-152 | a header name is compared without its padding and letter by letter in either case |
| FramingHeaders.AtoiReads | internal/jsonrpc/stdio.go:153-153 | a sign and digits, also with leading zeros, are read as their value if it has 64 bits |
| FramingHeaders.AtoiRefuses | internal/jsonrpc/stdio.go:153-153 | a length with anything else in it is refused |
| FramingHeaders.BlankLinesPassed | internal/jsonrpc/stdio.go:60-94 | blank lines before a message are passed over |
| FramingHeaders.PaddedLineRead | internal/jsonrpc/stdio.go:60-101 | a line is decoded without the white space around it, also when it ends in CRLF, and settles a detecting reader for lines |
| FramingHeaders.LastLineLost | internal/jsonrpc/stdio.go:62-65 | a last line without a line feed is lost |
| Framing.Reader.Read | internal/jsonrpc/stdio.go:53-58 | a read consumes and returns what the reading function says, and keeps the detected framing |
| Framing.Reader.ReadLines | internal/jsonrpc/stdio.go:84-101 | blank lines are passed over and a line is decoded |
| Framing.Reader.Detect | internal/jsonrpc/stdio.go:60-82 | the first line that is not blank settles whether a message is a line or a frame |
| Framing.Reader.ReadAfterFirstLine | internal/jsonrpc/stdio.go:107-144 | header lines are read up to the empty one, then exactly the announced number of bytes |
| Framing.Writer.WriteRaw | internal/jsonrpc/stdio.go:202-216 | a body is written as a line or as a frame |
| Framing.RoundTrip | internal/jsonrpc/stdio.go:53-216 | messages written as frames and then as lines are read back by one detecting reader in order, followed by the end of the input, with every byte consumed |
| Sse.Reader.Read | internal/wrapper/proxy_http.go:639-670 | the loop gathers the lines of the next event |
| Sse.Writer.Write | internal/wrapper/http_server.go:170-183 | an event is written with the field name repeated on every line |
| Sse.AwaitResponse | internal/wrapper/proxy_http.go:452-484 | waiting returns the first response with the wanted id after passing on the notifications before it, in order, or stops at data that is no message or at the end |
| Sse.NotesAt | internal/wrapper/proxy_http.go:476-479 | the notes are the data of exactly the events that carry notifications, in order |
| Sse.NotesAre | internal/wrapper/proxy_http.go:452-484 | a text is passed on exactly if an event before the end of the wait carries it as a notification |
| Sse.OutcomeIff | internal/wrapper/proxy_http.go:452-484 | waiting ends with the response, or fails, exactly at the first event that is not passed over |
| Sse.ReadAllWritten | internal/wrapper/http_server.go:177-177 | reading the concatenation of written events gives one event named message for each text, in order |
| Sse.ReceivedIff | internal/wrapper/proxy_http.go:647-652 | a text is received unchanged exactly if none of its lines ends in CR |
| Sse.BlockIff | internal/wrapper/proxy_http.go:639-670 | in a block of lines the reader's event is the one of WHATWG HTML section 9.2.6, apart from the default name, exactly if it has neither data nor a name, or the final event names agree and either no line is the field name data alone or one such line is all the data of a named block |
| Sse.AgreesWithStandard | internal/wrapper/proxy_http.go:639-670 | on streams with LF or CRLF ends whose blocks are all of that kind, the events are those of the standard |
| Sse.WithColonsAlike | internal/wrapper/proxy_http.go:648-653 | a block is of that kind if every line has a colon and there is data if there is a name |
| Sse.DepartsFromStandard | internal/wrapper/proxy_http.go:648-661 | blocks for which reader and standard differ, and one in which the two differences make up for each other |
| PathMerge.MergeConfigPathsByName | internal/setup/setup.go:504-543 | the loops compute the merged list, and the check for repeated paths never fires |
| PathMerge.Merge.Add | internal/setup/setup.go:508-522 | a path is stored under its key if the key is new or the path is preferred |
| PathMerge.MergedPaths | internal/setup/setup.go:504-543 | the list has no repetition, one path for each key in the order of first appearance: the last new path of the key, or else the first existing one that is not skipped |
| PathMerge.UsableAt | internal/setup/setup.go:523-532 | the paths that count are the ones that are not empty and whose name is not skipped, in order |
| PathMerge.MergedHolds | internal/setup/setup.go:504-543 | a path is in the list exactly if it is the last new one of its key, or the first existing one that is not skipped of a key that no new one has |
| PathMerge.FirstsAt | internal/setup/setup.go:512-518 | the keys are listed in the order in which they appear first |
| PathMerge.FirstWithIs | internal/setup/setup.go:523-529 | the existing path that is kept for a key is the first one of that key |
| PathMerge.LastWithIs | internal/setup/setup.go:530-532 | the new path that is kept for a key is the last one of that key |
| PathMerge.SameKey | internal/setup/setup.go:512-515 | two paths share a key exactly if their names are equal, or they are equal, or the name of one spells the path of the other |
| Scopes.NormalizeScopes | internal/oauth/binding.go:70-86 | the loop collects each trimmed scope once and sorts them in place |
| Scopes.SortInPlace | internal/oauth/binding.go:84-84 | sorting the array in place gives the sorted list of its elements |
| Scopes.NormalIs | internal/oauth/binding.go:70-86 | the normal form is strictly sorted and holds exactly the trimmed scopes that are not blank |
| Scopes.SameScopeSet | internal/oauth/binding.go:56-68 | the comparison holds exactly if the sets of trimmed scopes are equal |
| Scopes.ValidateAlike | internal/oauth/binding.go:26-43 | reordering, repeating or padding scopes does not change whether a credential is bound |
| Scopes.ValidateIff | internal/oauth/binding.go:26-43 | a credential is accepted exactly if every part that is asked for is met |
| Scopes.FirstUnmet | internal/oauth/binding.go:26-43 | what is reported is the first part, in the order of server, client, resource and scopes, that is asked for and not met |

## Left out

- Sockets, pipes, processes, signals and HTTP: an upstream is the list of messages read from it and a flag.
- The read loop, the serving loops and the forwarders are steps of a relation and not methods of a class, because they interleave.  The class form of a call runs without other threads in between.  `initialize` has used up ids before a run starts, so runs start at any id.
- Several real processes, or several wrapper processes, sharing one cache directory, and file errors in cache operations.
- Real time: timeouts are steps that may happen at any time; the cache clock is a number.
- Requests in flight when the daemon stops, and clients that bind while it stops.
- The files given on the daemon's command line: the server starts empty and the first reload brings its configurations.
- Redaction, status tables, prompts, printing of plans, service installation and file watching: no deep property.
- `setup` (first installation) and `setup uninstall` as a whole: only the steps they share with `setup update`, and the merging of paths.
- Placeholders and environment variables in configurations, and the byte contents of client files other than Codex's: the servers written to a JSON file are read back as they were, the last one of each name; of a TOML file the convergence proof only uses what `WrittenReadsAs` shows.
- JSON encoding, SHA-256, regular expressions, URL parsing, `strconv.Quote` and `strings.Fields`: functions with the inverse facts that are used.
- Case folding outside ASCII, and white space outside ASCII in message frames.
- Memory: a frame may announce any length; the reader then finds the input cut short.
- Legacy HTTP+SSE upstream calls, which the configuration loader rejects.
- UpdateConverges: asks that names are not blank and that added files are new, which they are if managed files are stored under their own names and the names in use differ as file names.
- ConvergesIffSurvives: asks that no TOML file gets two servers of one name; what such servers are merged to is the subject of `CodexMerge`, and the general statement is `UpdateConverges`.
- BreaksIffDoomed: asks that the process has answered no id before it was allotted (JSON-RPC 2.0, section 5), as far as answers whose timer has fired are still queued.
- RewriteFileTwice: asks that rewritten names are plain (not blank, without quote characters).
- AgreesWithStandard: streams with a byte order mark or with CR alone as a line end are excluded, as the reader knows neither.
