/**
  The tools/list cache of one configuration: a record file and a `.invalidated` marker file.
  `ToolsCache` is the pair of files with the operations of the program; over any history of
  operations it behaves as one optional value with a lifetime.
*/
module ToolsCache {
  import opened Options
  import opened Text

  const VERSION := 1
  const INT64_SPAN := 0x1_0000_0000_0000_0000
  const NANOS_PER_MILLI := 1_000_000
  const MAX_EXACT_TTL := 9_223_372_036_854  // in milliseconds

  // A tools/list result: its JSON text and the metadata found in it.
  datatype ToolsResult = ToolsResult(body: string, ttlMs: Option<int>, scope: string)

  datatype Record = Record(version: int, key: string, createdAt: int, ttlMs: Option<int>, scope: string, result: ToolsResult)

  datatype Files = Files(record: Option<Record>, marker: Option<int>)

  // Two's complement: the value of an int64 computation.
  function Wrap64(x: int): int {
    var r := x % INT64_SPAN;
    if r < INT64_SPAN / 2 then r else r - INT64_SPAN
  }

  function Duration(ttlMs: int): int { Wrap64(ttlMs * NANOS_PER_MILLI) }

  function NormalScope(scope: string): string { Lower(TrimSpace(scope)) }

  predicate Reusable(scope: string) {
    NormalScope(scope) in {"", "global", "shared", "public", "user"}
  }

  predicate Expired(r: Record, now: int) {
    r.ttlMs.Some? && now >= r.createdAt + Duration(r.ttlMs.value)
  }

  // ------------------------------------------------------------------------ operations

  predicate Readable(f: Files, key: string) {
    f.record.Some? && f.record.value.version == VERSION && f.record.value.key == key
    && f.record.value.result.body != "" && Reusable(f.record.value.scope)
  }

  function AfterRead(f: Files, key: string, now: int): Files {
    if Readable(f, key) && Expired(f.record.value, now) then f.(record := None) else f
  }

  function Hit(f: Files, key: string, now: int): Option<ToolsResult> {
    if Readable(f, key) && !Expired(f.record.value, now) then Some(f.record.value.result) else None
  }

  predicate Storable(r: ToolsResult) { (r.ttlMs.Some? ==> r.ttlMs.value > 0) && Reusable(NormalScope(r.scope)) }

  function AfterWrite(key: string, r: ToolsResult, now: int): Files {
    if Storable(r) then Files(Some(Record(VERSION, key, now, r.ttlMs, NormalScope(r.scope), r)), None)
    else Files(None, None)
  }

  class Store {
    const enabled: bool
    const key: string
    var record: Option<Record>
    var marker: Option<int>

    constructor (enabled: bool, key: string)
      ensures this.enabled == enabled && this.key == key && record == None && marker == None
    {
      this.enabled, this.key, record, marker := enabled, key, None, None;
    }

    function Content(): Files
      reads this
    {
      Files(record, marker)
    }

    method Read(now: int) returns (r: Option<ToolsResult>)
      modifies this
      ensures Content() == if enabled then old(AfterRead(Content(), key, now)) else old(Content())
      ensures r == if enabled then old(Hit(Content(), key, now)) else None
    {
      r := None;
      if !enabled || record.None? {
        return;
      }
      var found := record.value;
      if found.version != VERSION || found.key != key || found.result.body == "" {
        return;
      }
      if !Reusable(found.scope) {
        return;
      }
      if Expired(found, now) {
        record := None;
        return;
      }
      r := Some(found.result);
    }

    method Write(result: ToolsResult, now: int)
      modifies this
      ensures Content() == if enabled then AfterWrite(key, result, now) else old(Content())
    {
      if !enabled {
        return;
      }
      if result.ttlMs.Some? && result.ttlMs.value <= 0 {
        record := None;
        marker := None;
        return;
      }
      var found := Record(VERSION, key, now, result.ttlMs, NormalScope(result.scope), result);
      if !Reusable(found.scope) {
        record := None;
        marker := None;
        return;
      }
      marker := None;
      record := Some(found);
    }

    method Invalidate(now: int)
      modifies this
      ensures Content() == if enabled then Files(None, Some(now)) else old(Content())
    {
      if !enabled {
        return;
      }
      record := None;
      marker := Some(now);
    }

    method Clear()
      modifies this
      ensures Content() == if enabled then Files(None, None) else old(Content())
    {
      if !enabled {
        return;
      }
      record := None;
      marker := None;
    }
  }

  // ----------------------------------------------------------- one optional value

  datatype Op = Write(result: ToolsResult) | Invalidate | Clear | Read | Tick(span: nat)

  datatype World = World(files: Files, now: int)

  function Step(key: string, w: World, op: Op): World {
    match op
    case Write(r) => w.(files := AfterWrite(key, r, w.now))
    case Invalidate => w.(files := Files(None, Some(w.now)))
    case Clear => w.(files := Files(None, None))
    case Read => w.(files := AfterRead(w.files, key, w.now))
    case Tick(span) => w.(now := w.now + span)
  }

  function RunFrom(key: string, w: World, ops: seq<Op>): World {
    if ops == [] then w else Step(key, RunFrom(key, w, ops[..|ops| - 1]), ops[|ops| - 1])
  }

  // From an empty cache.
  function Run(key: string, start: int, ops: seq<Op>): World { RunFrom(key, World(Files(None, None), start), ops) }

  // The last result written since the last invalidation or clearing, and when.
  datatype Entry = Entry(result: ToolsResult, at: int)

  function Latest(key: string, start: int, ops: seq<Op>): Option<Entry> {
    if ops == [] then None
    else
      var before := ops[..|ops| - 1];
      match ops[|ops| - 1]
      case Write(r) => Some(Entry(r, Run(key, start, before).now))
      case Invalidate => None
      case Clear => None
      case _ => Latest(key, start, before)
  }

  // When a written result may be served.
  predicate Alive(e: Entry, now: int) {
    && e.result.body != "" && Reusable(e.result.scope)
    && (e.result.ttlMs.Some? ==> e.result.ttlMs.value > 0 && now < e.at + e.result.ttlMs.value * NANOS_PER_MILLI)
  }

  predicate ExactTtls(ops: seq<Op>) {
    forall i :: 0 <= i < |ops| && ops[i].Write? && ops[i].result.ttlMs.Some? ==> ops[i].result.ttlMs.value <= MAX_EXACT_TTL
  }

  /** The int64 product of a positive TTL is exact up to 9223372036854 ms and wrong beyond. */
  lemma DurationExact(ttlMs: int)
    requires 0 < ttlMs < INT64_SPAN / 2
    ensures Duration(ttlMs) == ttlMs * NANOS_PER_MILLI <==> ttlMs <= MAX_EXACT_TTL
  {
    var product := ttlMs * NANOS_PER_MILLI;
    if ttlMs <= MAX_EXACT_TTL {
      assert product < INT64_SPAN / 2;
    } else {
      assert product >= INT64_SPAN / 2;
    }
  }

  /**
    A result with a positive TTL is served for exactly that time if and only if the TTL is at
    most 9223372036854 ms; beyond, some read misses a result that is still alive.
  */
  lemma TtlServedExactly(key: string, now: int, r: ToolsResult)
    requires Storable(r) && r.body != "" && r.ttlMs.Some? && r.ttlMs.value < INT64_SPAN / 2
    ensures r.ttlMs.value <= MAX_EXACT_TTL <==>
            forall later :: later >= now ==>
              (Hit(AfterWrite(key, r, now), key, later).Some? <==> Alive(Entry(r, now), later))
  {
    StorableReusable(r);
    DurationExact(r.ttlMs.value);
    if r.ttlMs.value > MAX_EXACT_TTL {
      var d := Duration(r.ttlMs.value);
      var later := now + if d > 0 then d else 0;
      assert Alive(Entry(r, now), later) && Hit(AfterWrite(key, r, now), key, later).None?;
    }
  }

  lemma NormalTwice(scope: string)
    ensures NormalScope(NormalScope(scope)) == NormalScope(scope)
  {
    var trimmed := TrimSpace(scope);
    var lead, tail := TrimSplit(scope, IsSpace);
    LowerTrim(trimmed);
    TrimFixed(trimmed, IsSpace);
    LowerTwice(trimmed);
  }

  // The record is the latest entry; it is missing only when that entry can no longer be served.
  ghost predicate Refines(key: string, w: World, latest: Option<Entry>) {
    && (w.files.record.Some? ==> w.files.marker.None?)
    && (latest.Some? ==> latest.value.at <= w.now)
    && match w.files.record
       case None => latest.Some? ==> !Alive(latest.value, w.now)
       case Some(r) =>
         && latest.Some? && Storable(latest.value.result)
         && r == Record(VERSION, key, latest.value.at, latest.value.result.ttlMs, NormalScope(latest.value.result.scope), latest.value.result)
  }

  lemma StorableReusable(r: ToolsResult)
    ensures Reusable(NormalScope(r.scope)) <==> Reusable(r.scope)
    ensures Reusable(NormalScope(NormalScope(r.scope))) <==> Reusable(r.scope)
  {
    NormalTwice(r.scope);
    NormalTwice(NormalScope(r.scope));
  }

  lemma HitIsAlive(key: string, w: World, latest: Option<Entry>)
    requires Refines(key, w, latest)
    requires latest.Some? && latest.value.result.ttlMs.Some? ==> latest.value.result.ttlMs.value <= MAX_EXACT_TTL
    ensures Hit(w.files, key, w.now) ==
            if latest.Some? && Alive(latest.value, w.now) then Some(latest.value.result) else None
    ensures Refines(key, w.(files := AfterRead(w.files, key, w.now)), latest)
  {
    if latest.Some? {
      StorableReusable(latest.value.result);
      var ttl := latest.value.result.ttlMs;
      if ttl.Some? && ttl.value > 0 {
        DurationExact(ttl.value);
      }
    }
  }

  lemma {:induction false} RunRefines(key: string, start: int, ops: seq<Op>)
    requires ExactTtls(ops)
    ensures Refines(key, Run(key, start, ops), Latest(key, start, ops))
    ensures var l := Latest(key, start, ops);
            l.Some? && l.value.result.ttlMs.Some? ==> l.value.result.ttlMs.value <= MAX_EXACT_TTL
  {
    if ops != [] {
      var before := ops[..|ops| - 1];
      RunRefines(key, start, before);
      match ops[|ops| - 1]
      case Write(r) => StorableReusable(r);
      case Read => HitIsAlive(key, Run(key, start, before), Latest(key, start, before));
      case _ =>
    }
  }

  /**
    After any history a read hits exactly when the last result written since the last
    invalidation or clearing may still be served, and returns that result; the record and
    the marker never exist together.
  */
  lemma CacheIsOneOptionalValue(key: string, start: int, ops: seq<Op>)
    requires ExactTtls(ops)
    ensures var w, l := Run(key, start, ops), Latest(key, start, ops);
            && Hit(w.files, key, w.now) == (if l.Some? && Alive(l.value, w.now) then Some(l.value.result) else None)
            && (w.files.record.None? || w.files.marker.None?)
  {
    RunRefines(key, start, ops);
    HitIsAlive(key, Run(key, start, ops), Latest(key, start, ops));
  }

  // -------------------------------------------------------------------- scopes that are shared

  ghost predicate SharedScope(scope: string) {
    IsWord(scope, "") || IsWord(scope, "global") || IsWord(scope, "shared") || IsWord(scope, "public") || IsWord(scope, "user")
  }

  lemma ScopeIs(scope: string, word: string)
    requires IsLower(word) && Trimmed(word, IsSpace)
    ensures NormalScope(scope) == word <==> IsWord(scope, word)
  {
    hide Lower, IsWord;
    IsWordIff(scope, word);
    LowerTrim(scope);
  }

  lemma ReusableIff(scope: string)
    ensures Reusable(scope) <==> SharedScope(scope)
  {
    hide NormalScope, IsWord;
    ScopeIs(scope, "");
    ScopeIs(scope, "global");
    ScopeIs(scope, "shared");
    ScopeIs(scope, "public");
    ScopeIs(scope, "user");
  }

  // What is stored was written, with its scope in normal form.
  lemma {:induction false} StoredIsWritten(key: string, start: int, ops: seq<Op>)
    ensures var f := Run(key, start, ops).files;
            f.record.Some? ==>
              && f.record.value.scope == NormalScope(f.record.value.result.scope)
              && Write(f.record.value.result) in ops
  {
    hide Reusable, NormalScope;
    if ops != [] {
      StoredIsWritten(key, start, ops[..|ops| - 1]);
    }
  }

  /**
    Whatever the history, only a result with one of the five shared scopes, in any case and padding, is
    ever served: none with the scope session or private is.
  */
  lemma OnlySharedServed(key: string, start: int, ops: seq<Op>)
    ensures var w := Run(key, start, ops);
            Hit(w.files, key, w.now).Some? ==>
              var r := Hit(w.files, key, w.now).value;
              Write(r) in ops && SharedScope(r.scope) && !IsWord(r.scope, "session") && !IsWord(r.scope, "private")
  {
    hide Reusable, NormalScope, IsWord, SharedScope;
    var w := Run(key, start, ops);
    StoredIsWritten(key, start, ops);
    if Hit(w.files, key, w.now).Some? {
      var r := Hit(w.files, key, w.now).value;
      StorableReusable(r);
      ReusableIff(r.scope);
      OtherScopes(r.scope);
    }
  }

  lemma OtherScopes(scope: string)
    requires SharedScope(scope)
    ensures !IsWord(scope, "session") && !IsWord(scope, "private")
  {
    hide NormalScope, IsWord;
    ReusableIff(scope);
    ScopeIs(scope, "session");
    ScopeIs(scope, "private");
  }

  /** A result that was just written is served if and only if it is not empty, its TTL is positive and its scope is shared. */
  lemma WrittenServedIff(key: string, r: ToolsResult, now: int)
    requires r.ttlMs.Some? ==> r.ttlMs.value <= MAX_EXACT_TTL
    ensures Hit(AfterWrite(key, r, now), key, now)
         == if r.body != "" && (r.ttlMs.Some? ==> r.ttlMs.value > 0) && SharedScope(r.scope) then Some(r) else None
  {
    hide Reusable, NormalScope, SharedScope;
    StorableReusable(r);
    ReusableIff(r.scope);
    if r.ttlMs.Some? && r.ttlMs.value > 0 {
      DurationExact(r.ttlMs.value);
    }
  }

  // ------------------------------------------------------------------- records of others

  // Not what this version writes for the configuration.
  predicate Foreign(r: Record, key: string) { r.version != VERSION || r.key != key || r.result.body == "" }

  // The record was there before, or was written.
  lemma {:induction false} RecordFrom(key: string, w: World, ops: seq<Op>)
    ensures var f, g := w.files, RunFrom(key, w, ops).files;
            g.record.Some? ==> g.record == f.record || (g.record.value.version == VERSION && g.record.value.key == key && Write(g.record.value.result) in ops)
  {
    hide Readable, Expired, Storable;
    if ops != [] {
      RecordFrom(key, w, ops[..|ops| - 1]);
    }
  }

  /**
    Whatever files another version or another configuration has left, they are never served: a read hits
    only what was written since.
  */
  lemma ForeignNeverServed(key: string, w: World, ops: seq<Op>)
    requires w.files.record.Some? ==> Foreign(w.files.record.value, key)
    ensures var t := RunFrom(key, w, ops);
            && (Hit(t.files, key, t.now).Some? ==> Write(Hit(t.files, key, t.now).value) in ops)
            && Hit(w.files, key, w.now).None? && AfterRead(w.files, key, w.now) == w.files
  {
    hide Expired, Reusable;
    RecordFrom(key, w, ops);
  }

  /** A read removes what it does not serve because of its age: what is left after it, and can be read at all, is served. */
  lemma ReadCleans(key: string, f: Files, now: int)
    ensures var g := AfterRead(f, key, now);
            && Hit(g, key, now) == Hit(f, key, now) && g.marker == f.marker
            && (g.record.Some? && !Foreign(g.record.value, key) && SharedScope(g.record.value.scope) ==> Hit(g, key, now) == Some(g.record.value.result))
            && (g.record.Some? ==> g.record == f.record)
            && (f.record.Some? && g.record.None? ==> !Foreign(f.record.value, key) && Expired(f.record.value, now))
  {
    hide Reusable, SharedScope, Expired;
    if f.record.Some? {
      ReusableIff(f.record.value.scope);
    }
  }
}
