/**
  The Codex file as the program handles it: one loop reads the lines and fills in server
  records through references, others collect the lines outside MCP sections and print servers.
*/
module CodexLoops {
  import opened Options
  import opened Text
  import opened Lines
  import opened Servers
  import opened Sorting
  import opened Codex

  // A server record being filled in.
  class Draft {
    var server: RawServer
    var raw: seq<string>

    constructor (name: string)
      ensures server == Blank(name) && raw == []
    {
      server, raw := Blank(name), [];
    }
  }

  // An assignment fills in a field of the record.
  method SetDraft(x: Syntax, draft: Draft, sub: string, trimmed: string) returns (ok: bool)
    modifies draft`server
    ensures ok == SetField(x, old(draft.server), sub, trimmed).Some?
    ensures draft.server == if ok then SetField(x, old(draft.server), sub, trimmed).value else old(draft.server)
  {
    hide StripComment, ParseString, TrimSpace;
    var (left, right, found) := Cut(trimmed, '=');
    if !found {
      return true;
    }
    var value := CutComment(right);
    var key := TrimSpace(left);
    value := TrimSpace(value);
    var text, s := ParseString(x, value), draft.server;
    match sub {
      case "env" => draft.server := s.(env := s.env[key := text]);
      case "headers" => draft.server := s.(headers := s.headers[key := text]);
      case "oauth" =>
        if key == "client_id" {
          draft.server := s.(oauthClientID := text);
        }
      case _ =>
        match key {
          case "type" => draft.server := s.(kind := text);
          case "auth" => draft.server := s.(auth := text);
          case "oauth_resource" => draft.server := s.(oauthResource := text);
          case "command" => draft.server := s.(command := text);
          case "url" => draft.server := s.(url := text);
          case "scopes" =>
            var values := x.parseArray(value);
            if values.None? {
              return false;
            }
            draft.server := s.(oauthScopes := values.value);
          case "args" =>
            var values := x.parseArray(value);
            if values.None? {
              return false;
            }
            draft.server := s.(args := values.value);
          case _ =>
        }
    }
    return true;
  }

  // What the records say; the lines not flushed yet belong to the open one.
  ghost function Snapshot(drafts: map<string, Draft>, current: Option<string>, pending: seq<string>): map<string, Parsed>
    reads drafts.Values
  {
    map n | n in drafts :: Parsed(drafts[n].server, drafts[n].raw + if current == Some(n) then pending else [])
  }

  // Without pending lines it does not matter which record is open.
  lemma NothingPending(drafts: map<string, Draft>, c: Option<string>, d: Option<string>)
    ensures Snapshot(drafts, c, []) == Snapshot(drafts, d, [])
  {
    forall n | n in drafts ensures Snapshot(drafts, c, [])[n] == Snapshot(drafts, d, [])[n] {
      assert drafts[n].raw + [] == drafts[n].raw;
    }
  }

  lemma OnePending(drafts: map<string, Draft>, c: Option<string>, name: string, line: string)
    requires name in drafts
    ensures var s := Snapshot(drafts, c, []);
            Snapshot(drafts, Some(name), [line]) == s[name := Parsed(s[name].server, s[name].raw + [line])]
  {
    forall n | n in drafts ensures Snapshot(drafts, c, [])[n] == Parsed(drafts[n].server, drafts[n].raw) {
      assert drafts[n].raw + [] == drafts[n].raw;
    }
    forall n | n in drafts && n != name ensures Snapshot(drafts, Some(name), [line])[n] == Parsed(drafts[n].server, drafts[n].raw) {
      assert drafts[n].raw + [] == drafts[n].raw;
    }
  }

  ghost predicate Separate(drafts: map<string, Draft>) {
    forall m, n :: m in drafts && n in drafts && m != n ==> drafts[m] != drafts[n]
  }

  function WithServer(d: Doc, name: string): Doc {
    if name in d.servers then d else d.(servers := d.servers[name := Parsed(Blank(name), [])], order := d.order + [name])
  }

  lemma OpenFound(x: Syntax, d: Doc, name: string, sub: string, line: string)
    ensures var f := WithServer(d, name);
            var servers := f.servers[name := Parsed(f.servers[name].server, f.servers[name].raw + [line])];
            Open(x, d, name, sub, line) == Doc(servers, f.order, Some(name), sub)
  {
    var none: seq<string> := [];
    assert none + [line] == [line];
  }

  class Reader {
    var drafts: map<string, Draft>
    var order: seq<string>
    var current: Option<string>
    var sub: string
    var pending: seq<string>

    ghost predicate Valid()
      reads this
    {
      && Separate(drafts)
      && (forall n :: n in order ==> n in drafts)
      && (if current.Some? then current.value in drafts else pending == [])
    }

    ghost function Value(): Doc
      reads this, drafts.Values
    {
      Doc(Snapshot(drafts, current, pending), order, current, sub)
    }

    constructor ()
      ensures Valid() && Value() == EMPTY && drafts == map[]
    {
      drafts, order, current, sub, pending := map[], [], None, "", [];
    }

    // The pending lines go to the open server.
    method FlushRaw()
      requires Valid()
      modifies this`pending, drafts.Values
      ensures Valid() && pending == [] && Value() == old(Value())
    {
      ghost var before := Value();
      if current.Some? && |pending| > 0 {
        var draft := drafts[current.value];
        draft.raw := draft.raw + pending;
      }
      pending := [];
      forall n | n in drafts ensures Value().servers[n] == before.servers[n] {
        assert old(drafts[n].raw) + [] == old(drafts[n].raw);
        assert drafts[n].raw + [] == drafts[n].raw;
      }
      assert Value().servers.Keys == before.servers.Keys;
    }

    // A record for the name, a new one if there is none.
    method FindDraft(name: string)
      requires Valid() && pending == []
      modifies this`drafts, this`order
      ensures Valid() && name in drafts && Value() == WithServer(old(Value()), name)
      ensures if name in old(drafts) then drafts == old(drafts)
              else fresh(drafts[name]) && drafts == old(drafts)[name := drafts[name]]
    {
      if name !in drafts {
        ghost var before := Value();
        var draft := new Draft(name);
        drafts := drafts[name := draft];
        order := order + [name];
        forall n | n in drafts && n != name ensures Value().servers[n] == before.servers[n] {
        }
        assert draft.raw + [] == [];
        assert Value().servers == before.servers[name := Parsed(Blank(name), [])];
      }
    }

    method OpenSection(x: Syntax, name: string, section: string, line: string)
      requires Valid() && pending == []
      modifies this
      ensures Valid() && Value() == Open(x, old(Value()), name, section, line)
      ensures if name in old(drafts) then drafts == old(drafts)
              else fresh(drafts[name]) && drafts == old(drafts)[name := drafts[name]]
    {
      hide Separate, Snapshot;
      FindDraft(name);
      OnePending(drafts, current, name, line);
      current, sub, pending := Some(name), section, [line];
      OpenFound(x, old(Value()), name, section, line);
    }

    method CloseSection()
      requires Valid()
      modifies this, drafts.Values
      ensures Valid() && drafts == old(drafts) && Value() == old(Value()).(current := None, sub := "")
    {
      hide Snapshot;
      FlushRaw();
      NothingPending(drafts, current, None);
      current, sub := None, "";
    }

    // A line of the open section.
    method AddLine(x: Syntax, line: string) returns (ok: bool)
      requires Valid() && current.Some?
      modifies this`pending, drafts.Values
      ensures Valid()
      ensures var p := old(Value().servers[current.value]);
              var s := Visit(x, p.server, sub, line);
              ok == s.Some? && (ok ==> Value() == old(Value()).(servers := old(Value().servers)[current.value := Parsed(s.value, p.raw + [line])]))
    {
      hide SetField;
      ghost var before, p := Value(), Value().servers[current.value];
      var draft, trimmed := drafts[current.value], TrimSpace(line);
      pending := pending + [line];
      assert draft.raw + pending == p.raw + [line];
      if trimmed == "" || trimmed[0] == '#' {
        ok := true;
      } else {
        ok := SetDraft(x, draft, sub, trimmed);
      }
      if ok {
        forall n | n in drafts && n != current.value ensures Value().servers[n] == before.servers[n] {
          assert drafts[n] != draft;
        }
        assert Value().servers == before.servers[current.value := Parsed(Visit(x, p.server, sub, line).value, p.raw + [line])];
      }
    }

    lemma Known()
      requires Valid()
      ensures Value().servers.Keys == drafts.Keys
    {
    }

    // The records in the order of their first sections.
    method Servers() returns (list: seq<Parsed>)
      requires Valid() && pending == []
      ensures list == Listed(Value())
    {
      list := [];
      for i := 0 to |order|
        invariant list == Listed(Value())[..i]
      {
        var draft := drafts[order[i]];
        assert draft.raw + [] == draft.raw;
        list := list + [Parsed(draft.server, draft.raw)];
      }
      assert Listed(Value())[..|order|] == Listed(Value());
    }

    method ReadLine(x: Syntax, line: string) returns (ok: bool)
      requires Valid()
      modifies this, drafts.Values
      ensures Valid() && ok == Read(x, old(Value()), line).Some?
      ensures ok ==> Value() == Read(x, old(Value()), line).value
      ensures forall n :: n in drafts ==> if n in old(drafts) then drafts[n] == old(drafts)[n] else fresh(drafts[n])
    {
      hide Visit, Open, Snapshot;
      Known();
      var trimmed := TrimSpace(line);
      var found := x.section(trimmed);
      if found.Some? {
        FlushRaw();
        OpenSection(x, found.value.0, found.value.1, line);
        ok := true;
      } else if Bracketed(trimmed) {
        CloseSection();
        ok := true;
      } else if current.None? {
        ok := true;
      } else {
        ok := AddLine(x, line);
      }
    }
  }

  /** Reading the lines one by one gives the servers of the file, or fails where reading fails. */
  method ParseLines(x: Syntax, lines: seq<string>) returns (servers: Option<seq<Parsed>>)
    ensures servers == ParseServers(x, lines)
  {
    hide Read, Listed, Snapshot;
    var r := new Reader();
    for i := 0 to |lines|
      invariant fresh(r) && r.Valid() && ReadFrom(x, EMPTY, lines[..i]) == Some(r.Value())
      invariant forall n :: n in r.drafts ==> fresh(r.drafts[n])
    {
      assert lines[..i + 1][..i] == lines[..i];
      var ok := r.ReadLine(x, lines[i]);
      if !ok {
        ReadFails(x, lines, i + 1);
        return None;
      }
    }
    assert lines[..|lines|] == lines;
    r.FlushRaw();
    var list := r.Servers();
    return Some(list);
  }

  lemma {:induction false} ReadFails(x: Syntax, lines: seq<string>, k: nat)
    requires k <= |lines| && ReadFrom(x, EMPTY, lines[..k]).None?
    ensures ReadFrom(x, EMPTY, lines).None?
    decreases |lines|
  {
    if k == |lines| {
      assert lines[..k] == lines;
    } else {
      assert lines[..|lines| - 1][..k] == lines[..k];
      ReadFails(x, lines[..|lines| - 1], k);
    }
  }

  // The other pass over the lines, and the cut of the blank ones at the end.
  method FrontLines(x: Syntax, lines: seq<string>) returns (out: seq<string>)
    ensures out == Front(Outside(x, lines))
  {
    hide TrimSpace;
    var inMCP := false;
    out := [];
    for i := 0 to |lines|
      invariant Outer(out, inMCP) == PassFrom(x, Outer([], false), lines[..i])
    {
      assert lines[..i + 1][..i] == lines[..i];
      var trimmed := TrimSpace(lines[i]);
      if x.section(trimmed).Some? {
        inMCP := true;
        continue;
      }
      if inMCP {
        if Bracketed(trimmed) {
          inMCP := false;
        } else {
          continue;
        }
      }
      if !inMCP {
        out := out + [lines[i]];
      }
    }
    assert lines[..|lines|] == lines;
    ghost var outside := out;
    while |out| > 0 && TrimSpace(out[|out| - 1]) == ""
      invariant DropBlankTail(out) == DropBlankTail(outside)
    {
      out := out[..|out| - 1];
    }
    if |out| > 0 {
      out := out + [""];
    }
  }

  method TableLines(x: Syntax, name: string, sub: string, m: map<string, string>) returns (lines: seq<string>)
    ensures lines == Table(x, name, sub, m)
  {
    hide Assign, Entries;
    lines := [];
    if m != map[] {
      lines := lines + [x.header(name, sub)];
      var keys := SortedKeys(m);
      var entries := EntryLines(x, m, keys);
      lines := lines + entries;
    }
  }

  method EntryLines(x: Syntax, m: map<string, string>, keys: seq<string>) returns (lines: seq<string>)
    requires forall i :: 0 <= i < |keys| ==> keys[i] in m
    ensures lines == Entries(x, m, keys)
  {
    hide Assign;
    lines := [];
    for i := 0 to |keys|
      invariant |lines| == i && forall k :: 0 <= k < i ==> lines[k] == Entries(x, m, keys)[k]
    {
      lines := lines + [Assign(x, keys[i], m[keys[i]])];
    }
  }

  method MainBlockLines(x: Syntax, s: RawServer) returns (lines: seq<string>)
    ensures lines == MainLines(x, s)
  {
    hide Assign;
    lines := [x.header(s.name, ""), Assign(x, "type", DefaultKind(s.kind))];
    if s.auth != "" {
      lines := lines + [Assign(x, "auth", s.auth)];
    }
    if s.oauthResource != "" {
      lines := lines + [Assign(x, "oauth_resource", s.oauthResource)];
    }
    if |s.oauthScopes| > 0 {
      lines := lines + ["scopes" + " = " + x.formatArray(s.oauthScopes)];
    }
    if s.url != "" {
      lines := lines + [Assign(x, "url", s.url)];
    } else {
      lines := lines + [Assign(x, "command", s.command)];
      if |s.args| > 0 {
        lines := lines + ["args" + " = " + x.formatArray(s.args)];
      }
    }
  }

  method BlockLines(x: Syntax, s: RawServer) returns (lines: seq<string>)
    ensures lines == Block(x, s)
  {
    hide Table, Assign, MainLines;
    lines := MainBlockLines(x, s);
    var env := TableLines(x, s.name, "env", s.env);
    var headers := TableLines(x, s.name, "headers", s.headers);
    lines := lines + env + headers;
    if s.oauthClientID != "" {
      lines := lines + [x.header(s.name, "oauth"), Assign(x, "client_id", s.oauthClientID)];
    }
  }

  method RenderLines(x: Syntax, g: Target, servers: seq<Parsed>) returns (lines: seq<string>)
    ensures lines == Render(x, g, servers)
  {
    hide Block, Rewrites, Rewritten;
    lines := [];
    for i := 0 to |servers|
      invariant lines == Render(x, g, servers[..i])
    {
      assert servers[..i + 1][..i] == servers[..i];
      if i > 0 {
        lines := lines + [""];
      }
      if Rewrites(g.w, g.ports, servers[i].server) {
        var block := BlockLines(x, Rewritten(g, servers[i].server));
        lines := lines + block;
      } else {
        lines := lines + DropEmptyTail(servers[i].raw);
      }
    }
    assert servers[..|servers|] == servers;
  }

  /** The program's rewriting of a file is the one the fixpoint theorem is about. */
  method RewriteCodexFile(x: Syntax, g: Target, data: string) returns (r: Option<string>)
    ensures r == RewriteFile(x, g, data)
  {
    var servers := ParseLines(x, Split(data));
    if servers.None? {
      return None;
    }
    var front := FrontLines(x, Split(data));
    var back := RenderLines(x, g, servers.value);
    return Some(Join(front + back) + [LF]);
  }
}
