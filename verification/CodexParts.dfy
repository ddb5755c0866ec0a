/**
  Reading and printing a Codex file: what is read of each server is said by its own lines, a printed
  server is read back, and each line of the file is accounted for exactly once.
*/
module CodexParts {
  import opened Options
  import opened Text
  import opened Lines
  import opened Servers
  import opened Sorting
  import opened Codex
  import opened Sequences

  // ------------------------------------------------------------------- reading in pieces

  lemma {:induction false} ReadAppend(x: Syntax, d: Doc, a: seq<string>, b: seq<string>)
    ensures ReadFrom(x, d, a + b)
         == if ReadFrom(x, d, a).None? then None else ReadFrom(x, ReadFrom(x, d, a).value, b)
  {
    hide Read;
    if b == [] {
      assert a + b == a;
    } else {
      assert (a + b)[..|a + b| - 1] == a + b[..|b| - 1];
      ReadAppend(x, d, a, b[..|b| - 1]);
    }
  }

  lemma {:induction false} PassAppend(x: Syntax, o: Outer, a: seq<string>, b: seq<string>)
    ensures PassFrom(x, o, a + b) == PassFrom(x, PassFrom(x, o, a), b)
  {
    hide Pass;
    if b == [] {
      assert a + b == a;
    } else {
      assert (a + b)[..|a + b| - 1] == a + b[..|b| - 1];
      PassAppend(x, o, a, b[..|b| - 1]);
    }
  }

  // What the lines of one server say on their own.
  datatype Section = Section(server: RawServer, sub: string)

  function Follow(x: Syntax, f: Section, line: string): Option<Section> {
    var m := x.section(TrimSpace(line));
    if m.Some? then Some(Section(f.server, m.value.1))
    else
      var s := Visit(x, f.server, f.sub, line);
      if s.None? then None else Some(Section(s.value, f.sub))
  }

  function FollowFrom(x: Syntax, f: Section, lines: seq<string>): Option<Section> {
    if lines == [] then Some(f)
    else
      var before := FollowFrom(x, f, lines[..|lines| - 1]);
      if before.None? then None else Follow(x, before.value, lines[|lines| - 1])
  }

  lemma {:induction false} FollowAppend(x: Syntax, f: Section, a: seq<string>, b: seq<string>)
    ensures FollowFrom(x, f, a + b)
         == if FollowFrom(x, f, a).None? then None else FollowFrom(x, FollowFrom(x, f, a).value, b)
  {
    hide Follow;
    if b == [] {
      assert a + b == a;
    } else {
      assert (a + b)[..|a + b| - 1] == a + b[..|b| - 1];
      FollowAppend(x, f, a, b[..|b| - 1]);
    }
  }

  predicate IsSection(x: Syntax, line: string) { x.section(TrimSpace(line)).Some? }

  // A line that may stand in a section of the server: a section line of its own, or no section line at all.
  predicate OwnLine(x: Syntax, name: string, line: string) {
    if IsSection(x, line) then x.section(TrimSpace(line)).value.0 == name else !Bracketed(TrimSpace(line))
  }

  ghost predicate Own(x: Syntax, name: string, raw: seq<string>) {
    raw != [] && IsSection(x, raw[0]) && forall i :: 0 <= i < |raw| ==> OwnLine(x, name, raw[i])
  }

  // The lines belong to the server and say what its fields are.
  ghost predicate Says(x: Syntax, raw: seq<string>, s: RawServer) {
    && Own(x, s.name, raw)
    && FollowFrom(x, Section(Blank(s.name), ""), raw).Some?
    && FollowFrom(x, Section(Blank(s.name), ""), raw).value.server == s
  }

  predicate GoodKey(key: string) {
    Trimmed(key, IsSpace) && '=' !in key && LF !in key && (key != "" ==> key[0] != '#')
  }

  ghost predicate GoodKeys(m: map<string, string>) { forall k :: k in m ==> GoodKey(k) }

  // --------------------------------------------------------------- what reading keeps

  ghost predicate ServerOk(x: Syntax, d: Doc, n: string) {
    n in d.servers ==>
      && d.servers[n].server.name == n && Says(x, d.servers[n].raw, d.servers[n].server)
      && (d.current == Some(n) ==> FollowFrom(x, Section(Blank(n), ""), d.servers[n].raw).value.sub == d.sub)
      && NoBreaks(d.servers[n].raw) && GoodKeys(d.servers[n].server.env) && GoodKeys(d.servers[n].server.headers)
  }

  ghost predicate DocOk(x: Syntax, d: Doc) {
    && Distinct(d.order) && (forall n :: n in d.order <==> n in d.servers)
    && (d.current.Some? ==> d.current.value in d.servers)
    && forall n: string :: ServerOk(x, d, n)
  }

  lemma KeyIsGood(trimmed: string, left: string, right: string)
    requires Trimmed(trimmed, IsSpace) && trimmed != "" && trimmed[0] != '#' && LF !in trimmed
    requires trimmed == left + "=" + right && '=' !in left
    ensures GoodKey(TrimSpace(left))
  {
    var lead, tail := TrimSplit(left, IsSpace);
    var key := TrimSpace(left);
    assert forall c :: c in key ==> c in lead + key + tail;
    assert forall c :: c in left ==> c in trimmed;
    if key != "" {
      NoLead(lead, key + tail, right, trimmed);
      assert key[0] == left[0] == trimmed[0];
    }
  }

  lemma NoLead(lead: string, rest: string, right: string, s: string)
    requires s == lead + rest + "=" + right && !IsSpace(s[0]) && AllCut(lead, IsSpace)
    ensures lead == []
  {
  }

  lemma VisitKeeps(x: Syntax, s: RawServer, sub: string, line: string)
    requires LF !in line && GoodKeys(s.env) && GoodKeys(s.headers) && Visit(x, s, sub, line).Some?
    ensures Visit(x, s, sub, line).value.name == s.name
    ensures GoodKeys(Visit(x, s, sub, line).value.env) && GoodKeys(Visit(x, s, sub, line).value.headers)
  {
    hide SetField;
    var trimmed := TrimSpace(line);
    var lead, tail := TrimSplit(line, IsSpace);
    assert forall c :: c in trimmed ==> c in lead + trimmed + tail;
    if trimmed != "" && trimmed[0] != '#' {
      SetFieldKeeps(x, s, sub, trimmed);
    }
  }

  lemma SetFieldKeeps(x: Syntax, s: RawServer, sub: string, trimmed: string)
    requires Trimmed(trimmed, IsSpace) && trimmed != "" && trimmed[0] != '#' && LF !in trimmed
    requires GoodKeys(s.env) && GoodKeys(s.headers) && SetField(x, s, sub, trimmed).Some?
    ensures SetField(x, s, sub, trimmed).value.name == s.name
    ensures GoodKeys(SetField(x, s, sub, trimmed).value.env) && GoodKeys(SetField(x, s, sub, trimmed).value.headers)
  {
    hide GoodKey, StripComment, ParseString, TrimSpace, Trimmed, Cut;
    if Cut(trimmed, '=').2 {
      KeyIsGood(trimmed, Cut(trimmed, '=').0, Cut(trimmed, '=').1);
    }
  }

  lemma OpenOk(x: Syntax, d: Doc, name: string, sub: string, line: string)
    requires DocOk(x, d) && LF !in line && x.section(TrimSpace(line)) == Some((name, sub))
    ensures DocOk(x, Open(x, d, name, sub, line))
  {
    hide Visit, GoodKeys;
    var d' := Open(x, d, name, sub, line);
    forall n: string ensures ServerOk(x, d', n) {
      assert ServerOk(x, d, n);
      if n == name {
        OpenedOk(x, d, name, sub, line);
      }
    }
  }

  // One more line of a server.
  lemma FollowMore(x: Syntax, name: string, before: seq<string>, line: string)
    requires FollowFrom(x, Section(Blank(name), ""), before).Some? && OwnLine(x, name, line)
    requires if before == [] then IsSection(x, line) else Own(x, name, before)
    ensures Own(x, name, before + [line])
    ensures FollowFrom(x, Section(Blank(name), ""), before + [line])
         == Follow(x, FollowFrom(x, Section(Blank(name), ""), before).value, line)
  {
    hide Follow, OwnLine;
    assert (before + [line])[..|before|] == before;
  }

  lemma OpenedOk(x: Syntax, d: Doc, name: string, sub: string, line: string)
    requires DocOk(x, d) && LF !in line && x.section(TrimSpace(line)) == Some((name, sub))
    ensures ServerOk(x, Open(x, d, name, sub, line), name)
  {
    hide Visit, Own, GoodKeys;
    assert ServerOk(x, d, name);
    FollowMore(x, name, if name in d.servers then d.servers[name].raw else [], line);
    assert GoodKeys(map[]) by { NoKeys(); }
  }

  lemma NoKeys()
    ensures GoodKeys(map[])
  {
  }

  lemma LineOk(x: Syntax, d: Doc, line: string)
    requires DocOk(x, d) && LF !in line && !IsSection(x, line) && !Bracketed(TrimSpace(line))
    requires d.current.Some? && Read(x, d, line).Some?
    ensures DocOk(x, Read(x, d, line).value)
  {
    hide Visit, GoodKeys;
    var name := d.current.value;
    var d' := Read(x, d, line).value;
    assert ServerOk(x, d, name);
    VisitKeeps(x, d.servers[name].server, d.sub, line);
    FollowMore(x, name, d.servers[name].raw, line);
    forall n: string ensures ServerOk(x, d', n) {
      assert ServerOk(x, d, n);
    }
  }

  lemma ReadOk(x: Syntax, d: Doc, line: string)
    requires DocOk(x, d) && LF !in line && Read(x, d, line).Some?
    ensures DocOk(x, Read(x, d, line).value)
  {
    hide Visit, Says, Open;
    if IsSection(x, line) {
      OpenOk(x, d, x.section(TrimSpace(line)).value.0, x.section(TrimSpace(line)).value.1, line);
    } else if Bracketed(TrimSpace(line)) {
      forall n: string ensures ServerOk(x, d.(current := None, sub := ""), n) {
        assert ServerOk(x, d, n);
      }
    } else if d.current.Some? {
      LineOk(x, d, line);
    }
  }

  /** Each server that is read has its own lines, which on their own say the same about it. */
  lemma {:induction false} ReadFromOk(x: Syntax, lines: seq<string>)
    requires NoBreaks(lines) && ReadFrom(x, EMPTY, lines).Some?
    ensures DocOk(x, ReadFrom(x, EMPTY, lines).value)
  {
    hide Read, ServerOk;
    if lines == [] {
      assert forall n: string :: ServerOk(x, EMPTY, n) by { NothingRead(x); }
    } else {
      ReadFromOk(x, lines[..|lines| - 1]);
      ReadOk(x, ReadFrom(x, EMPTY, lines[..|lines| - 1]).value, lines[|lines| - 1]);
    }
  }

  lemma NothingRead(x: Syntax)
    ensures forall n: string :: ServerOk(x, EMPTY, n)
  {
  }

  // ------------------------------------------------------------------- rendered servers

  lemma SpaceFirst(q: string)
    requires CommentAt(q, false, false).None?
    ensures StripComment(" " + q) == " " + q
  {
    assert (" " + q)[1..] == q;
  }

  // A rendered assignment, cut up again.
  lemma CutLine(key: string, q: string)
    requires GoodKey(key) && q != "" && !IsSpace(q[0]) && !IsSpace(q[|q| - 1]) && CommentAt(q, false, false).None?
    ensures var t := TrimSpace(key + " = " + q);
            && t != "" && t[0] == (if key != "" then key[0] else '=') && t[|t| - 1] == q[|q| - 1] && t[0] != '#'
            && Cut(t, '=').2 && TrimSpace(Cut(t, '=').0) == key && TrimSpace(StripComment(Cut(t, '=').1)) == q
  {
    hide Cut, StripComment, CommentAt, TrimLeft, TrimRight;
    var value := " " + q;
    SpaceFirst(q);
    TrimPadded(" ", q, "", IsSpace);
    assert value + "" == value;
    if key != "" {
      var left := key + " ";
      assert key + " = " + q == left + ['='] + value;
      TrimFixed(left + ['='] + value, IsSpace);
      CutFirst(left, '=', value);
      TrimPadded("", key, " ", IsSpace);
      assert "" + key + " " == left;
    } else {
      var rest := ['='] + value;
      assert key + " = " + q == " " + rest + "";
      TrimPadded(" ", rest, "", IsSpace);
      assert rest == "" + ['='] + value;
      CutFirst("", '=', value);
      TrimFixed("", IsSpace);
    }
  }

  // The line does not open a section and sets the key to the text.
  ghost predicate Sets(x: Syntax, line: string, key: string, text: string) {
    var t := TrimSpace(line);
    && LF !in line && line != "" && !IsSection(x, line) && !Bracketed(t) && t != "" && t[0] != '#'
    && Cut(t, '=').2 && TrimSpace(Cut(t, '=').0) == key
    && ParseString(x, TrimSpace(StripComment(Cut(t, '=').1))) == text
  }

  ghost predicate SetsArray(x: Syntax, line: string, key: string, values: seq<string>) {
    var t := TrimSpace(line);
    && LF !in line && line != "" && !IsSection(x, line) && !Bracketed(t) && t != "" && t[0] != '#'
    && Cut(t, '=').2 && TrimSpace(Cut(t, '=').0) == key
    && x.parseArray(TrimSpace(StripComment(Cut(t, '=').1))) == Some(values)
  }

  lemma AssignSets(x: Syntax, key: string, value: string)
    requires SyntaxFacts(x) && GoodKey(key)
    ensures Sets(x, Assign(x, key, value), key, value)
  {
    var q := x.quote(value);
    assert Literal(q, '"', '"') && x.unquote(q) == Some(value);
    CutLine(key, q);
    TrimFixed(q, IsSpace);
  }

  lemma ArraySets(x: Syntax, key: string, values: seq<string>)
    requires SyntaxFacts(x) && values != [] && (key == "scopes" || key == "args")
    ensures SetsArray(x, key + " = " + x.formatArray(values), key, values)
  {
    var q := x.formatArray(values);
    assert Literal(q, '[', ']') && x.parseArray(q) == Some(values);
    CutLine(key, q);
  }

  // Following the lines, all of the server, leads from one state to another.
  ghost predicate Goes(x: Syntax, n: string, f: Section, lines: seq<string>, g: Section) {
    && FollowFrom(x, f, lines) == Some(g) && NoBreaks(lines)
    && forall i :: 0 <= i < |lines| ==> OwnLine(x, n, lines[i]) && lines[i] != ""
  }

  lemma Chain(x: Syntax, n: string, f: Section, a: seq<string>, g: Section, b: seq<string>, h: Section)
    requires Goes(x, n, f, a, g) && Goes(x, n, g, b, h)
    ensures Goes(x, n, f, a + b, h)
  {
    hide OwnLine;
    FollowAppend(x, f, a, b);
  }

  lemma GoesOne(x: Syntax, n: string, f: Section, line: string, g: Section)
    requires Follow(x, f, line) == Some(g) && OwnLine(x, n, line) && line != "" && LF !in line
    ensures Goes(x, n, f, [line], g)
  {
    hide OwnLine, Follow;
    assert [line][..0] == [];
    assert FollowFrom(x, f, [line]) == Follow(x, f, line);
  }

  lemma GoesHeader(x: Syntax, n: string, s: RawServer, sub: string, sub': string)
    requires SyntaxFacts(x) && PlainName(n) && Subsection(sub')
    ensures Goes(x, n, Section(s, sub), [x.header(n, sub')], Section(s, sub'))
    ensures IsSection(x, x.header(n, sub'))
  {
    var line := x.header(n, sub');
    assert x.section(line) == Some((n, sub'));
    assert Bracketed(line);
    TrimFixed(line, IsSpace);
    GoesOne(x, n, Section(s, sub), line, Section(s, sub'));
  }

  // A main-section assignment of each kind.
  function SetMain(s: RawServer, key: string, text: string): RawServer {
    if key == "type" then s.(kind := text)
    else if key == "auth" then s.(auth := text)
    else if key == "oauth_resource" then s.(oauthResource := text)
    else if key == "command" then s.(command := text)
    else if key == "url" then s.(url := text)
    else s
  }

  lemma GoesMain(x: Syntax, n: string, s: RawServer, key: string, value: string)
    requires SyntaxFacts(x) && key in ["type", "auth", "oauth_resource", "command", "url"]
    ensures Goes(x, n, Section(s, ""), [Assign(x, key, value)], Section(SetMain(s, key, value), ""))
  {
    TrimFixed(key, IsSpace);
    hide SyntaxFacts, ParseString, StripComment, Cut, TrimSpace, Bracketed, Assign;
    AssignSets(x, key, value);
    GoesOne(x, n, Section(s, ""), Assign(x, key, value), Section(SetMain(s, key, value), ""));
  }

  lemma GoesOptional(x: Syntax, n: string, s: RawServer, key: string, value: string)
    requires SyntaxFacts(x) && key in ["auth", "oauth_resource"]
    ensures Goes(x, n, Section(s, ""), Optional(x, key, value), Section(if value == "" then s else SetMain(s, key, value), ""))
  {
    if value != "" {
      GoesMain(x, n, s, key, value);
    }
  }

  function SetArray(s: RawServer, key: string, values: seq<string>): RawServer {
    if key == "scopes" then s.(oauthScopes := values) else s.(args := values)
  }

  lemma GoesArray(x: Syntax, n: string, s: RawServer, key: string, values: seq<string>)
    requires SyntaxFacts(x) && (key == "scopes" || key == "args")
    ensures Goes(x, n, Section(s, ""), OptionalArray(x, key, values), Section(if values == [] then s else SetArray(s, key, values), ""))
  {
    hide SyntaxFacts, ParseString, StripComment, Cut, TrimSpace, Bracketed;
    if values != [] {
      var line := key + " = " + x.formatArray(values);
      ArraySets(x, key, values);
      GoesOne(x, n, Section(s, ""), line, Section(SetArray(s, key, values), ""));
    }
  }

  function SetTable(s: RawServer, sub: string, m: map<string, string>): RawServer {
    if sub == "env" then s.(env := m) else s.(headers := m)
  }

  lemma GoesEntry(x: Syntax, n: string, s: RawServer, sub: string, m: map<string, string>, key: string, value: string)
    requires SyntaxFacts(x) && (sub == "env" || sub == "headers") && GoodKey(key)
    ensures Goes(x, n, Section(SetTable(s, sub, m), sub), [Assign(x, key, value)], Section(SetTable(s, sub, m[key := value]), sub))
  {
    AssignSets(x, key, value);
    hide SyntaxFacts, ParseString, StripComment, Cut, TrimSpace, Bracketed, Assign, GoodKey;
    GoesOne(x, n, Section(SetTable(s, sub, m), sub), Assign(x, key, value), Section(SetTable(s, sub, m[key := value]), sub));
  }

  function Only(m: map<string, string>, keys: seq<string>): map<string, string> { map k | k in m && k in keys :: m[k] }

  lemma {:induction false} GoesEntries(x: Syntax, n: string, s: RawServer, sub: string, base: map<string, string>,
                                       m: map<string, string>, keys: seq<string>)
    requires SyntaxFacts(x) && (sub == "env" || sub == "headers") && GoodKeys(m) && forall i :: 0 <= i < |keys| ==> keys[i] in m
    ensures Goes(x, n, Section(SetTable(s, sub, base), sub), Entries(x, m, keys), Section(SetTable(s, sub, base + Only(m, keys)), sub))
  {
    hide SyntaxFacts, OwnLine, Follow, Assign, GoodKey, SetTable;
    if keys == [] {
      assert base + Only(m, keys) == base;
    } else {
      var i := |keys| - 1;
      var init, k := keys[..i], keys[i];
      GoesEntries(x, n, s, sub, base, m, init);
      GoesEntry(x, n, s, sub, base + Only(m, init), k, m[k]);
      assert Entries(x, m, keys) == Entries(x, m, init) + [Assign(x, k, m[k])];
      assert (base + Only(m, init))[k := m[k]] == base + Only(m, keys);
      Chain(x, n, Section(SetTable(s, sub, base), sub), Entries(x, m, init), Section(SetTable(s, sub, base + Only(m, init)), sub),
            [Assign(x, k, m[k])], Section(SetTable(s, sub, base + Only(m, keys)), sub));
    }
  }

  lemma GoesTable(x: Syntax, n: string, s: RawServer, sub: string, sub': string, base: map<string, string>, m: map<string, string>)
    returns (g: Section)
    requires SyntaxFacts(x) && PlainName(n) && (sub' == "env" || sub' == "headers") && GoodKeys(m) && SetTable(s, sub', base) == s
    ensures Goes(x, n, Section(s, sub), Table(x, n, sub', m), g) && g.server == SetTable(s, sub', base + m)
  {
    hide SyntaxFacts, Goes, GoodKeys, Entries, SetTable;
    if m == map[] {
      g := Section(s, sub);
      assert base + m == base;
      GoesNowhere(x, n, g);
    } else {
      g := Section(SetTable(s, sub', base + m), sub');
      GoesHeader(x, n, s, sub, sub');
      WholeTable(x, n, s, sub', base, m);
      Chain(x, n, Section(s, sub), [x.header(n, sub')], Section(s, sub'), Entries(x, m, Ascending(m.Keys)), g);
    }
  }

  lemma WholeTable(x: Syntax, n: string, s: RawServer, sub: string, base: map<string, string>, m: map<string, string>)
    requires SyntaxFacts(x) && (sub == "env" || sub == "headers") && GoodKeys(m) && SetTable(s, sub, base) == s
    ensures Goes(x, n, Section(s, sub), Entries(x, m, Ascending(m.Keys)), Section(SetTable(s, sub, base + m), sub))
  {
    hide SyntaxFacts, Goes, GoodKeys, Entries, SetTable;
    var keys := Ascending(m.Keys);
    assert Only(m, keys) == m;
    GoesEntries(x, n, s, sub, base, m, keys);
  }

  // The servers that are rendered faithfully.
  ghost predicate Renderable(s: RawServer) {
    && PlainName(s.name) && GoodKeys(s.env) && GoodKeys(s.headers) && s.kind != ""
    && (s.url != "" ==> s.command == "" && s.args == [])
  }

  // A server whose lines are followed by those of another one: what they set replaces what was there.
  function Over(s: RawServer, t: RawServer): RawServer {
    OverMain(s, t).(oauthClientID := if t.oauthClientID == "" then s.oauthClientID else t.oauthClientID,
                    env := s.env + t.env, headers := s.headers + t.headers)
  }

  function OverMain(s: RawServer, t: RawServer): RawServer {
    s.(kind := t.kind, auth := if t.auth == "" then s.auth else t.auth,
       oauthResource := if t.oauthResource == "" then s.oauthResource else t.oauthResource,
       oauthScopes := if t.oauthScopes == [] then s.oauthScopes else t.oauthScopes,
       url := if t.url == "" then s.url else t.url,
       command := if t.url == "" then t.command else s.command,
       args := if t.url == "" && t.args != [] then t.args else s.args)
  }

  lemma GoesMainLines(x: Syntax, s: RawServer, sub: string, t: RawServer)
    requires SyntaxFacts(x) && Renderable(t)
    ensures Goes(x, t.name, Section(s, sub), MainLines(x, t), Section(OverMain(s, t), ""))
  {
    hide SyntaxFacts, Goes, GoodKeys, Assign;
    var n, f := t.name, Section(s, sub);
    var s1 := s.(kind := t.kind);
    var s2 := if t.auth == "" then s1 else s1.(auth := t.auth);
    var s3 := if t.oauthResource == "" then s2 else s2.(oauthResource := t.oauthResource);
    var s4 := if t.oauthScopes == [] then s3 else s3.(oauthScopes := t.oauthScopes);
    var l1, l2, l3, l4 := [x.header(n, ""), Assign(x, "type", t.kind)], Optional(x, "auth", t.auth),
                          Optional(x, "oauth_resource", t.oauthResource), OptionalArray(x, "scopes", t.oauthScopes);
    GoesHeader(x, n, s, sub, "");
    GoesMain(x, n, s, "type", t.kind);
    Chain(x, n, f, [x.header(n, "")], Section(s, ""), [Assign(x, "type", t.kind)], Section(s1, ""));
    assert [x.header(n, "")] + [Assign(x, "type", t.kind)] == l1;
    GoesOptional(x, n, s1, "auth", t.auth);
    Chain(x, n, f, l1, Section(s1, ""), l2, Section(s2, ""));
    GoesOptional(x, n, s2, "oauth_resource", t.oauthResource);
    Chain(x, n, f, l1 + l2, Section(s2, ""), l3, Section(s3, ""));
    GoesArray(x, n, s3, "scopes", t.oauthScopes);
    Chain(x, n, f, l1 + l2 + l3, Section(s3, ""), l4, Section(s4, ""));
    GoesBackend(x, s4, t, f, l1 + l2 + l3 + l4);
  }

  lemma GoesBackend(x: Syntax, s: RawServer, t: RawServer, f: Section, lines: seq<string>)
    requires SyntaxFacts(x) && Renderable(t) && Goes(x, t.name, f, lines, Section(s, ""))
    ensures var back := if t.url != "" then [Assign(x, "url", t.url)] else [Assign(x, "command", t.command)] + OptionalArray(x, "args", t.args);
            Goes(x, t.name, f, lines + back, Section(
              if t.url != "" then s.(url := t.url) else s.(command := t.command, args := if t.args == [] then s.args else t.args), ""))
  {
    hide SyntaxFacts, Goes, GoodKeys, Assign;
    var n := t.name;
    if t.url != "" {
      GoesMain(x, n, s, "url", t.url);
      Chain(x, n, f, lines, Section(s, ""), [Assign(x, "url", t.url)], Section(s.(url := t.url), ""));
    } else {
      var s5 := s.(command := t.command);
      var s6 := if t.args == [] then s5 else s5.(args := t.args);
      GoesMain(x, n, s, "command", t.command);
      GoesArray(x, n, s5, "args", t.args);
      Chain(x, n, Section(s, ""), [Assign(x, "command", t.command)], Section(s5, ""), OptionalArray(x, "args", t.args), Section(s6, ""));
      Chain(x, n, f, lines, Section(s, ""), [Assign(x, "command", t.command)] + OptionalArray(x, "args", t.args), Section(s6, ""));
    }
  }

  lemma GoesClientID(x: Syntax, n: string, s: RawServer, id: string)
    requires SyntaxFacts(x)
    ensures Goes(x, n, Section(s, "oauth"), [Assign(x, "client_id", id)], Section(s.(oauthClientID := id), "oauth"))
  {
    hide SyntaxFacts, Assign, Visit, Goes;
    TrimFixed("client_id", IsSpace);
    AssignSets(x, "client_id", id);
    VisitClientID(x, s, Assign(x, "client_id", id), id);
    GoesOne(x, n, Section(s, "oauth"), Assign(x, "client_id", id), Section(s.(oauthClientID := id), "oauth"));
  }

  lemma VisitClientID(x: Syntax, s: RawServer, line: string, id: string)
    requires Sets(x, line, "client_id", id)
    ensures Visit(x, s, "oauth", line) == Some(s.(oauthClientID := id))
  {
    hide ParseString, StripComment, Cut, TrimSpace, Bracketed;
  }

  lemma GoesNowhere(x: Syntax, n: string, f: Section)
    ensures Goes(x, n, f, [], f)
  {
  }

  lemma GoesOAuth(x: Syntax, n: string, s: RawServer, sub: string, t: RawServer) returns (g: Section)
    requires SyntaxFacts(x) && PlainName(n) && t.name == n
    ensures Goes(x, n, Section(s, sub), OAuthLines(x, t), g)
    ensures g.server == if t.oauthClientID == "" then s else s.(oauthClientID := t.oauthClientID)
  {
    hide SyntaxFacts, Goes, Assign;
    var id := t.oauthClientID;
    if id == "" {
      g := Section(s, sub);
      GoesNowhere(x, n, g);
    } else {
      g := Section(s.(oauthClientID := id), "oauth");
      GoesHeader(x, n, s, sub, "oauth");
      GoesClientID(x, n, s, id);
      assert OAuthLines(x, t) == [x.header(n, "oauth")] + [Assign(x, "client_id", id)];
      Chain(x, n, Section(s, sub), [x.header(n, "oauth")], Section(s, "oauth"), [Assign(x, "client_id", id)], g);
    }
  }

  /** Following the lines of a rendered server puts it over what was there. */
  lemma BlockOver(x: Syntax, s: RawServer, sub: string, t: RawServer) returns (g: Section)
    requires SyntaxFacts(x) && Renderable(t)
    ensures Goes(x, t.name, Section(s, sub), Block(x, t), g) && g.server == Over(s, t)
  {
    hide SyntaxFacts, Goes, GoodKeys, OwnLine, Assign;
    var n, f := t.name, Section(s, sub);
    var s1 := OverMain(s, t);
    GoesMainLines(x, s, sub, t);
    var g2 := GoesTable(x, n, s1, "", "env", s.env, t.env);
    Chain(x, n, f, MainLines(x, t), Section(s1, ""), Table(x, n, "env", t.env), g2);
    var g3 := GoesTable(x, n, g2.server, g2.sub, "headers", s.headers, t.headers);
    Chain(x, n, f, MainLines(x, t) + Table(x, n, "env", t.env), g2, Table(x, n, "headers", t.headers), g3);
    g := GoesOAuth(x, n, g3.server, g3.sub, t);
    Chain(x, n, f, MainLines(x, t) + Table(x, n, "env", t.env) + Table(x, n, "headers", t.headers), g3, OAuthLines(x, t), g);
  }

  /** Reading a rendered server gives the server back. */
  lemma BlockRoundTrip(x: Syntax, s: RawServer)
    requires SyntaxFacts(x) && Renderable(s)
    ensures Says(x, Block(x, s), s) && NoBreaks(Block(x, s)) && DropEmptyTail(Block(x, s)) == Block(x, s) && "" !in Block(x, s)
  {
    hide SyntaxFacts, Goes, GoodKeys, Block;
    var none: map<string, string> := map[];
    assert none + s.env == s.env && none + s.headers == s.headers;
    var g := BlockOver(x, Blank(s.name), "", s);
    assert Over(Blank(s.name), s) == s;
    GoesSays(x, s, Section(Blank(s.name), ""), g);
  }

  /** A server without a kind is written, and read back, as one of kind stdio. */
  lemma BlankKind(x: Syntax, s: RawServer)
    requires SyntaxFacts(x) && s.kind == "" && Renderable(s.(kind := "stdio"))
    ensures Says(x, Block(x, s), s.(kind := "stdio"))
  {
    hide SyntaxFacts, Says, NoBreaks, DropEmptyTail;
    assert Block(x, s) == Block(x, s.(kind := "stdio"));
    BlockRoundTrip(x, s.(kind := "stdio"));
  }

  lemma GoesSays(x: Syntax, s: RawServer, f: Section, g: Section)
    requires SyntaxFacts(x) && PlainName(s.name) && f == Section(Blank(s.name), "") && g.server == s
    requires Goes(x, s.name, f, Block(x, s), g)
    ensures Says(x, Block(x, s), s) && NoBreaks(Block(x, s)) && DropEmptyTail(Block(x, s)) == Block(x, s) && "" !in Block(x, s)
  {
    assert Block(x, s)[0] == x.header(s.name, "");
    GoesHeader(x, s.name, Blank(s.name), "", "");
    hide SyntaxFacts, OwnLine, Assign, Block;
  }

  // -------------------------------------------------------------- accounting for the lines

  function Raws(servers: map<string, Parsed>, order: seq<string>): multiset<string> {
    if order == [] then multiset{}
    else
      var n := order[|order| - 1];
      Raws(servers, order[..|order| - 1]) + if n in servers then multiset(servers[n].raw) else multiset{}
  }

  lemma {:induction false} RawsOther(servers: map<string, Parsed>, order: seq<string>, n: string, p: Parsed)
    requires n !in order
    ensures Raws(servers[n := p], order) == Raws(servers, order)
  {
    if order != [] {
      RawsOther(servers, order[..|order| - 1], n, p);
    }
  }

  lemma {:induction false} RawsMore(servers: map<string, Parsed>, order: seq<string>, n: string, s: RawServer, line: string)
    requires n in servers && n in order && Distinct(order)
    ensures Raws(servers[n := Parsed(s, servers[n].raw + [line])], order) == Raws(servers, order) + multiset{line}
  {
    var k := |order| - 1;
    var p := Parsed(s, servers[n].raw + [line]);
    assert order == order[..k] + [order[k]];
    if order[k] == n {
      RawsOther(servers, order[..k], n, p);
    } else {
      RawsMore(servers, order[..k], n, s, line);
    }
  }

  // The two passes agree on where MCP sections are, and share out the lines read so far.
  ghost predicate SharedOut(d: Doc, o: Outer, lines: seq<string>) {
    && Distinct(d.order) && (forall n :: n in d.order <==> n in d.servers)
    && (d.current.Some? ==> d.current.value in d.servers) && o.inMCP == d.current.Some?
    && multiset(lines) == multiset(o.out) + Raws(d.servers, d.order)
  }

  lemma OpenShared(x: Syntax, d: Doc, o: Outer, lines: seq<string>, name: string, sub: string, line: string)
    requires SharedOut(d, o, lines)
    ensures SharedOut(Open(x, d, name, sub, line), o.(inMCP := true), lines + [line])
  {
    if name in d.servers {
      hide Distinct;
      RawsMore(d.servers, d.order, name, d.servers[name].server, line);
    } else {
      hide Distinct;
      var none: seq<string> := [];
      assert none + [line] == [line];
      NewLast(d.order, name);
      NewShared(d, o, lines, name, sub, line);
    }
  }

  lemma NewLast(order: seq<string>, name: string)
    requires Distinct(order) && name !in order
    ensures Distinct(order + [name])
  {
  }

  lemma NewShared(d: Doc, o: Outer, lines: seq<string>, name: string, sub: string, line: string)
    requires SharedOut(d, o, lines) && name !in d.servers && Distinct(d.order + [name])
    ensures SharedOut(Doc(d.servers[name := Parsed(Blank(name), [line])], d.order + [name], Some(name), sub), o.(inMCP := true), lines + [line])
  {
    hide Distinct;
    RawsOther(d.servers, d.order, name, Parsed(Blank(name), [line]));
    assert (d.order + [name])[..|d.order|] == d.order;
  }

  lemma SharedMore(x: Syntax, d: Doc, o: Outer, lines: seq<string>, line: string)
    requires SharedOut(d, o, lines) && Read(x, d, line).Some?
    ensures SharedOut(Read(x, d, line).value, Pass(x, o, line), lines + [line])
  {
    hide Visit, Distinct, Raws, Bracketed;
    var m := x.section(TrimSpace(line));
    if m.Some? {
      OpenShared(x, d, o, lines, m.value.0, m.value.1, line);
    } else if !Bracketed(TrimSpace(line)) && d.current.Some? {
      var p := d.servers[d.current.value];
      RawsMore(d.servers, d.order, d.current.value, Visit(x, p.server, d.sub, line).value, line);
    }
  }

  lemma NothingShared()
    ensures SharedOut(EMPTY, Outer([], false), [])
  {
  }

  lemma {:induction false} SharedFrom(x: Syntax, lines: seq<string>)
    requires ReadFrom(x, EMPTY, lines).Some?
    ensures SharedOut(ReadFrom(x, EMPTY, lines).value, PassFrom(x, Outer([], false), lines), lines)
  {
    hide Read, Pass, SharedOut;
    if lines == [] {
      NothingShared();
    } else {
      var n := |lines| - 1;
      SharedFrom(x, lines[..n]);
      SharedMore(x, ReadFrom(x, EMPTY, lines[..n]).value, PassFrom(x, Outer([], false), lines[..n]), lines[..n], lines[n]);
      assert lines == lines[..n] + [lines[n]];
    }
  }

  function AllRaw(servers: seq<Parsed>): multiset<string> {
    if servers == [] then multiset{} else AllRaw(servers[..|servers| - 1]) + multiset(servers[|servers| - 1].raw)
  }

  lemma {:induction false} AllRawListed(servers: map<string, Parsed>, order: seq<string>)
    requires forall n :: n in order ==> n in servers
    ensures AllRaw(Listed(Doc(servers, order, None, ""))) == Raws(servers, order)
  {
    if order != [] {
      var k := |order| - 1;
      AllRawListed(servers, order[..k]);
      assert Listed(Doc(servers, order, None, ""))[..k] == Listed(Doc(servers, order[..k], None, ""));
    }
  }

  /** The lines outside MCP sections and the lines of all servers account for each line exactly once. */
  lemma EveryLineOnce(x: Syntax, lines: seq<string>)
    requires ParseServers(x, lines).Some?
    ensures multiset(lines) == multiset(Outside(x, lines)) + AllRaw(ParseServers(x, lines).value)
  {
    SharedFrom(x, lines);
    var d := ReadFrom(x, EMPTY, lines).value;
    AllRawListed(d.servers, d.order);
    assert Listed(d) == Listed(Doc(d.servers, d.order, None, ""));
  }
}
