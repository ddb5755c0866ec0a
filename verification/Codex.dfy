/**
  The configuration file of the Codex client: MCP servers in sections of a line-oriented format.
  Sections of one server may be interleaved with others; rewriting gathers them at the end of
  the file.  Regular expressions, quoting and JSON arrays are library routines, of which only
  the facts in `SyntaxFacts` are used.
*/
module Codex {
  import opened Options
  import opened Text
  import opened Lines
  import opened Servers
  import opened Sorting

  datatype Syntax = Syntax(
    section: string -> Option<(string, string)>,      // name and subsection of an MCP section line
    header: (string, string) -> string,               // the section line of a name and a subsection
    quote: string -> string, unquote: string -> Option<string>,
    formatArray: seq<string> -> string, parseArray: string -> Option<seq<string>>)

  // A section name that can be written and read again.
  predicate PlainName(name: string) { name != "" && '"' !in name }

  predicate Subsection(sub: string) { sub in ["", "env", "headers", "oauth"] }

  predicate Bracketed(t: string) { t != "" && t[0] == '[' && t[|t| - 1] == ']' }

  // The character at the position follows a backslash that is not escaped itself.
  predicate Escaped(s: string, i: nat)
    requires i <= |s|
  {
    i > 0 && s[i - 1] == '\\' && !Escaped(s, i - 1)
  }

  // An odd number of quotes that are not escaped come before the position.
  predicate Quoted(s: string, i: nat)
    requires i <= |s|
  {
    i > 0 && if s[i - 1] == '"' && !Escaped(s, i - 1) then !Quoted(s, i - 1) else Quoted(s, i - 1)
  }

  // A value as it is written: no line break, no open string, nothing a comment could start with outside a string.
  predicate Literal(q: string, open: char, close: char) {
    && |q| >= 2 && q[0] == open && q[|q| - 1] == close && LF !in q
    && CommentAt(q, false, false).None? && !Quoted(q, |q|)
  }

  ghost predicate SyntaxFacts(x: Syntax) {
    && (forall t: string :: x.section(t).Some? ==> Bracketed(t) && Subsection(x.section(t).value.1))
    && (forall n: string, sub: string :: PlainName(n) && Subsection(sub) ==>
          x.section(x.header(n, sub)) == Some((n, sub)) && LF !in x.header(n, sub))
    && (forall s: string :: Literal(x.quote(s), '"', '"') && x.unquote(x.quote(s)) == Some(s))
    && (forall v: seq<string> :: v != [] ==> Literal(x.formatArray(v), '[', ']') && x.parseArray(x.formatArray(v)) == Some(v))
  }

  // ----------------------------------------------------------------------------- values

  // Where a comment starts, given whether the text begins inside a string and after a backslash.
  function CommentAt(s: string, inString: bool, escaped: bool): Option<nat> {
    if s == "" then None
    else if s[0] == '#' && !inString && !escaped then Some(0)
    else
      var rest := CommentAt(s[1..], if !escaped && s[0] == '"' then !inString else inString, !escaped && s[0] == '\\');
      if rest.Some? then Some(rest.value + 1) else None
  }

  function StripComment(value: string): string {
    var i := CommentAt(value, false, false);
    if i.Some? && i.value <= |value| then TrimSpace(value[..i.value]) else value
  }

  lemma {:induction false} CommentInside(s: string, inString: bool, escaped: bool)
    ensures CommentAt(s, inString, escaped).Some? ==> CommentAt(s, inString, escaped).value < |s|
  {
    if s != "" {
      CommentInside(s[1..], if !escaped && s[0] == '"' then !inString else inString, !escaped && s[0] == '\\');
    }
  }

  // The loop over the characters, with its two flags.
  method CutComment(value: string) returns (r: string)
    ensures r == StripComment(value)
  {
    CommentInside(value, false, false);
    var inString, escaped := false, false;
    for i := 0 to |value|
      invariant CommentAt(value, false, false)
             == var rest := CommentAt(value[i..], inString, escaped); if rest.Some? then Some(rest.value + i) else None
    {
      var c := value[i];
      assert value[i..][1..] == value[i + 1..];
      if escaped {
        escaped := false;
        continue;
      }
      if c == '\\' {
        escaped := true;
        continue;
      }
      if c == '"' {
        inString := !inString;
        continue;
      }
      if c == '#' && !inString {
        return TrimSpace(value[..i]);
      }
    }
    return value;
  }

  predicate IsQuote(c: char) { c == '"' }

  function ParseString(x: Syntax, value: string): string {
    var v := TrimSpace(value);
    if |v| >= 2 && v[0] == '"' && x.unquote(v).Some? then x.unquote(v).value else Trim(v, IsQuote)
  }

  // ---------------------------------------------------------------------------- reading

  // A server and the lines of its sections.
  datatype Parsed = Parsed(server: RawServer, raw: seq<string>)

  // The servers read so far, in the order of their first sections, and the open section.
  datatype Doc = Doc(servers: map<string, Parsed>, order: seq<string>, current: Option<string>, sub: string)

  const EMPTY := Doc(map[], [], None, "")

  function Blank(name: string): RawServer { RawServer(name, "", "", "", "", [], "", [], map[], "", map[]) }

  // An assignment in a section; an array that does not parse is an error.
  function SetField(x: Syntax, s: RawServer, sub: string, trimmed: string): Option<RawServer> {
    var (left, right, ok) := Cut(trimmed, '=');
    var key, value := TrimSpace(left), TrimSpace(StripComment(right));
    var text := ParseString(x, value);
    if !ok then Some(s)
    else if sub == "env" then Some(s.(env := s.env[key := text]))
    else if sub == "headers" then Some(s.(headers := s.headers[key := text]))
    else if sub == "oauth" then Some(if key == "client_id" then s.(oauthClientID := text) else s)
    else if key == "type" then Some(s.(kind := text))
    else if key == "auth" then Some(s.(auth := text))
    else if key == "oauth_resource" then Some(s.(oauthResource := text))
    else if key == "command" then Some(s.(command := text))
    else if key == "url" then Some(s.(url := text))
    else if key == "scopes" then
      if x.parseArray(value).Some? then Some(s.(oauthScopes := x.parseArray(value).value)) else None
    else if key == "args" then
      if x.parseArray(value).Some? then Some(s.(args := x.parseArray(value).value)) else None
    else Some(s)
  }

  // A line of a section that is not a section line.
  function Visit(x: Syntax, s: RawServer, sub: string, line: string): Option<RawServer> {
    var trimmed := TrimSpace(line);
    if trimmed == "" || trimmed[0] == '#' then Some(s) else SetField(x, s, sub, trimmed)
  }

  function Open(x: Syntax, d: Doc, name: string, sub: string, line: string): Doc {
    var known := name in d.servers;
    var p := if known then d.servers[name] else Parsed(Blank(name), []);
    Doc(d.servers[name := Parsed(p.server, p.raw + [line])], if known then d.order else d.order + [name], Some(name), sub)
  }

  function Read(x: Syntax, d: Doc, line: string): Option<Doc> {
    var trimmed := TrimSpace(line);
    var m := x.section(trimmed);
    if m.Some? then Some(Open(x, d, m.value.0, m.value.1, line))
    else if Bracketed(trimmed) then Some(d.(current := None, sub := ""))
    else if d.current.None? || d.current.value !in d.servers then Some(d)
    else
      var p := d.servers[d.current.value];
      var s := Visit(x, p.server, d.sub, line);
      if s.None? then None else Some(d.(servers := d.servers[d.current.value := Parsed(s.value, p.raw + [line])]))
  }

  function ReadFrom(x: Syntax, d: Doc, lines: seq<string>): Option<Doc> {
    if lines == [] then Some(d)
    else
      var before := ReadFrom(x, d, lines[..|lines| - 1]);
      if before.None? then None else Read(x, before.value, lines[|lines| - 1])
  }

  function Listed(d: Doc): seq<Parsed> {
    seq(|d.order|, i requires 0 <= i < |d.order| =>
      if d.order[i] in d.servers then d.servers[d.order[i]] else Parsed(Blank(d.order[i]), []))
  }

  // The servers of a file in order, with their lines.
  function ParseServers(x: Syntax, lines: seq<string>): Option<seq<Parsed>> {
    var d := ReadFrom(x, EMPTY, lines);
    if d.None? then None else Some(Listed(d.value))
  }

  // --------------------------------------------------------------------------- rewriting

  // The lines outside MCP sections.
  datatype Outer = Outer(out: seq<string>, inMCP: bool)

  function Pass(x: Syntax, o: Outer, line: string): Outer {
    var trimmed := TrimSpace(line);
    if x.section(trimmed).Some? then o.(inMCP := true)
    else if o.inMCP && !Bracketed(trimmed) then o
    else Outer(o.out + [line], false)
  }

  function PassFrom(x: Syntax, o: Outer, lines: seq<string>): Outer {
    if lines == [] then o else Pass(x, PassFrom(x, o, lines[..|lines| - 1]), lines[|lines| - 1])
  }

  function Outside(x: Syntax, lines: seq<string>): seq<string> { PassFrom(x, Outer([], false), lines).out }

  function DropBlankTail(lines: seq<string>): seq<string> {
    if lines != [] && TrimSpace(lines[|lines| - 1]) == "" then DropBlankTail(lines[..|lines| - 1]) else lines
  }

  function Assign(x: Syntax, key: string, value: string): string { key + " = " + x.quote(value) }

  function Optional(x: Syntax, key: string, value: string): seq<string> {
    if value == "" then [] else [Assign(x, key, value)]
  }

  function OptionalArray(x: Syntax, key: string, values: seq<string>): seq<string> {
    if values == [] then [] else [key + " = " + x.formatArray(values)]
  }

  function Entries(x: Syntax, m: map<string, string>, keys: seq<string>): (r: seq<string>)
    requires forall i :: 0 <= i < |keys| ==> keys[i] in m
    ensures |r| == |keys|
  {
    seq(|keys|, i requires 0 <= i < |keys| => Assign(x, keys[i], m[keys[i]]))
  }

  ghost function Table(x: Syntax, name: string, sub: string, m: map<string, string>): seq<string> {
    if m == map[] then [] else [x.header(name, sub)] + Entries(x, m, Ascending(m.Keys))
  }

  function MainLines(x: Syntax, s: RawServer): seq<string> {
    [x.header(s.name, ""), Assign(x, "type", DefaultKind(s.kind))]
    + Optional(x, "auth", s.auth) + Optional(x, "oauth_resource", s.oauthResource)
    + OptionalArray(x, "scopes", s.oauthScopes)
    + if s.url != "" then [Assign(x, "url", s.url)] else [Assign(x, "command", s.command)] + OptionalArray(x, "args", s.args)
  }

  function OAuthLines(x: Syntax, s: RawServer): seq<string> {
    if s.oauthClientID == "" then [] else [x.header(s.name, "oauth"), Assign(x, "client_id", s.oauthClientID)]
  }

  ghost function Block(x: Syntax, s: RawServer): seq<string> {
    MainLines(x, s) + Table(x, s.name, "env", s.env) + Table(x, s.name, "headers", s.headers) + OAuthLines(x, s)
  }

  // What servers are rewritten to.
  datatype Target = Target(w: World, binary: string, socket: string, ports: map<string, nat>)

  function Rewritten(g: Target, s: RawServer): RawServer { Replace(g.w, s, g.binary, g.socket, g.ports) }

  // The lines of a server: rendered if it is rewritten, its own without the empty ones at the end if not.
  ghost function ServerLines(x: Syntax, g: Target, p: Parsed): seq<string> {
    if Rewrites(g.w, g.ports, p.server) then Block(x, Rewritten(g, p.server)) else DropEmptyTail(p.raw)
  }

  ghost function Render(x: Syntax, g: Target, servers: seq<Parsed>): seq<string> {
    if servers == [] then []
    else if |servers| == 1 then ServerLines(x, g, servers[0])
    else Render(x, g, servers[..|servers| - 1]) + [""] + ServerLines(x, g, servers[|servers| - 1])
  }

  function Front(out: seq<string>): seq<string> {
    var kept := DropBlankTail(out);
    if kept == [] then [] else kept + [""]
  }

  /** Read, wrap and replace: the lines of the new file. */
  ghost function RewriteLines(x: Syntax, g: Target, lines: seq<string>): Option<seq<string>> {
    var servers := ParseServers(x, lines);
    if servers.None? then None else Some(Front(Outside(x, lines)) + Render(x, g, servers.value))
  }

  ghost function RewriteFile(x: Syntax, g: Target, data: string): Option<string> {
    var out := RewriteLines(x, g, Split(data));
    if out.None? then None else Some(Join(out.value) + [LF])
  }
}
