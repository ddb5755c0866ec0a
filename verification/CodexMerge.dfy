/**
  What servers that are rewritten to one name are merged to, and when rewriting a Codex file again
  changes nothing, told from the names, the addresses and the ports; with a file that is changed.
*/
module CodexMerge {
  import opened Options
  import opened Sequences
  import opened Text
  import opened Lines
  import opened Servers
  import opened Sorting
  import opened Codex
  import opened CodexParts
  import opened CodexFixpoint

  // ------------------------------------------------------------------ rewritten servers merged

  // The servers of the name, each put over the ones before.
  function OverAll(items: seq<Parsed>, name: string): RawServer {
    if items == [] then Blank(name)
    else
      var before, p := OverAll(items[..|items| - 1], name), items[|items| - 1];
      if p.server.name == name then Over(before, p.server) else before
  }

  // Every entry of the name was rendered.
  ghost predicate Rendered(x: Syntax, items: seq<Parsed>, name: string) {
    forall i :: 0 <= i < |items| && items[i].server.name == name ==> Renderable(items[i].server) && items[i].raw == Block(x, items[i].server)
  }

  /** Rendered entries of one name are merged to their servers put over each other. */
  lemma {:induction false} MergedOver(x: Syntax, items: seq<Parsed>, name: string)
    requires SyntaxFacts(x) && Rendered(x, items, name)
    ensures FollowFrom(x, Section(Blank(name), ""), Gather(items, name)).Some?
    ensures FollowFrom(x, Section(Blank(name), ""), Gather(items, name)).value.server == OverAll(items, name)
  {
    hide SyntaxFacts, Block, Renderable, Over, Follow;
    if items != [] {
      var n := |items| - 1;
      var init, p := items[..n], items[n];
      MergedOver(x, init, name);
      if p.server.name == name {
        FollowBlock(x, FollowFrom(x, Section(Blank(name), ""), Gather(init, name)).value, p.server);
        FollowAppend(x, Section(Blank(name), ""), Gather(init, name), p.raw + [""]);
        assert Gather(init, name) + (p.raw + [""]) == Gather(items, name);
      }
    }
  }

  lemma FollowBlock(x: Syntax, f: Section, t: RawServer)
    requires SyntaxFacts(x) && Renderable(t)
    ensures FollowFrom(x, f, Block(x, t) + [""]).Some? && FollowFrom(x, f, Block(x, t) + [""]).value.server == Over(f.server, t)
  {
    hide SetField, Block, Over, Renderable;
    var g := BlockOver(x, f.server, f.sub, t);
    FollowAppend(x, f, Block(x, t), [""]);
    BlankIsNothing(x);
    assert [""][..0] == [];
    assert FollowFrom(x, g, [""]) == Follow(x, g, "");
  }

  // A server that points to the wrapper, by command line, by address, or by both.
  ghost predicate Pointing(s: RawServer) {
    && (s.command == "" || "client" in s.args)
    && (s.url == "" || exists port: nat :: s.url == LocalAddress(port))
  }

  lemma RewritePoints(g: Target, s: RawServer)
    requires Rewrites(g.w, g.ports, s)
    ensures var t := Rewritten(g, s);
            Pointing(t) && (t.url == "" ==> "client" in t.args) && (t.url == "" <==> s.url == "") && t.name == CanonicalName(s.name)
    ensures LocalAddress(0) != ""
  {
    var t := Rewritten(g, s);
    if s.url == "" {
      assert t.args[0] == "client";
    }
    hide Wrappable, CanonicalName;
  }

  lemma OverPoints(s: RawServer, t: RawServer)
    requires Pointing(s) && Pointing(t) && (t.url == "" ==> "client" in t.args)
    ensures Pointing(Over(s, t)) && (Over(s, t).url == "" <==> s.url == "" && t.url == "") && Over(s, t).name == s.name
  {
  }

  lemma {:induction false} AllPoint(items: seq<Parsed>, name: string)
    requires forall i :: 0 <= i < |items| && items[i].server.name == name ==>
               Pointing(items[i].server) && (items[i].server.url == "" ==> "client" in items[i].server.args)
    ensures Pointing(OverAll(items, name)) && OverAll(items, name).name == name
    ensures OverAll(items, name).url == "" <==> forall i :: 0 <= i < |items| && items[i].server.name == name ==> items[i].server.url == ""
  {
    hide Pointing, Over;
    if items == [] {
      assert Pointing(Blank(name)) by { BlankPoints(name); }
    } else {
      var n := |items| - 1;
      var init, p := items[..n], items[n];
      assert forall i :: 0 <= i < n ==> init[i] == items[i];
      AllPoint(init, name);
      if p.server.name == name {
        OverPoints(OverAll(init, name), p.server);
      }
    }
  }

  lemma BlankPoints(name: string)
    ensures Pointing(Blank(name))
  {
  }

  // Such a server is rewritten only for its port.
  lemma PointingRewrites(g: Target, s: RawServer)
    requires Pointing(s)
    ensures Rewrites(g.w, g.ports, s) <==> s.url != "" && Key(s.name) in g.ports
  {
    hide NodeRepl, OAuthManaged, Local, ExplicitAuth, Key;
    if s.url != "" {
      var port: nat :| s.url == LocalAddress(port);
      LocalAddressIsRef(g.w, s, port);
    }
    assert !Wrappable(g.w, s);
  }

  // ----------------------------------------------------------- when the second rewriting is idle

  // Every server whose name is shared after rewriting is itself rewritten.
  ghost predicate SharedRewritten(x: Syntax, g: Target, servers: seq<Parsed>) {
    forall i :: 0 <= i < |servers| && Shared(Items(x, g, servers), Rewritten(g, servers[i].server).name)
      ==> Rewrites(g.w, g.ports, servers[i].server)
  }

  // Some server that is rewritten to the name has an address.
  ghost predicate Addressed(g: Target, servers: seq<Parsed>, name: string) {
    exists i :: 0 <= i < |servers| && Rewritten(g, servers[i].server).name == name && servers[i].server.url != ""
  }

  lemma SharedRendered(x: Syntax, g: Target, servers: seq<Parsed>, name: string)
    requires Written(x, g, servers) && SharedRewritten(x, g, servers) && Shared(Items(x, g, servers), name)
    ensures Rendered(x, Items(x, g, servers), name)
    ensures forall i :: 0 <= i < |servers| && Rewritten(g, servers[i].server).name == name ==>
              var t := Rewritten(g, servers[i].server);
              Pointing(t) && (t.url == "" ==> "client" in t.args) && (t.url == "" <==> servers[i].server.url == "")
  {
    hide SyntaxFacts, Rewrites, Rewrite, Block, Renderable, PlainName, CanonicalName, Pointing, Says, Names, Shared;
    forall i | 0 <= i < |servers| && Rewritten(g, servers[i].server).name == name
      ensures var t := Rewritten(g, servers[i].server);
              Pointing(t) && (t.url == "" ==> "client" in t.args) && (t.url == "" <==> servers[i].server.url == "")
      ensures Renderable(Rewritten(g, servers[i].server)) && Items(x, g, servers)[i].raw == Block(x, Rewritten(g, servers[i].server))
    {
      RewritePoints(g, servers[i].server);
      RewrittenRenderable(g, servers[i].server);
    }
  }

  /** Servers rewritten to one name are merged to one that is rewritten again exactly if one has an address and the name has a port. */
  lemma MergedRewrites(x: Syntax, g: Target, servers: seq<Parsed>, name: string)
    requires Written(x, g, servers) && SharedRewritten(x, g, servers) && Shared(Items(x, g, servers), name)
    ensures Rewrites(g.w, g.ports, Merged(x, Items(x, g, servers), name)) <==> Addressed(g, servers, name) && Key(name) in g.ports
  {
    hide SyntaxFacts, Rewrites, Rewritten, Block, Renderable, PlainName, CanonicalName, Pointing, Says, Names, Shared, Key, ReadAs, SharedRewritten,
         ServerLines, Rendered;
    var items := Items(x, g, servers);
    SharedRendered(x, g, servers, name);
    MergedOver(x, items, name);
    AllPoint(items, name);
    PointingRewrites(g, OverAll(items, name));
  }

  /**
    If every server whose rewritten name is shared is rewritten, rewriting the file twice equals rewriting
    it once exactly if equal rewritten names stand next to each other, and none of them has a port
    while one of its servers has an address.
  */
  lemma SettlesIff(x: Syntax, g: Target, data: string)
    requires FileOk(x, g, Split(data)) && SharedRewritten(x, g, ParseServers(x, Split(data)).value)
    ensures var servers, once := ParseServers(x, Split(data)).value, RewriteFile(x, g, data);
            once.Some? &&
            (RewriteFile(x, g, once.value) == once <==>
              && Grouped(Names(Items(x, g, servers)))
              && forall name :: Shared(Items(x, g, servers), name) ==> !(Addressed(g, servers, name) && Key(name) in g.ports))
  {
    hide Split, ParseServers, Written, SharedRewritten, SyntaxFacts, PlainName, CanonicalName, NoBreaks, Rewrites, Merged, Shared, Addressed, Grouped, Key, RewriteFile;
    var servers := ParseServers(x, Split(data)).value;
    RewriteFileTwice(x, g, data);
    FileWritten(x, g, Split(data));
    forall name | Shared(Items(x, g, servers), name)
      ensures Rewrites(g.w, g.ports, Merged(x, Items(x, g, servers), name)) <==> Addressed(g, servers, name) && Key(name) in g.ports
    {
      MergedRewrites(x, g, servers, name);
    }
  }

  /** With different rewritten names the second rewriting is idle. */
  lemma DistinctSettles(x: Syntax, g: Target, data: string)
    requires FileOk(x, g, Split(data)) && Distinct(Names(Items(x, g, ParseServers(x, Split(data)).value)))
    ensures var once := RewriteFile(x, g, data);
            once.Some? && RewriteFile(x, g, once.value) == once
  {
    hide Split, ParseServers, Rewrites, Merged, RewriteFile, SyntaxFacts, PlainName, CanonicalName, NoBreaks;
    var servers := ParseServers(x, Split(data)).value;
    RewriteFileTwice(x, g, data);
    forall name ensures !Shared(Items(x, g, servers), name) {
      NotShared(Items(x, g, servers), name);
    }
  }

  // --------------------------------------------------------------- a written file, read again

  /** What a rewritten file is read as keeps every name, and every server whose rewritten name is its own. */
  lemma WrittenReadsAs(x: Syntax, g: Target, servers: seq<Parsed>, again: seq<Parsed>)
    requires Written(x, g, servers) && Again(x, Items(x, g, servers), again)
    ensures ReadsAs(ServersOf(Items(x, g, servers)), ServersOf(again))
  {
    hide SyntaxFacts, ReadAs, Rewritten, ServerLines, Gather, Rewrites, Says;
    var items := Items(x, g, servers);
    var written, found := ServersOf(items), ServersOf(again);
    forall name: string ensures HasName(written, name) <==> HasName(found, name) {
      NoneGathered(items, name);
      if i :| 0 <= i < |written| && written[i].name == name {
        assert Names(items)[i] == name;
        var k :| 0 <= k < |found| && FirstNames(items)[k] == name;
        assert found[k].name == name;
      }
      if k :| 0 <= k < |found| && found[k].name == name {
        assert FirstNames(items)[k] == name;
        var i :| 0 <= i < |items| && Names(items)[i] == name;
        assert written[i].name == name;
      }
    }
    forall i: nat, t | Alone(written, i) && t in found && t.name == written[i].name ensures t == written[i] {
      assert forall j :: 0 <= j < |items| ==> written[j].name == items[j].server.name;
      assert !Shared(items, items[i].server.name);
      MergedAlone(x, g, servers, i);
      var k :| 0 <= k < |found| && found[k] == t;
    }
  }

  function ServersOf(items: seq<Parsed>): (r: seq<RawServer>)
    ensures |r| == |items| && forall i :: 0 <= i < |r| ==> r[i] == items[i].server
  {
    seq(|items|, i requires 0 <= i < |items| => items[i].server)
  }

  // ------------------------------------------------------------------- a file that is changed

  function Entry(x: Syntax, name: string): seq<string> { [x.header(name, ""), Assign(x, "command", "npx")] }

  function Npx(name: string): RawServer { Blank(name).(command := "npx") }

  // Two servers of one rewritten name with another one between them.
  function Scattered(x: Syntax): seq<string> { Entry(x, "Playwright") + Entry(x, "x") + Entry(x, "playwright") }

  lemma EntrySays(x: Syntax, name: string)
    requires SyntaxFacts(x) && PlainName(name)
    ensures Own(x, name, Entry(x, name)) && NoBreaks(Entry(x, name))
    ensures FollowFrom(x, Section(Blank(name), ""), Entry(x, name)) == Some(Section(Npx(name), ""))
  {
    hide SyntaxFacts, OwnLine, Follow, Assign;
    GoesHeader(x, name, Blank(name), "", "");
    GoesMain(x, name, Blank(name), "command", "npx");
    Chain(x, name, Section(Blank(name), ""), [x.header(name, "")], Section(Blank(name), ""), [Assign(x, "command", "npx")], Section(Npx(name), ""));
    assert [x.header(name, "")] + [Assign(x, "command", "npx")] == Entry(x, name);
  }

  lemma ReadNew(x: Syntax, d: Doc, name: string)
    requires SyntaxFacts(x) && PlainName(name) && name !in d.servers
    ensures ReadFrom(x, d, Entry(x, name))
         == Some(Doc(d.servers[name := Parsed(Npx(name), Entry(x, name))], d.order + [name], Some(name), ""))
  {
    hide SyntaxFacts, Own, Entry;
    EntrySays(x, name);
    ReadOwn(x, d, Entry(x, name), name);
    var none: seq<string> := [];
    assert none + Entry(x, name) == Entry(x, name);
  }

  lemma SomeLine(x: Syntax, name: string)
    ensures Entry(x, name) != []
  {
  }

  lemma ScatteredDoc(x: Syntax) returns (d: Doc)
    requires SyntaxFacts(x)
    ensures ReadFrom(x, EMPTY, Scattered(x)) == Some(d) && d.order == ["Playwright", "x", "playwright"]
    ensures forall n :: n in d.order ==> n in d.servers && d.servers[n] == Parsed(Npx(n), Entry(x, n))
  {
    hide SyntaxFacts, Entry, Read, ReadFrom, Npx;
    var a, b, c := "Playwright", "x", "playwright";
    assert |a| != |b| && |b| != |c| && a[0] != c[0];
    ReadNew(x, EMPTY, a);
    var first := Doc(EMPTY.servers[a := Parsed(Npx(a), Entry(x, a))], EMPTY.order + [a], Some(a), "");
    ReadNew(x, first, b);
    var second := Doc(first.servers[b := Parsed(Npx(b), Entry(x, b))], first.order + [b], Some(b), "");
    ReadNew(x, second, c);
    d := ReadFrom(x, second, Entry(x, c)).value;
    ReadAppend(x, EMPTY, Entry(x, a), Entry(x, b));
    ReadAppend(x, EMPTY, Entry(x, a) + Entry(x, b), Entry(x, c));
  }

  function ScatteredServers(x: Syntax): seq<Parsed> {
    [Parsed(Npx("Playwright"), Entry(x, "Playwright")), Parsed(Npx("x"), Entry(x, "x")), Parsed(Npx("playwright"), Entry(x, "playwright"))]
  }

  lemma ScatteredListed(x: Syntax, d: Doc)
    requires d.order == ["Playwright", "x", "playwright"]
    requires forall n :: n in d.order ==> n in d.servers && d.servers[n] == Parsed(Npx(n), Entry(x, n))
    ensures Listed(d) == ScatteredServers(x)
  {
    hide Npx, Entry;
    assert d.order[0] in d.order && d.order[1] in d.order && d.order[2] in d.order;
  }

  lemma ScatteredLines(x: Syntax)
    requires SyntaxFacts(x)
    ensures NoBreaks(Scattered(x)) && Scattered(x) != []
  {
    hide SyntaxFacts, Entry, Own, FollowFrom;
    EntrySays(x, "Playwright");
    EntrySays(x, "x");
    EntrySays(x, "playwright");
    SomeLine(x, "x");
  }

  lemma ScatteredRead(x: Syntax)
    requires SyntaxFacts(x)
    ensures ParseServers(x, Scattered(x)) == Some(ScatteredServers(x))
  {
    hide SyntaxFacts, Scattered, ReadFrom, ScatteredServers, Listed;
    var d := ScatteredDoc(x);
    ScatteredListed(x, d);
  }

  lemma NpxRewritten(g: Target, name: string)
    requires g.w.base("npx") == "npx" && |name| != 9
    ensures Rewrites(g.w, g.ports, Npx(name)) && Rewritten(g, Npx(name)).name == CanonicalName(name)
  {
    TrimFixed("", IsSpace);
    assert |Lower(name)| == |name| && |Lower("node_repl")| == 9 && |Lower("npx")| == 3;
    assert !Contains(Lower("npx"), "node_repl");
    hide CanonicalName, Lower;
  }

  lemma PlaywrightNames()
    ensures CanonicalName("Playwright") == "playwright" && CanonicalName("x") == "x" && CanonicalName("playwright") == "playwright"
  {
    TrimFixed("Playwright", IsSpace);
    TrimFixed("playwright", IsSpace);
    TrimFixed("x", IsSpace);
    assert |Lower("x")| == 1 && |Lower("playwright")| == 10;
    assert Lower("Playwright") == Lower("playwright");
  }

  /** A file with the servers Playwright, x and playwright is rewritten once more to other lines. */
  lemma ScatteredChanges(x: Syntax, g: Target)
    requires SyntaxFacts(x) && g.w.base("npx") == "npx"
    ensures var data := Join(Scattered(x));
            && RewriteFile(x, g, data).Some? && RewriteFile(x, g, RewriteFile(x, g, data).value).Some?
            && RewriteFile(x, g, RewriteFile(x, g, data).value) != RewriteFile(x, g, data)
  {
    hide SyntaxFacts, Entry, Rewrites, Rewritten, CanonicalName, ServerLines, Split, Join, RewriteFile, Merged, ReadFrom, NoBreaks, ParseServers;
    ScatteredRead(x);
    ScatteredLines(x);
    SplitJoin(Scattered(x));
    var data, servers := Join(Scattered(x)), ParseServers(x, Scattered(x)).value;
    NpxRewritten(g, "Playwright");
    NpxRewritten(g, "x");
    NpxRewritten(g, "playwright");
    PlaywrightNames();
    var names := Names(Items(x, g, servers));
    assert names[0] == "playwright" && names[1] == "x" && names[2] == "playwright";
    assert PlainName("playwright") && PlainName("x");
    RewriteFileTwice(x, g, data);
    assert !Grouped(names);
  }
}
