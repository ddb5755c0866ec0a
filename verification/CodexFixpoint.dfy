/**
  Rewriting a Codex file again: servers that were rewritten to one name are merged when the file is
  read, and rewriting is a fixpoint after one application exactly if that changes nothing.  Every
  line outside MCP sections is kept.
*/
module CodexFixpoint {
  import opened Options
  import opened Sequences
  import opened Text
  import opened Lines
  import opened Servers
  import opened Sorting
  import opened Codex
  import opened CodexParts
  import UpdateStable

  // ---------------------------------------------------------------------- a file in pieces

  // The record of a server before more of its lines are read.
  function Known(d: Doc, name: string): Parsed {
    if name in d.servers then d.servers[name] else Parsed(Blank(name), [])
  }

  function Listing(d: Doc, name: string): seq<string> { if name in d.servers then d.order else d.order + [name] }

  // The next line of a server: a section line, or any other while its section is open.
  lemma ReadOwnLine(x: Syntax, d: Doc, name: string, line: string)
    requires OwnLine(x, name, line) && (IsSection(x, line) || (d.current == Some(name) && name in d.servers))
    requires Follow(x, Section(Known(d, name).server, d.sub), line).Some?
    ensures var f := Follow(x, Section(Known(d, name).server, d.sub), line).value;
            Read(x, d, line) == Some(Doc(d.servers[name := Parsed(f.server, Known(d, name).raw + [line])], Listing(d, name), Some(name), f.sub))
  {
    hide Visit;
  }

  // Whether lines can be followed does not depend on what was read before.
  lemma {:induction false} FollowSome(x: Syntax, f: Section, g: Section, raw: seq<string>)
    requires raw != [] && IsSection(x, raw[0])
    ensures FollowFrom(x, f, raw).Some? <==> FollowFrom(x, g, raw).Some?
    ensures FollowFrom(x, f, raw).Some? ==> FollowFrom(x, f, raw).value.sub == FollowFrom(x, g, raw).value.sub
  {
    hide SetField;
    var n := |raw| - 1;
    if n > 0 {
      assert raw[..n][0] == raw[0];
      FollowSome(x, f, g, raw[..n]);
      if FollowFrom(x, f, raw[..n]).Some? {
        VisitSome(x, FollowFrom(x, f, raw[..n]).value.server, FollowFrom(x, g, raw[..n]).value.server,
                  FollowFrom(x, f, raw[..n]).value.sub, raw[n]);
      }
    } else {
      assert raw[..n] == [];
    }
  }

  lemma VisitSome(x: Syntax, s: RawServer, t: RawServer, sub: string, line: string)
    ensures Visit(x, s, sub, line).Some? <==> Visit(x, t, sub, line).Some?
  {
  }

  // The lines of a server are added to its record.
  lemma {:induction false} ReadOwn(x: Syntax, d: Doc, raw: seq<string>, name: string)
    requires Own(x, name, raw) && FollowFrom(x, Section(Known(d, name).server, ""), raw).Some?
    ensures var f := FollowFrom(x, Section(Known(d, name).server, ""), raw).value;
            ReadFrom(x, d, raw) == Some(Doc(d.servers[name := Parsed(f.server, Known(d, name).raw + raw)], Listing(d, name), Some(name), f.sub))
  {
    hide Visit, Bracketed;
    var n := |raw| - 1;
    var init, last, f := raw[..n], raw[n], Section(Known(d, name).server, "");
    assert raw == init + [last] && OwnLine(x, name, last);
    if n == 0 {
      assert FollowFrom(x, f, init) == Some(f) && ReadFrom(x, d, init) == Some(d);
      assert Follow(x, Section(f.server, d.sub), last) == Follow(x, f, last);
      ReadOwnLine(x, d, name, last);
      assert raw == [last];
    } else {
      assert init[0] == raw[0] && forall i :: 0 <= i < n ==> init[i] == raw[i];
      ReadOwn(x, d, init, name);
      ReadOwnLine(x, ReadFrom(x, d, init).value, name, last);
      assert Known(d, name).raw + raw == Known(d, name).raw + init + [last];
      MapTwice(d.servers, name, Known(ReadFrom(x, d, init).value, name), Parsed(FollowFrom(x, f, raw).value.server, Known(d, name).raw + raw));
    }
  }

  lemma MapTwice(servers: map<string, Parsed>, name: string, p: Parsed, q: Parsed)
    ensures servers[name := p][name := q] == servers[name := q]
  {
  }

  // Servers one after the other, each followed by an empty line.
  function Pile(items: seq<Parsed>): seq<string> {
    if items == [] then [] else Pile(items[..|items| - 1]) + items[|items| - 1].raw + [""]
  }

  function Names(items: seq<Parsed>): seq<string> { seq(|items|, i requires 0 <= i < |items| => items[i].server.name) }

  // The names in the order of their first appearance.
  function FirstNames(items: seq<Parsed>): seq<string> {
    if items == [] then []
    else
      var before, name := FirstNames(items[..|items| - 1]), items[|items| - 1].server.name;
      if name in before then before else before + [name]
  }

  // The lines of all entries of the name.
  function Gather(items: seq<Parsed>, name: string): seq<string> {
    if items == [] then []
    else
      var before, p := Gather(items[..|items| - 1], name), items[|items| - 1];
      if p.server.name == name then before + p.raw + [""] else before
  }

  ghost predicate AllSay(x: Syntax, items: seq<Parsed>) {
    forall i :: 0 <= i < |items| ==> Says(x, items[i].raw, items[i].server)
  }

  // The servers are listed by first appearance, each with the lines of all its entries.
  ghost predicate Gathered(d: Doc, items: seq<Parsed>) {
    && d.order == FirstNames(items)
    && (forall n :: n in d.servers <==> n in FirstNames(items))
    && (forall n :: n in d.servers ==> d.servers[n].raw == Gather(items, n))
  }

  lemma BlankIsNothing(x: Syntax)
    requires SyntaxFacts(x)
    ensures TrimSpace("") == "" && !IsSection(x, "")
  {
  }

  lemma {:induction false} NoneGathered(items: seq<Parsed>, name: string)
    ensures name in FirstNames(items) <==> name in Names(items)
    ensures name !in FirstNames(items) ==> Gather(items, name) == []
  {
    if items != [] {
      var n := |items| - 1;
      NoneGathered(items[..n], name);
      assert Names(items) == Names(items[..n]) + [items[n].server.name];
    }
  }

  // An entry and the empty line after it.
  lemma ReadEntry(x: Syntax, e: Doc, p: Parsed)
    requires SyntaxFacts(x) && Says(x, p.raw, p.server)
    ensures ReadFrom(x, e, p.raw + [""]).Some?
    ensures var d, name := ReadFrom(x, e, p.raw + [""]).value, p.server.name;
            && d.order == Listing(e, name) && name in d.servers && d.servers == e.servers[name := d.servers[name]]
            && d.servers[name].raw == Known(e, name).raw + p.raw + [""]
  {
    hide SetField, SyntaxFacts, Own, FollowFrom;
    var name := p.server.name;
    assert p.raw != [] && IsSection(x, p.raw[0]) by { SaysOwn(x, p); }
    FollowSome(x, Section(Blank(name), ""), Section(Known(e, name).server, ""), p.raw);
    ReadOwn(x, e, p.raw, name);
    ReadAppend(x, e, p.raw, [""]);
    var d := ReadFrom(x, e, p.raw).value;
    assert [""][..0] == [];
    BlankIsNothing(x);
    assert ReadFrom(x, d, [""]) == Read(x, d, "");
    assert Known(e, name).raw + p.raw + [""] == Known(e, name).raw + (p.raw + [""]);
  }

  lemma SaysOwn(x: Syntax, p: Parsed)
    requires Says(x, p.raw, p.server)
    ensures p.raw != [] && IsSection(x, p.raw[0]) && Own(x, p.server.name, p.raw)
  {
  }

  lemma GatheredMore(items: seq<Parsed>, e: Doc, d: Doc)
    requires items != [] && Gathered(e, items[..|items| - 1])
    requires var p := items[|items| - 1];
             && d.order == Listing(e, p.server.name) && p.server.name in d.servers
             && d.servers == e.servers[p.server.name := d.servers[p.server.name]]
             && d.servers[p.server.name].raw == Known(e, p.server.name).raw + p.raw + [""]
    ensures Gathered(d, items)
  {
    var n := |items| - 1;
    NoneGathered(items[..n], items[n].server.name);
  }

  /** Reading a pile merges the entries of each name. */
  lemma {:induction false} ReadPile(x: Syntax, items: seq<Parsed>)
    requires SyntaxFacts(x) && AllSay(x, items)
    ensures ReadFrom(x, EMPTY, Pile(items)).Some? && Gathered(ReadFrom(x, EMPTY, Pile(items)).value, items)
  {
    hide SyntaxFacts, Says, Read, Gathered;
    if items == [] {
      NothingGathered();
    } else {
      var n := |items| - 1;
      var init, p := items[..n], items[n];
      ReadPile(x, init);
      var e := ReadFrom(x, EMPTY, Pile(init)).value;
      ReadAppend(x, EMPTY, Pile(init), p.raw + [""]);
      assert Pile(init) + (p.raw + [""]) == Pile(init) + p.raw + [""];
      ReadEntry(x, e, p);
      GatheredMore(items, e, ReadFrom(x, e, p.raw + [""]).value);
    }
  }

  lemma NothingGathered()
    ensures Gathered(EMPTY, [])
  {
  }

  // ------------------------------------------------------------------- outside MCP sections

  ghost predicate NoSections(x: Syntax, lines: seq<string>) { forall i :: 0 <= i < |lines| ==> !IsSection(x, lines[i]) }

  lemma {:induction false} ReadOutside(x: Syntax, lines: seq<string>)
    requires NoSections(x, lines)
    ensures ReadFrom(x, EMPTY, lines) == Some(EMPTY) && PassFrom(x, Outer([], false), lines) == Outer(lines, false)
  {
    if lines != [] {
      var n := |lines| - 1;
      ReadOutside(x, lines[..n]);
      assert !IsSection(x, lines[n]);
    }
  }

  lemma {:induction false} OutsideHasNone(x: Syntax, o: Outer, lines: seq<string>)
    requires NoSections(x, o.out)
    ensures NoSections(x, PassFrom(x, o, lines).out)
  {
    if lines != [] {
      OutsideHasNone(x, o, lines[..|lines| - 1]);
    }
  }

  lemma {:induction false} PassServer(x: Syntax, o: Outer, raw: seq<string>, name: string)
    requires Own(x, name, raw)
    ensures PassFrom(x, o, raw) == Outer(o.out, true)
  {
    var n := |raw| - 1;
    var init := raw[..n];
    assert OwnLine(x, name, raw[n]);
    if n > 0 {
      assert init[0] == raw[0] && forall i :: 0 <= i < n ==> init[i] == raw[i];
      PassServer(x, o, init, name);
    } else {
      assert PassFrom(x, o, init) == o;
    }
  }

  lemma {:induction false} PassPile(x: Syntax, o: Outer, items: seq<Parsed>)
    requires SyntaxFacts(x) && forall i :: 0 <= i < |items| ==> Own(x, items[i].server.name, items[i].raw)
    ensures PassFrom(x, o, Pile(items)) == Outer(o.out, o.inMCP || items != [])
  {
    hide SyntaxFacts, Own;
    if items != [] {
      var n := |items| - 1;
      var raw := items[n].raw;
      PassPile(x, o, items[..n]);
      PassAppend(x, o, Pile(items[..n]), raw + [""]);
      assert Pile(items[..n]) + (raw + [""]) == Pile(items[..n]) + raw + [""];
      var o' := PassFrom(x, o, Pile(items[..n]));
      PassAppend(x, o', raw, [""]);
      PassServer(x, o', raw, items[n].server.name);
      BlankIsNothing(x);
      assert [""][..0] == [];
      assert PassFrom(x, Outer(o.out, true), [""]) == Pass(x, Outer(o.out, true), "");
    }
  }

  lemma {:induction false} DropBlankPrefix(lines: seq<string>)
    ensures |DropBlankTail(lines)| <= |lines| && DropBlankTail(lines) == lines[..|DropBlankTail(lines)|]
    ensures DropBlankTail(DropBlankTail(lines)) == DropBlankTail(lines)
  {
    if lines != [] && TrimSpace(lines[|lines| - 1]) == "" {
      DropBlankPrefix(lines[..|lines| - 1]);
    }
  }

  // The front of a rewritten file, followed or not by one more empty line, has itself for a front.
  lemma FrontTwice(out: seq<string>)
    ensures Front(Front(out)) == Front(out) && Front(Front(out) + [""]) == Front(out)
  {
    var kept := DropBlankTail(out);
    DropBlankPrefix(out);
    assert TrimSpace("") == "";
    if kept == [] {
      assert Front(out) + [""] == [""];
      assert [""][..0] == [];
    } else {
      assert (kept + [""])[..|kept|] == kept;
      assert (kept + [""] + [""])[..|kept| + 1] == kept + [""];
    }
  }

  // ------------------------------------------------------------------ entries next to each other

  // Equal names stand next to each other.
  predicate Grouped(names: seq<string>) {
    forall i, j, k :: 0 <= i < j < k < |names| && names[i] == names[k] ==> names[j] == names[i]
  }

  // The gathered lines of the names, one after the other.
  function Flat(items: seq<Parsed>, names: seq<string>): seq<string> {
    if names == [] then [] else Flat(items, names[..|names| - 1]) + Gather(items, names[|names| - 1])
  }

  lemma {:induction false} FlatOther(items: seq<Parsed>, names: seq<string>)
    requires items != [] && items[|items| - 1].server.name !in names
    ensures Flat(items, names) == Flat(items[..|items| - 1], names)
  {
    if names != [] {
      FlatOther(items, names[..|names| - 1]);
    }
  }

  lemma {:induction false} FirstNamesDistinct(items: seq<Parsed>)
    ensures Distinct(FirstNames(items))
  {
    if items != [] {
      FirstNamesDistinct(items[..|items| - 1]);
    }
  }

  // Among grouped names the last new one is the last one.
  lemma {:induction false} LastFirst(items: seq<Parsed>)
    requires items != [] && Grouped(Names(items))
    ensures FirstNames(items) != [] && FirstNames(items)[|FirstNames(items)| - 1] == items[|items| - 1].server.name
  {
    var n := |items| - 1;
    var init, name := items[..n], items[n].server.name;
    assert Names(items) == Names(init) + [name];
    NoneGathered(init, name);
    if name in FirstNames(init) {
      var i :| 0 <= i < n && Names(init)[i] == name;
      assert Names(items)[i] == name && Names(items)[n] == name && Names(items)[n - 1] == name;
      assert forall j :: 0 <= j < n ==> Names(init)[j] == Names(items)[j];
      LastFirst(init);
    }
  }

  // One more entry of the last name.
  lemma FlatSame(items: seq<Parsed>)
    requires items != [] && FirstNames(items) == FirstNames(items[..|items| - 1]) != []
    requires FirstNames(items)[|FirstNames(items)| - 1] == items[|items| - 1].server.name && Distinct(FirstNames(items))
    ensures var init, p := items[..|items| - 1], items[|items| - 1];
            Flat(items, FirstNames(items)) == Flat(init, FirstNames(init)) + p.raw + [""]
  {
    hide Flat, Gather, FirstNames;
    var init, p, order := items[..|items| - 1], items[|items| - 1], FirstNames(items);
    var k := |order| - 1;
    assert p.server.name !in order[..k];
    FlatOther(items, order[..k]);
    FlatOneMore(items, order[..k], p.server.name);
    FlatOneMore(init, order[..k], p.server.name);
    assert order[..k] + [p.server.name] == order;
    assert Gather(items, p.server.name) == Gather(init, p.server.name) + p.raw + [""] by { GatherMore(items); }
    PlusThree(Flat(init, order[..k]), Gather(init, p.server.name), p.raw);
  }

  lemma GatherMore(items: seq<Parsed>)
    requires items != []
    ensures var p := items[|items| - 1];
            Gather(items, p.server.name) == Gather(items[..|items| - 1], p.server.name) + p.raw + [""]
  {
  }

  lemma PlusThree(a: seq<string>, b: seq<string>, raw: seq<string>)
    ensures a + (b + raw + [""]) == a + b + raw + [""]
  {
  }

  // An entry of a new name.
  lemma FlatNew(items: seq<Parsed>)
    requires items != [] && items[|items| - 1].server.name !in FirstNames(items[..|items| - 1])
    ensures var init, p := items[..|items| - 1], items[|items| - 1];
            Flat(items, FirstNames(items)) == Flat(init, FirstNames(init)) + p.raw + [""]
  {
    hide Gather, Flat;
    var init, p, order := items[..|items| - 1], items[|items| - 1], FirstNames(items[..|items| - 1]);
    assert FirstNames(items) == order + [p.server.name];
    NewGathered(items);
    FlatOther(items, order);
    FlatOneMore(items, order, p.server.name);
    PlusTwo(Flat(init, order), p.raw);
  }

  lemma PlusTwo(a: seq<string>, raw: seq<string>)
    ensures a + (raw + [""]) == a + raw + [""]
  {
  }

  lemma FlatOneMore(items: seq<Parsed>, names: seq<string>, name: string)
    ensures Flat(items, names + [name]) == Flat(items, names) + Gather(items, name)
  {
    hide Gather;
    assert (names + [name])[..|names|] == names;
  }

  lemma NewGathered(items: seq<Parsed>)
    requires items != [] && items[|items| - 1].server.name !in FirstNames(items[..|items| - 1])
    ensures Gather(items, items[|items| - 1].server.name) == items[|items| - 1].raw + [""]
  {
    NoneGathered(items[..|items| - 1], items[|items| - 1].server.name);
    var none: seq<string> := [];
    assert none + items[|items| - 1].raw == items[|items| - 1].raw;
  }

  /** A pile of grouped entries is the gathered lines of its names. */
  lemma {:induction false} PileIsFlat(items: seq<Parsed>)
    requires Grouped(Names(items))
    ensures Pile(items) == Flat(items, FirstNames(items))
  {
    if items != [] {
      hide Gather, Flat;
      var n := |items| - 1;
      var init, p := items[..n], items[n];
      assert Names(items) == Names(init) + [p.server.name];
      assert forall j :: 0 <= j < n ==> Names(init)[j] == Names(items)[j];
      PileIsFlat(init);
      FirstNamesDistinct(items);
      if p.server.name in FirstNames(init) {
        LastFirst(items);
        FlatSame(items);
      } else {
        FlatNew(items);
      }
    } else {
      FlatOfNone();
    }
  }

  lemma FlatOfNone()
    ensures Flat([], []) == []
  {
  }

  // ------------------------------------------------------- which entry a line of a pile is from

  function Start(items: seq<Parsed>, r: nat): nat
    requires r <= |items|
  {
    |Pile(items[..r])|
  }

  lemma StartNext(items: seq<Parsed>, r: nat)
    requires r < |items|
    ensures Start(items, r + 1) == Start(items, r) + |items[r].raw| + 1
  {
    assert items[..r + 1][..r] == items[..r];
  }

  lemma {:induction false} StartGrows(items: seq<Parsed>, q: nat, r: nat)
    requires q <= r <= |items|
    ensures Start(items, q) <= Start(items, r)
    decreases r
  {
    if q < r {
      StartNext(items, r - 1);
      StartGrows(items, q, r - 1);
    }
  }

  lemma {:induction false} PileFrom(items: seq<Parsed>, r: nat)
    requires r < |items|
    ensures Start(items, r) <= Start(items, r + 1) <= |Pile(items)| && Pile(items)[Start(items, r)..Start(items, r + 1)] == items[r].raw + [""]
    decreases |items|
  {
    var n := |items| - 1;
    StartNext(items, r);
    assert items[..|items|] == items;
    if r < n {
      PileFrom(items[..n], r);
      assert items[..n][..r] == items[..r] && items[..n][..r + 1] == items[..r + 1];
      assert Pile(items) == Pile(items[..n]) + (items[n].raw + [""]);
      assert Pile(items)[Start(items, r)..Start(items, r + 1)] == Pile(items[..n])[Start(items, r)..Start(items, r + 1)];
    } else {
      assert Pile(items) == Pile(items[..n]) + (items[n].raw + [""]);
    }
  }

  // The section line that an entry starts with.
  lemma EntryHead(x: Syntax, items: seq<Parsed>, r: nat)
    requires AllSay(x, items) && r < |items|
    ensures Start(items, r) < |Pile(items)| && IsSection(x, Pile(items)[Start(items, r)])
    ensures x.section(TrimSpace(Pile(items)[Start(items, r)])).value.0 == items[r].server.name
    ensures r + 1 <= |items| && Start(items, r) < Start(items, r + 1)
  {
    hide FollowFrom;
    PileFrom(items, r);
    StartNext(items, r);
    SaysOwn(x, items[r]);
    assert Pile(items)[Start(items, r)] == Pile(items)[Start(items, r)..Start(items, r + 1)][0];
    assert (items[r].raw + [""])[0] == items[r].raw[0] && OwnLine(x, items[r].server.name, items[r].raw[0]);
  }

  // Which entry a line is from.
  lemma {:induction false} EntryAt(items: seq<Parsed>, pos: nat) returns (r: nat)
    requires pos < |Pile(items)|
    ensures r < |items| && Start(items, r) <= pos < Start(items, r + 1)
    decreases |items|
  {
    var n := |items| - 1;
    assert items[..|items|] == items;
    if pos >= Start(items, n) {
      r := n;
    } else {
      r := EntryAt(items[..n], pos);
      assert items[..n][..r] == items[..r] && items[..n][..r + 1] == items[..r + 1];
    }
  }

  lemma EntryName(x: Syntax, items: seq<Parsed>, pos: nat, r: nat)
    requires SyntaxFacts(x) && AllSay(x, items) && r < |items| && Start(items, r) <= pos < Start(items, r + 1) <= |Pile(items)|
    requires IsSection(x, Pile(items)[pos])
    ensures x.section(TrimSpace(Pile(items)[pos])).value.0 == items[r].server.name
  {
    hide FollowFrom, SyntaxFacts;
    PileFrom(items, r);
    StartNext(items, r);
    var at := pos - Start(items, r);
    assert Pile(items)[pos] == Pile(items)[Start(items, r)..Start(items, r + 1)][at] == (items[r].raw + [""])[at];
    SaysOwn(x, items[r]);
    BlankIsNothing(x);
    assert at < |items[r].raw| ==> OwnLine(x, items[r].server.name, items[r].raw[at]);
  }

  // If two piles have the same lines and the entries of one have different names, those of the other are grouped.
  lemma SamePileGrouped(x: Syntax, items: seq<Parsed>, again: seq<Parsed>)
    requires SyntaxFacts(x) && AllSay(x, items) && AllSay(x, again) && Distinct(Names(again)) && Pile(items) == Pile(again)
    ensures Grouped(Names(items))
  {
    hide SyntaxFacts, AllSay, Pile;
    forall i: nat, j: nat, k: nat | i < j < k < |items| && Names(items)[i] == Names(items)[k] ensures Names(items)[j] == Names(items)[i] {
      SameBetween(x, items, again, i, j, k);
    }
  }

  // Items of one name have one owner, and so has what stands between them.
  lemma SameBetween(x: Syntax, items: seq<Parsed>, again: seq<Parsed>, i: nat, j: nat, k: nat)
    requires SyntaxFacts(x) && AllSay(x, items) && AllSay(x, again) && Distinct(Names(again)) && Pile(items) == Pile(again)
    requires i < j < k < |items| && items[i].server.name == items[k].server.name
    ensures items[j].server.name == items[i].server.name
  {
    hide SyntaxFacts, AllSay, IsSection, Pile, Start;
    var p := OwnerOf(x, items, again, i);
    var q := OwnerOf(x, items, again, j);
    var r := OwnerOf(x, items, again, k);
    StartGrows(items, i + 1, j);
    StartGrows(items, j + 1, k);
    OwnersOrdered(again, Start(items, i), Start(items, j), p, q);
    OwnersOrdered(again, Start(items, j), Start(items, k), q, r);
    assert Names(again)[p] == Names(again)[r];
  }

  lemma OwnerOf(x: Syntax, items: seq<Parsed>, again: seq<Parsed>, i: nat) returns (r: nat)
    requires SyntaxFacts(x) && AllSay(x, items) && AllSay(x, again) && Pile(items) == Pile(again) && i < |items|
    ensures Start(items, i) < Start(items, i + 1) && r < |again| && Start(again, r) <= Start(items, i) < Start(again, r + 1)
    ensures again[r].server.name == items[i].server.name
  {
    hide SyntaxFacts, AllSay, IsSection;
    EntryHead(x, items, i);
    r := EntryAt(again, Start(items, i));
    PileFrom(again, r);
    EntryName(x, again, Start(items, i), r);
  }

  lemma OwnersOrdered(items: seq<Parsed>, a: nat, b: nat, p: nat, q: nat)
    requires p < |items| && q < |items| && a < b
    requires Start(items, p) <= a < Start(items, p + 1) && Start(items, q) <= b < Start(items, q + 1)
    ensures p <= q
  {
    if q < p {
      StartGrows(items, q + 1, p);
    }
  }

  // --------------------------------------------------------------------- the second rewriting

  // What is asked of a file: it can be read, and the rewritten servers have plain names.
  ghost predicate FileOk(x: Syntax, g: Target, lines: seq<string>) {
    && SyntaxFacts(x) && NoBreaks(lines) && ParseServers(x, lines).Some?
    && var servers := ParseServers(x, lines).value;
       forall i :: 0 <= i < |servers| && Rewrites(g.w, g.ports, servers[i].server) ==> PlainName(CanonicalName(servers[i].server.name))
  }

  // A server as it is written to the file.
  ghost function Item(x: Syntax, g: Target, p: Parsed): Parsed { Parsed(Rewritten(g, p.server), ServerLines(x, g, p)) }

  ghost function Items(x: Syntax, g: Target, servers: seq<Parsed>): (r: seq<Parsed>)
    ensures |r| == |servers| && forall i :: 0 <= i < |r| ==> r[i] == Item(x, g, servers[i])
  {
    seq(|servers|, i requires 0 <= i < |servers| => Item(x, g, servers[i]))
  }

  // A server as it was read.
  ghost predicate ReadAs(x: Syntax, p: Parsed) {
    && Says(x, p.raw, p.server) && NoBreaks(p.raw) && GoodKeys(p.server.env) && GoodKeys(p.server.headers)
  }

  lemma ListedOk(x: Syntax, lines: seq<string>, i: nat)
    requires NoBreaks(lines) && ParseServers(x, lines).Some? && i < |ParseServers(x, lines).value|
    ensures ReadAs(x, ParseServers(x, lines).value[i])
  {
    hide ReadFrom;
    ReadFromOk(x, lines);
    var d := ReadFrom(x, EMPTY, lines).value;
    assert d.order[i] in d.servers && ServerOk(x, d, d.order[i]);
  }

  lemma RewrittenRenderable(g: Target, s: RawServer)
    requires Rewrites(g.w, g.ports, s) && PlainName(CanonicalName(s.name)) && GoodKeys(s.headers)
    ensures Renderable(Rewritten(g, s))
  {
    hide CanonicalName, Wrappable;
  }

  lemma {:induction false} DropEmptySays(x: Syntax, raw: seq<string>, s: RawServer)
    requires SyntaxFacts(x) && Says(x, raw, s)
    ensures Says(x, DropEmptyTail(raw), s) && DropEmptyTail(DropEmptyTail(raw)) == DropEmptyTail(raw)
    ensures DropEmptyTail(raw) != []
    decreases |raw|
  {
    hide SetField, SyntaxFacts;
    var n := |raw| - 1;
    if raw[n] == "" {
      BlankIsNothing(x);
      var init := raw[..n];
      assert IsSection(x, raw[0]);
      assert n > 0 && init[0] == raw[0] && forall i :: 0 <= i < n ==> init[i] == raw[i];
      DropEmptySays(x, init, s);
    }
  }

  // The lines of a written server say what the server is, and end in a line that is not empty.
  lemma ItemSays(x: Syntax, g: Target, p: Parsed)
    requires SyntaxFacts(x) && ReadAs(x, p)
    requires Rewrites(g.w, g.ports, p.server) ==> PlainName(CanonicalName(p.server.name))
    ensures var q := Item(x, g, p);
            Says(x, q.raw, q.server) && NoBreaks(q.raw) && DropEmptyTail(q.raw) == q.raw && q.raw != []
  {
    hide SyntaxFacts, GoodKeys, CanonicalName, Wrappable, Block, FollowFrom, Rewrite;
    if Rewrites(g.w, g.ports, p.server) {
      RewrittenRenderable(g, p.server);
      BlockRoundTrip(x, Rewritten(g, p.server));
    } else {
      DropEmptySays(x, p.raw, p.server);
      DropEmptyTailPrefix(p.raw);
    }
  }

  // Writing the server again writes the same lines.
  lemma ItemAgain(x: Syntax, g: Target, p: Parsed)
    requires SyntaxFacts(x) && ReadAs(x, p)
    requires Rewrites(g.w, g.ports, p.server) ==> PlainName(CanonicalName(p.server.name))
    ensures var q := Item(x, g, p);
            Item(x, g, Parsed(q.server, q.raw + [""])) == q
  {
    hide SyntaxFacts, GoodKeys, CanonicalName, Wrappable, Block, FollowFrom, Rewrite, Says;
    UpdateStable.ReplaceTwice(g.w, p.server, g.binary, g.socket, g.ports);
    ItemSays(x, g, p);
    var q := Item(x, g, p);
    assert (q.raw + [""])[..|q.raw|] == q.raw;
    assert DropEmptyTail(q.raw + [""]) == q.raw;
  }

  lemma {:induction false} RenderIsPile(x: Syntax, g: Target, servers: seq<Parsed>)
    requires servers != []
    ensures Render(x, g, servers) + [""] == Pile(Items(x, g, servers))
  {
    hide ServerLines, Rewritten;
    var n := |servers| - 1;
    var items := Items(x, g, servers);
    assert items[..n] == Items(x, g, servers[..n]);
    if n > 0 {
      RenderIsPile(x, g, servers[..n]);
    } else {
      assert Pile(items[..n]) == [];
    }
  }

  lemma {:induction false} RenderAgain(x: Syntax, g: Target, a: seq<Parsed>, b: seq<Parsed>)
    requires |a| == |b| && forall i :: 0 <= i < |a| ==> ServerLines(x, g, a[i]) == ServerLines(x, g, b[i])
    ensures Render(x, g, a) == Render(x, g, b)
  {
    hide ServerLines;
    if |a| > 1 {
      RenderAgain(x, g, a[..|a| - 1], b[..|b| - 1]);
    }
  }

  // The lines of a file as it is read back after being written.
  function ReadBack(out: seq<string>): seq<string> { if out == [] then ["", ""] else out + [""] }

  // The front of the written file, then the written servers.
  lemma WrittenParts(x: Syntax, g: Target, lines: seq<string>)
    requires FileOk(x, g, lines)
    ensures var servers, front := ParseServers(x, lines).value, Front(Outside(x, lines));
            ReadBack(RewriteLines(x, g, lines).value)
            == if servers != [] then front + Pile(Items(x, g, servers)) else if front == [] then ["", ""] else front + [""]
  {
    hide ParseServers, Outside, Front, Items, Pile, ServerLines, SyntaxFacts, Rewrites, PlainName, CanonicalName, ReadAs, Says;
    var servers, front := ParseServers(x, lines).value, Front(Outside(x, lines));
    if servers != [] {
      ListedOk(x, lines, 0);
      ItemSays(x, g, servers[0]);
      RenderIsPile(x, g, servers);
      RenderedSome(x, g, servers);
      assert front + Render(x, g, servers) + [""] == front + (Render(x, g, servers) + [""]);
    }
  }

  lemma RenderedSome(x: Syntax, g: Target, servers: seq<Parsed>)
    requires servers != []
    ensures |servers| > 1 ==> Render(x, g, servers) != []
  {
  }

  // ------------------------------------------------------------------ servers of one name

  // What the entries of the name are read as.
  function Merged(x: Syntax, items: seq<Parsed>, name: string): RawServer {
    var f := FollowFrom(x, Section(Blank(name), ""), Gather(items, name));
    if f.Some? then f.value.server else Blank(name)
  }

  // More than one entry has the name.
  predicate Shared(items: seq<Parsed>, name: string) {
    exists i, j :: 0 <= i < j < |items| && items[i].server.name == name && items[j].server.name == name
  }

  lemma {:induction false} GatherAlone(items: seq<Parsed>, i: nat)
    requires i < |items| && !Shared(items, items[i].server.name)
    ensures Gather(items, items[i].server.name) == items[i].raw + [""]
  {
    var n, name := |items| - 1, items[i].server.name;
    var init := items[..n];
    if i < n {
      assert forall j :: 0 <= j < n ==> init[j] == items[j];
      GatherAlone(init, i);
    } else {
      assert forall j :: 0 <= j < n ==> Names(init)[j] == items[j].server.name;
      NoneGathered(init, name);
      NewGathered(items);
    }
  }

  // An empty line with more after it.
  predicate HasGap(lines: seq<string>) { exists p :: 0 <= p < |lines| - 1 && lines[p] == "" }

  lemma GapBetween(before: seq<string>, raw: seq<string>)
    requires before != [] && before[|before| - 1] == "" && raw != []
    ensures HasGap(before + raw + [""])
  {
    assert (before + raw + [""])[|before| - 1] == "";
  }

  lemma {:induction false} SharedHasGap(items: seq<Parsed>, name: string)
    requires Shared(items, name) && forall i :: 0 <= i < |items| ==> items[i].raw != []
    ensures HasGap(Gather(items, name))
  {
    hide HasGap;
    var n := |items| - 1;
    var init, p := items[..n], items[n];
    var i, j :| 0 <= i < j < |items| && items[i].server.name == name && items[j].server.name == name;
    if p.server.name == name {
      assert Names(init)[i] == name;
      GatherEnds(init, name);
      GapBetween(Gather(init, name), p.raw);
    } else {
      assert init[i].server.name == name && init[j].server.name == name;
      SharedHasGap(init, name);
    }
  }

  lemma {:induction false} GatherEnds(items: seq<Parsed>, name: string)
    requires name in Names(items)
    ensures Gather(items, name) != [] && Gather(items, name)[|Gather(items, name)| - 1] == ""
  {
    var n := |items| - 1;
    if items[n].server.name != name {
      assert Names(items) == Names(items[..n]) + [items[n].server.name];
      GatherEnds(items[..n], name);
    }
  }

  // Gathered lines end in an empty line after one that is not empty.
  lemma {:induction false} GatherDrops(items: seq<Parsed>, name: string)
    requires name in Names(items)
    requires forall i :: 0 <= i < |items| ==> items[i].raw != [] && DropEmptyTail(items[i].raw) == items[i].raw
    ensures DropEmptyTail(Gather(items, name)) + [""] == Gather(items, name)
  {
    var n := |items| - 1;
    var init, p := items[..n], items[n];
    hide DropEmptyTail;
    if p.server.name == name {
      DropAfter(Gather(init, name), p.raw);
    } else {
      assert Names(items) == Names(init) + [p.server.name];
      GatherDrops(init, name);
    }
  }

  // Only the empty line behind lines that end in none is dropped.
  lemma DropAfter(before: seq<string>, raw: seq<string>)
    requires raw != [] && DropEmptyTail(raw) == raw
    ensures DropEmptyTail(before + raw + [""]) == before + raw
  {
    var all := before + raw;
    DropEmptyTailPrefix(raw);
    assert all[|all| - 1] == raw[|raw| - 1] != "";
    assert (all + [""])[..|all|] == all;
  }

  // -------------------------------------------------------------------- the file read again

  ghost predicate Written(x: Syntax, g: Target, servers: seq<Parsed>) {
    && SyntaxFacts(x) && Distinct(Names(servers)) && (forall i :: 0 <= i < |servers| ==> ReadAs(x, servers[i]))
    && forall i :: 0 <= i < |servers| && Rewrites(g.w, g.ports, servers[i].server) ==> PlainName(CanonicalName(servers[i].server.name))
  }

  lemma ReadNamesDistinct(x: Syntax, lines: seq<string>)
    requires NoBreaks(lines) && ParseServers(x, lines).Some?
    ensures Distinct(Names(ParseServers(x, lines).value))
  {
    hide ReadFrom, Says;
    ReadFromOk(x, lines);
    var d := ReadFrom(x, EMPTY, lines).value;
    forall i | 0 <= i < |d.order| ensures Names(Listed(d))[i] == d.order[i] {
      assert d.order[i] in d.servers && ServerOk(x, d, d.order[i]);
    }
  }

  lemma FileWritten(x: Syntax, g: Target, lines: seq<string>)
    requires FileOk(x, g, lines)
    ensures Written(x, g, ParseServers(x, lines).value)
  {
    hide ParseServers, ReadAs, Names, Rewrites, SyntaxFacts;
    ReadNamesDistinct(x, lines);
    AllListedOk(x, g, lines);
  }

  lemma ItemsSay(x: Syntax, g: Target, servers: seq<Parsed>)
    requires Written(x, g, servers)
    ensures AllSay(x, Items(x, g, servers))
    ensures forall i :: 0 <= i < |servers| ==>
              var raw := Items(x, g, servers)[i].raw; raw != [] && DropEmptyTail(raw) == raw && NoBreaks(raw)
  {
    hide SyntaxFacts, ReadAs, Rewrites, PlainName, CanonicalName, Says, Names;
    forall i | 0 <= i < |servers|
      ensures var p := Items(x, g, servers)[i]; Says(x, p.raw, p.server) && p.raw != [] && DropEmptyTail(p.raw) == p.raw && NoBreaks(p.raw)
    {
      ItemSays(x, g, servers[i]);
    }
  }

  // A server that is merged to one that is rewritten has a canonical name that can be written.
  lemma MergedName(x: Syntax, g: Target, servers: seq<Parsed>, name: string)
    requires Written(x, g, servers)
    requires name in Names(Items(x, g, servers)) && Rewrites(g.w, g.ports, Merged(x, Items(x, g, servers), name))
    ensures CanonicalName(name) == name && PlainName(name)
  {
    hide SyntaxFacts, ReadAs, Rewrites, PlainName, CanonicalName, Says, Rewrite, ServerLines;
    var items := Items(x, g, servers);
    if i :| 0 <= i < |servers| && items[i].server.name == name && Rewrites(g.w, g.ports, servers[i].server) {
      RewrittenNamed(servers[i].server, g.binary, g.socket, g.ports);
    } else {
      var i :| 0 <= i < |items| && Names(items)[i] == name;
      assert forall j :: 0 <= j < |items| && items[j].server.name == name ==> Names(servers)[j] == name;
      assert !Shared(items, name);
      MergedAlone(x, g, servers, i);
    }
  }

  // An entry of a name that is its own is read back as it is.
  lemma MergedAlone(x: Syntax, g: Target, servers: seq<Parsed>, i: nat)
    requires Written(x, g, servers) && i < |servers| && !Shared(Items(x, g, servers), Items(x, g, servers)[i].server.name)
    ensures var items := Items(x, g, servers);
            Merged(x, items, items[i].server.name) == items[i].server
  {
    hide SyntaxFacts, ReadAs, Rewrites, ServerLines, Rewritten, Names;
    var items := Items(x, g, servers);
    ItemsSay(x, g, servers);
    GatherAlone(items, i);
    SaysMore(x, items[i]);
  }

  lemma SaysMore(x: Syntax, p: Parsed)
    requires SyntaxFacts(x) && Says(x, p.raw, p.server)
    ensures FollowFrom(x, Section(Blank(p.server.name), ""), p.raw + [""]).Some?
    ensures FollowFrom(x, Section(Blank(p.server.name), ""), p.raw + [""]).value.server == p.server
  {
    hide SetField, Own;
    FollowAppend(x, Section(Blank(p.server.name), ""), p.raw, [""]);
    BlankIsNothing(x);
    assert [""][..0] == [];
    var f := FollowFrom(x, Section(Blank(p.server.name), ""), p.raw).value;
    assert FollowFrom(x, f, [""]) == Follow(x, f, "");
  }

  // What is read of a written file.
  ghost predicate Again(x: Syntax, items: seq<Parsed>, again: seq<Parsed>) {
    && |again| == |FirstNames(items)|
    && forall k :: 0 <= k < |again| ==>
         && again[k].raw == Gather(items, FirstNames(items)[k]) && again[k].server == Merged(x, items, FirstNames(items)[k])
         && again[k].server.name == FirstNames(items)[k] && ReadAs(x, again[k])
  }

  lemma FrontIsOutside(x: Syntax, lines: seq<string>)
    requires SyntaxFacts(x)
    ensures NoSections(x, Front(Outside(x, lines))) && NoSections(x, Front(Outside(x, lines)) + [""]) && NoSections(x, ["", ""])
  {
    hide DropBlankTail, PassFrom, IsSection, SyntaxFacts;
    OutsideHasNone(x, Outer([], false), lines);
    BlankIsNothing(x);
    FrontHasNone(x, Outside(x, lines));
  }

  lemma FrontHasNone(x: Syntax, out: seq<string>)
    requires NoSections(x, out) && !IsSection(x, "")
    ensures NoSections(x, Front(out)) && NoSections(x, Front(out) + [""])
  {
    hide DropBlankTail, IsSection;
    DropBlankPrefix(out);
  }

  lemma {:induction false} PileNoBreaks(items: seq<Parsed>)
    requires forall i :: 0 <= i < |items| ==> NoBreaks(items[i].raw)
    ensures NoBreaks(Pile(items))
  {
    if items != [] {
      PileNoBreaks(items[..|items| - 1]);
    }
  }

  lemma ListedAgain(x: Syntax, items: seq<Parsed>, d: Doc, lines: seq<string>)
    requires NoBreaks(lines) && ReadFrom(x, EMPTY, lines) == Some(d) && Gathered(d, items)
    ensures Again(x, items, Listed(d))
  {
    hide ReadFrom, SetField, Own, Gather;
    var again := Listed(d);
    forall k | 0 <= k < |again|
      ensures again[k].raw == Gather(items, FirstNames(items)[k]) && again[k].server == Merged(x, items, FirstNames(items)[k])
      ensures again[k].server.name == FirstNames(items)[k] && ReadAs(x, again[k])
    {
      ListedOk(x, lines, k);
      ReadFromOk(x, lines);
      assert d.order[k] in d.servers && ServerOk(x, d, d.order[k]);
    }
  }

  // What the written file is read as when it holds servers.
  lemma ReadWritten(x: Syntax, g: Target, front: seq<string>, servers: seq<Parsed>) returns (again: seq<Parsed>)
    requires Written(x, g, servers) && NoSections(x, front) && NoBreaks(front) && servers != []
    ensures var lines := front + Pile(Items(x, g, servers));
            Outside(x, lines) == front && ParseServers(x, lines) == Some(again)
    ensures Again(x, Items(x, g, servers), again)
  {
    hide SyntaxFacts, ReadAs, Rewrites, PlainName, CanonicalName, Rewritten, Own, IsSection, FollowFrom, ServerLines, Names, Gathered, Again;
    var items := Items(x, g, servers);
    ItemsSay(x, g, servers);
    ReadOutside(x, front);
    ReadAppend(x, EMPTY, front, Pile(items));
    ReadPile(x, items);
    PassAppend(x, Outer([], false), front, Pile(items));
    PassPile(x, Outer(front, false), items);
    PileNoBreaks(items);
    var d := ReadFrom(x, EMPTY, Pile(items)).value;
    ListedAgain(x, items, d, front + Pile(items));
    again := Listed(d);
  }

  // The servers that are read again can be written again.
  lemma AgainWritten(x: Syntax, g: Target, servers: seq<Parsed>, again: seq<Parsed>)
    requires Written(x, g, servers) && Again(x, Items(x, g, servers), again)
    ensures Written(x, g, again) && Names(Items(x, g, again)) == FirstNames(Items(x, g, servers)) == Names(again)
  {
    hide SyntaxFacts, ReadAs, Rewrites, PlainName, CanonicalName, ServerLines, Merged, Rewrite;
    var items := Items(x, g, servers);
    FirstNamesDistinct(items);
    assert Names(again) == FirstNames(items);
    forall k | 0 <= k < |again|
      ensures Rewrites(g.w, g.ports, again[k].server) ==> PlainName(CanonicalName(again[k].server.name))
      ensures Names(Items(x, g, again))[k] == FirstNames(items)[k]
    {
      var name := FirstNames(items)[k];
      NoneGathered(items, name);
      if Rewrites(g.w, g.ports, again[k].server) {
        MergedName(x, g, servers, name);
        RewrittenNamed(again[k].server, g.binary, g.socket, g.ports);
      }
    }
  }

  // ------------------------------------------------------------------------ the main theorems

  // Rewritten names that are equal stand next to each other, and no server they are merged to is rewritten again.
  ghost predicate Settles(x: Syntax, g: Target, servers: seq<Parsed>) {
    var items := Items(x, g, servers);
    && Grouped(Names(items))
    && forall name :: Shared(items, name) ==> !Rewrites(g.w, g.ports, Merged(x, items, name))
  }

  // The lines of a name are written again as they are.
  lemma LinesAgain(x: Syntax, g: Target, servers: seq<Parsed>, again: seq<Parsed>, k: nat)
    requires Written(x, g, servers) && Again(x, Items(x, g, servers), again) && k < |again|
    requires var items, name := Items(x, g, servers), again[k].server.name;
             Shared(items, name) ==> !Rewrites(g.w, g.ports, Merged(x, items, name))
    ensures ServerLines(x, g, again[k]) + [""] == Gather(Items(x, g, servers), again[k].server.name)
  {
    hide SyntaxFacts, ReadAs, Rewrites, Rewritten, Block, Merged, AllSay;
    var items, name := Items(x, g, servers), FirstNames(Items(x, g, servers))[k];
    assert name in FirstNames(items);
    NoneGathered(items, name);
    ItemsSay(x, g, servers);
    if Shared(items, name) {
      GatherDrops(items, name);
    } else {
      var i :| 0 <= i < |items| && Names(items)[i] == name;
      MergedAlone(x, g, servers, i);
      GatherAlone(items, i);
      ItemAgain(x, g, servers[i]);
      assert again[k] == Parsed(items[i].server, items[i].raw + [""]);
    }
  }

  lemma {:induction false} PileAgain(x: Syntax, g: Target, items: seq<Parsed>, again: seq<Parsed>)
    requires forall k :: 0 <= k < |again| ==> ServerLines(x, g, again[k]) + [""] == Gather(items, again[k].server.name)
    ensures Pile(Items(x, g, again)) == Flat(items, Names(again))
  {
    hide ServerLines, Rewritten, Gather;
    if again != [] {
      var n := |again| - 1;
      PileAgain(x, g, items, again[..n]);
      assert Items(x, g, again)[..n] == Items(x, g, again[..n]) && Names(again)[..n] == Names(again[..n]);
      PlusTwo(Pile(Items(x, g, again[..n])), ServerLines(x, g, again[n]));
    }
  }

  // A name whose merged server is rewritten again is written as other lines.
  lemma SharedDiffers(x: Syntax, g: Target, servers: seq<Parsed>, again: seq<Parsed>, name: string)
    requires Written(x, g, servers) && Again(x, Items(x, g, servers), again) && Written(x, g, again)
    requires Names(Items(x, g, again)) == FirstNames(Items(x, g, servers)) == Names(again)
    requires Shared(Items(x, g, servers), name) && Rewrites(g.w, g.ports, Merged(x, Items(x, g, servers), name))
    ensures Gather(Items(x, g, servers), name) != Gather(Items(x, g, again), name)
  {
    hide SyntaxFacts, ReadAs, Rewrites, Rewrite, Merged, Gather, Shared, AllSay, Block;
    var items, items2 := Items(x, g, servers), Items(x, g, again);
    ItemsSay(x, g, servers);
    SharedHasGap(items, name);
    SharedNamed(items, name);
    NoneGathered(items, name);
    var k :| 0 <= k < |again| && FirstNames(items)[k] == name;
    assert Names(items2)[k] == name && Names(again)[k] == name;
    assert !Shared(items2, name) by { NotShared(items2, name); }
    GatherAlone(items2, k);
    PlainBlock(x, g, again[k]);
  }

  lemma SharedNamed(items: seq<Parsed>, name: string)
    requires Shared(items, name)
    ensures name in Names(items)
  {
    var i, j :| 0 <= i < j < |items| && items[i].server.name == name && items[j].server.name == name;
    assert Names(items)[i] == name;
  }

  lemma NotShared(items: seq<Parsed>, name: string)
    requires Distinct(Names(items))
    ensures !Shared(items, name)
  {
    forall i, j | 0 <= i < j < |items| ensures items[i].server.name != items[j].server.name {
      assert Names(items)[i] != Names(items)[j];
    }
  }

  lemma PlainBlock(x: Syntax, g: Target, p: Parsed)
    requires SyntaxFacts(x) && ReadAs(x, p) && Rewrites(g.w, g.ports, p.server) && PlainName(CanonicalName(p.server.name))
    ensures "" !in ServerLines(x, g, p)
  {
    hide SyntaxFacts, CanonicalName, Wrappable, Block, FollowFrom, Rewrite;
    RewrittenRenderable(g, p.server);
    BlockRoundTrip(x, Rewritten(g, p.server));
  }

  /** A written pile is written again as it is exactly if its entries settle. */
  lemma PileSettles(x: Syntax, g: Target, servers: seq<Parsed>, again: seq<Parsed>)
    requires Written(x, g, servers) && Again(x, Items(x, g, servers), again)
    ensures Pile(Items(x, g, again)) == Pile(Items(x, g, servers)) <==> Settles(x, g, servers)
  {
    hide SyntaxFacts, ReadAs, Rewrites, Merged, Gather, Shared, AllSay, Written, Again, Pile, Grouped, Gathered;
    var items, items2 := Items(x, g, servers), Items(x, g, again);
    AgainWritten(x, g, servers, again);
    if Settles(x, g, servers) {
      forall k: nat | k < |again| ensures ServerLines(x, g, again[k]) + [""] == Gather(items, again[k].server.name) {
        LinesAgain(x, g, servers, again, k);
      }
      PileAgain(x, g, items, again);
      PileIsFlat(items);
    }
    if Pile(items2) == Pile(items) {
      assert SyntaxFacts(x) by { FactsOf(x, g, servers); }
      ItemsSay(x, g, servers);
      ItemsSay(x, g, again);
      FirstNamesDistinct(items);
      SamePileGrouped(x, items, items2);
      ReadPile(x, items);
      ReadPile(x, items2);
      forall name | Shared(items, name) ensures !Rewrites(g.w, g.ports, Merged(x, items, name)) {
        SharedNamed(items, name);
        SameGathered(ReadFrom(x, EMPTY, Pile(items)).value, items, items2, name);
        if Rewrites(g.w, g.ports, Merged(x, items, name)) {
          SharedDiffers(x, g, servers, again, name);
        }
      }
    }
  }

  lemma FactsOf(x: Syntax, g: Target, servers: seq<Parsed>)
    requires Written(x, g, servers)
    ensures SyntaxFacts(x)
  {
    hide SyntaxFacts;
  }

  lemma SameGathered(d: Doc, items: seq<Parsed>, again: seq<Parsed>, name: string)
    requires Gathered(d, items) && Gathered(d, again) && name in Names(items)
    ensures Gather(items, name) == Gather(again, name)
  {
    NoneGathered(items, name);
  }

  lemma AllListedOk(x: Syntax, g: Target, lines: seq<string>)
    requires FileOk(x, g, lines)
    ensures forall i :: 0 <= i < |ParseServers(x, lines).value| ==> ReadAs(x, ParseServers(x, lines).value[i])
  {
    hide ReadAs, ParseServers, SyntaxFacts;
    forall i: nat | i < |ParseServers(x, lines).value| ensures ReadAs(x, ParseServers(x, lines).value[i]) {
      ListedOk(x, lines, i);
    }
  }

  lemma NoServersAgain(x: Syntax, g: Target, lines: seq<string>)
    requires NoSections(x, lines)
    ensures RewriteLines(x, g, lines) == Some(Front(lines)) && Render(x, g, []) == []
  {
    ReadOutside(x, lines);
    assert Listed(EMPTY) == [];
    assert Front(lines) + [] == Front(lines);
    hide Front, IsSection;
  }

  lemma BlankFront()
    ensures Front(["", ""]) == [] && DropBlankTail(["", ""]) == []
  {
    assert TrimSpace("") == "";
    assert [""][..0] == [] && ["", ""][..1] == [""];
    assert DropBlankTail([""]) == [];
  }

  lemma {:induction false} RenderNoBreaks(x: Syntax, g: Target, servers: seq<Parsed>)
    requires forall i :: 0 <= i < |servers| ==> NoBreaks(ServerLines(x, g, servers[i]))
    ensures NoBreaks(Render(x, g, servers))
  {
    hide ServerLines;
    if |servers| > 1 {
      RenderNoBreaks(x, g, servers[..|servers| - 1]);
    }
  }

  lemma {:induction false} PassNoBreaks(x: Syntax, o: Outer, lines: seq<string>)
    requires NoBreaks(o.out) && NoBreaks(lines)
    ensures NoBreaks(PassFrom(x, o, lines).out)
  {
    if lines != [] {
      PassNoBreaks(x, o, lines[..|lines| - 1]);
    }
  }

  lemma WrittenNoBreaks(x: Syntax, g: Target, lines: seq<string>)
    requires FileOk(x, g, lines)
    ensures NoBreaks(RewriteLines(x, g, lines).value)
  {
    hide SyntaxFacts, ParseServers, ReadAs, Rewrites, PlainName, CanonicalName, Rewritten, ServerLines, Render, PassFrom, Says;
    var servers := ParseServers(x, lines).value;
    AllListedOk(x, g, lines);
    forall i | 0 <= i < |servers| ensures NoBreaks(ServerLines(x, g, servers[i])) {
      ItemSays(x, g, servers[i]);
    }
    RenderNoBreaks(x, g, servers);
    PassNoBreaks(x, Outer([], false), lines);
    DropBlankPrefix(Outside(x, lines));
  }

  lemma ReadBackIsSplit(out: seq<string>)
    requires NoBreaks(out)
    ensures Split(Join(out) + [LF]) == ReadBack(out)
  {
    if out == [] {
      assert Join(out) + [LF] == Join([""]) + [LF];
      SplitFile([""]);
    } else {
      SplitFile(out);
    }
  }

  lemma FrontNoBreaks(x: Syntax, lines: seq<string>)
    requires NoBreaks(lines)
    ensures NoBreaks(Front(Outside(x, lines)))
  {
    PassNoBreaks(x, Outer([], false), lines);
    DropBlankPrefix(Outside(x, lines));
  }

  /** Rewriting the lines of a rewritten file works, and gives the same lines exactly if the servers settle. */
  lemma RewriteLinesTwice(x: Syntax, g: Target, lines: seq<string>)
    requires FileOk(x, g, lines)
    ensures var out := RewriteLines(x, g, lines);
            && out.Some? && RewriteLines(x, g, ReadBack(out.value)).Some?
            && (ReadBack(RewriteLines(x, g, ReadBack(out.value)).value) == ReadBack(out.value)
                <==> Settles(x, g, ParseServers(x, lines).value))
            && (RewriteLines(x, g, ReadBack(out.value)) == out <==> Settles(x, g, ParseServers(x, lines).value))
  {
    hide SyntaxFacts, ParseServers, Outside, Front, ReadAs, Rewrites, PlainName, CanonicalName, Rewritten, Pile, Items, ServerLines, Render,
         NoSections, Written, Again, Settles;
    var servers, front := ParseServers(x, lines).value, Front(Outside(x, lines));
    WrittenParts(x, g, lines);
    FileWritten(x, g, lines);
    FrontIsOutside(x, lines);
    FrontTwice(Outside(x, lines));
    FrontNoBreaks(x, lines);
    if servers == [] {
      NoServersAgain(x, g, front + [""]);
      NoServersAgain(x, g, ["", ""]);
      BlankFront();
      assert front + [] == front;
      NothingToSettle(x, g);
    } else {
      var again := ReadWritten(x, g, front, servers);
      PileSettles(x, g, servers, again);
      AgainSome(x, g, servers, again);
      RenderIsPile(x, g, servers);
      RenderIsPile(x, g, again);
      SameFront(front, Render(x, g, servers), Render(x, g, again));
      SomeLines(x, g, servers);
      SomeLines(x, g, again);
      SameReadBack(front + Render(x, g, servers), front + Render(x, g, again));
    }
  }

  lemma SameReadBack(a: seq<string>, b: seq<string>)
    requires a != [] && b != []
    ensures ReadBack(a) == ReadBack(b) <==> a == b
  {
    assert (a + [""])[..|a|] == a && (b + [""])[..|b|] == b;
  }

  lemma NothingToSettle(x: Syntax, g: Target)
    ensures Settles(x, g, [])
  {
  }

  lemma AgainSome(x: Syntax, g: Target, servers: seq<Parsed>, again: seq<Parsed>)
    requires Written(x, g, servers) && servers != [] && Again(x, Items(x, g, servers), again)
    ensures again != [] && Written(x, g, again)
  {
    AgainWritten(x, g, servers, again);
    NoneGathered(Items(x, g, servers), Items(x, g, servers)[0].server.name);
    assert Names(Items(x, g, servers))[0] == Items(x, g, servers)[0].server.name;
    hide ReadAs, Rewrites, ServerLines, Rewritten, Gather, Merged;
  }

  lemma SameFront(front: seq<string>, a: seq<string>, b: seq<string>)
    ensures front + a == front + b <==> a + [""] == b + [""]
  {
    if front + a == front + b {
      assert (front + a)[|front|..] == a && (front + b)[|front|..] == b;
    }
    if a + [""] == b + [""] {
      assert (a + [""])[..|a|] == a && (b + [""])[..|b|] == b;
    }
  }

  lemma SomeLines(x: Syntax, g: Target, servers: seq<Parsed>)
    requires Written(x, g, servers) && servers != []
    ensures Render(x, g, servers) != []
  {
    hide Rewritten;
    ItemsSay(x, g, servers);
    assert Items(x, g, servers)[0].raw == ServerLines(x, g, servers[0]);
    RenderedSome(x, g, servers);
  }

  lemma FileAgain(x: Syntax, g: Target, lines: seq<string>)
    requires FileOk(x, g, lines)
    ensures FileOk(x, g, ReadBack(RewriteLines(x, g, lines).value))
  {
    hide SyntaxFacts, ParseServers, Outside, Front, ReadAs, Rewrites, PlainName, CanonicalName, Rewritten, Pile, Items, ServerLines, Render,
         NoSections, Written, Again;
    var servers, front := ParseServers(x, lines).value, Front(Outside(x, lines));
    WrittenParts(x, g, lines);
    FileWritten(x, g, lines);
    FrontIsOutside(x, lines);
    WrittenNoBreaks(x, g, lines);
    if servers == [] {
      NoneListed(x, front + [""]);
      NoneListed(x, ["", ""]);
    } else {
      FrontNoBreaks(x, lines);
      var again := ReadWritten(x, g, front, servers);
      AgainSome(x, g, servers, again);
      PlainAgain(x, g, again);
    }
  }

  lemma NoneListed(x: Syntax, lines: seq<string>)
    requires NoSections(x, lines)
    ensures ParseServers(x, lines) == Some([])
  {
    ReadOutside(x, lines);
    assert Listed(EMPTY) == [];
  }

  lemma PlainAgain(x: Syntax, g: Target, servers: seq<Parsed>)
    requires Written(x, g, servers)
    ensures forall i :: 0 <= i < |servers| && Rewrites(g.w, g.ports, servers[i].server) ==> PlainName(CanonicalName(servers[i].server.name))
  {
    hide Rewrites, PlainName, CanonicalName, ReadAs, Names;
  }

  /**
    Rewriting a file twice works, and equals rewriting it once exactly if equal rewritten names stand
    next to each other and no server that entries of one name are merged to is rewritten again.
  */
  lemma RewriteFileTwice(x: Syntax, g: Target, data: string)
    requires FileOk(x, g, Split(data))
    ensures var once := RewriteFile(x, g, data);
            && once.Some? && RewriteFile(x, g, once.value).Some?
            && (RewriteFile(x, g, once.value) == once <==> Settles(x, g, ParseServers(x, Split(data)).value))
  {
    hide FileOk, RewriteLines, Split, Join, Settles, ParseServers, ReadBack;
    var lines := Split(data);
    RewriteLinesTwice(x, g, lines);
    WrittenNoBreaks(x, g, lines);
    var once := RewriteLines(x, g, lines).value;
    ReadBackIsSplit(once);
    FileAgain(x, g, lines);
    WrittenNoBreaks(x, g, ReadBack(once));
    ReadBackIsSplit(RewriteLines(x, g, ReadBack(once)).value);
  }

  /** The lines outside MCP sections survive in their order, up to blank lines at the end. */
  lemma OutsideSurvives(x: Syntax, g: Target, data: string)
    requires FileOk(x, g, Split(data))
    ensures DropBlankTail(Outside(x, Split(RewriteFile(x, g, data).value))) == DropBlankTail(Outside(x, Split(data)))
  {
    hide SyntaxFacts, ParseServers, Outside, ReadAs, Rewrites, PlainName, CanonicalName, Rewritten, Pile, Items, ServerLines, Render,
         NoSections, Split, Join, DropBlankTail;
    var lines := Split(data);
    var servers, front := ParseServers(x, lines).value, Front(Outside(x, lines));
    WrittenNoBreaks(x, g, lines);
    ReadBackIsSplit(RewriteLines(x, g, lines).value);
    WrittenParts(x, g, lines);
    FrontIsOutside(x, lines);
    FileWritten(x, g, lines);
    FrontNoBreaks(x, lines);
    if servers == [] {
      OutsideIsAll(x, front + [""]);
      OutsideIsAll(x, ["", ""]);
      NoServersAgain(x, g, front);
    } else {
      var again := ReadWritten(x, g, front, servers);
    }
    FrontKeeps(Outside(x, lines));
  }

  lemma {:induction false} RenderStarts(x: Syntax, g: Target, servers: seq<Parsed>)
    requires servers != [] && SyntaxFacts(x) && ReadAs(x, servers[0])
    requires Rewrites(g.w, g.ports, servers[0].server) ==> PlainName(CanonicalName(servers[0].server.name))
    ensures Render(x, g, servers) != [] && IsSection(x, Render(x, g, servers)[0])
  {
    hide SyntaxFacts, ReadAs, Rewrites, PlainName, CanonicalName, ServerLines, IsSection;
    if |servers| == 1 {
      ItemSays(x, g, servers[0]);
      SaysOwn(x, Item(x, g, servers[0]));
    } else {
      RenderStarts(x, g, servers[..|servers| - 1]);
    }
  }

  lemma {:induction false} DropBlankLast(lines: seq<string>)
    ensures DropBlankTail(lines) != [] ==> TrimSpace(DropBlankTail(lines)[|DropBlankTail(lines)| - 1]) != ""
    ensures DropBlankTail(lines) == [] <==> forall i :: 0 <= i < |lines| ==> TrimSpace(lines[i]) == ""
  {
    hide TrimSpace;
    if lines != [] && TrimSpace(lines[|lines| - 1]) == "" {
      DropBlankLast(lines[..|lines| - 1]);
      assert forall i :: 0 <= i < |lines| - 1 ==> lines[..|lines| - 1][i] == lines[i];
    }
  }

  lemma NoneRendered(x: Syntax, g: Target)
    ensures Render(x, g, []) == []
  {
  }

  /** In a rewritten file one blank line parts the lines outside MCP sections, if any is not blank, from the first section. */
  lemma BlankBetween(x: Syntax, g: Target, lines: seq<string>, k: nat)
    requires FileOk(x, g, lines)
    requires var out := RewriteLines(x, g, lines).value; k < |out| && IsSection(x, out[k]) && forall j :: 0 <= j < k ==> !IsSection(x, out[j])
    ensures var out := RewriteLines(x, g, lines).value;
            if forall i :: 0 <= i < |Outside(x, lines)| ==> TrimSpace(Outside(x, lines)[i]) == "" then k == 0
            else k >= 2 && out[k - 1] == "" && TrimSpace(out[k - 2]) != ""
  {
    hide SyntaxFacts, ParseServers, Outside, ReadAs, Rewrites, PlainName, CanonicalName, Render, IsSection, DropBlankTail, TrimSpace;
    var servers, front := ParseServers(x, lines).value, Front(Outside(x, lines));
    FrontIsOutside(x, lines);
    DropBlankLast(Outside(x, lines));
    var out := RewriteLines(x, g, lines).value;
    assert out == front + Render(x, g, servers);
    forall j | 0 <= j < |front| ensures out[j] == front[j] && !IsSection(x, out[j]) {
    }
    NoneRendered(x, g);
    if servers != [] {
      ListedOk(x, lines, 0);
      RenderStarts(x, g, servers);
      assert (front + Render(x, g, servers))[|front|] == Render(x, g, servers)[0];
      assert k == |front|;
    }
  }

  lemma OutsideIsAll(x: Syntax, lines: seq<string>)
    requires NoSections(x, lines)
    ensures Outside(x, lines) == lines
  {
    ReadOutside(x, lines);
  }

  lemma FrontKeeps(out: seq<string>)
    ensures DropBlankTail(Front(out)) == DropBlankTail(out) == DropBlankTail(Front(out) + [""])
    ensures Front(out) == [] ==> DropBlankTail(["", ""]) == DropBlankTail(out)
  {
    var kept := DropBlankTail(out);
    DropBlankPrefix(out);
    assert TrimSpace("") == "";
    assert (kept + [""])[..|kept|] == kept;
    assert (kept + [""] + [""])[..|kept| + 1] == kept + [""];
    BlankFront();
  }
}
