/** Whole-run results about the graph migration. */
module MigrationTheorems {
  import opened PropertyGraph
  import opened Migration
  import opened MigrationPaths
  import opened MigrationTools

  // --- Label renames ---

  /** Edges and identities are untouched; only the two labels involved and the provenance change. */
  ghost predicate RelabelledNode(n: Node, n': Node, l: Label, into: Label) {
    && (forall a :: a != l && a != into ==> (a in n'.labels <==> a in n.labels))
    && (into in n'.labels <==> into in n.labels || l in n.labels)
    && (l in n'.labels ==> l in n.labels)
    && (forall k :: k != Source && k != UpdatedAt && k != MigratedFrom ==>
          (k in n'.props <==> k in n.props) && (k in n.props ==> n'.props[k] == n.props[k]))
    && (Source in n.props ==> Source in n'.props && n'.props[Source] == n.props[Source])
    && (Source !in n.props ==> Source !in n'.props || n'.props[Source] == MIGRATION_SOURCE)
    && (l in n.labels ==> Source in n'.props)
  }

  lemma RelabelOne(n: Node, l: Label, was: string, into: Label, keep: bool, now: string)
    requires l != into
    ensures var m := if l in n.labels then Stamped(n, was, into, now) else n;
            RelabelledNode(n, if keep then m else m.(labels := m.labels - {l}), l, into)
  {
  }

  lemma RenameFacts(g: Graph, l: Label, was: string, into: Label, kept: set<nat>, now: string)
    requires l != into
    ensures var g' := RenameLabel(g, l, was, into, kept, now);
            && g'.nodes.Keys == g.nodes.Keys && g'.edges == g.edges && g'.next == g.next
            && forall x :: x in g.nodes ==> RelabelledNode(g.nodes[x], g'.nodes[x], l, into)
  {
    var g' := RenameLabel(g, l, was, into, kept, now);
    forall x | x in g.nodes ensures RelabelledNode(g.nodes[x], g'.nodes[x], l, into) {
      RelabelOne(g.nodes[x], l, was, into, x in kept, now);
      if Labelled(g, l) == {} {
        assert x !in Labelled(g, l);
      }
    }
  }

  lemma RenameSound(g: Graph, l: Label, was: string, into: Label, kept: set<nat>, now: string)
    requires Sound(g) && l != into && Family(l) == Family(into)
    ensures Sound(RenameLabel(g, l, was, into, kept, now))
  {
    var g' := RenameLabel(g, l, was, into, kept, now);
    RenameFacts(g, l, was, into, kept, now);
    forall x, a | x in g'.nodes && a in g'.nodes[x].labels
      ensures exists b :: b in g.nodes[x].labels && Family(b) == Family(a)
    {
      assert RelabelledNode(g.nodes[x], g'.nodes[x], l, into);
      var b := if a in g.nodes[x].labels then a else l;
      assert b in g.nodes[x].labels;
    }
  }

  /** Every label of the old one moves to the new one; with nothing kept, none is left. */
  lemma RenameEmpties(g: Graph, l: Label, was: string, into: Label, now: string)
    requires l != into
    ensures Labelled(RenameLabel(g, l, was, into, {}, now), l) == {}
  {
  }

  /** A tool of the old or of the new ontology. */
  predicate ToolIn(g: Graph, x: nat) {
    IsA(g, x, MCPSource) || IsA(g, x, MCPTool)
  }

  /** No provenance, or the migration's own. */
  predicate Unsourced(n: Node) {
    Source !in n.props || n.props[Source] == MIGRATION_SOURCE
  }

  /** A node before and after both renames. */
  ghost predicate CarriedOver(n: Node, n1: Node) {
    && (DomainSource in n1.labels <==> DomainSource in n.labels || LogSource in n.labels)
    && (MCPTool in n1.labels <==> MCPTool in n.labels || MCPSource in n.labels)
    && (forall a :: a != DomainSource && a != LogSource && a != MCPTool && a != MCPSource ==>
        (a in n1.labels <==> a in n.labels))
    && (forall k :: k != Source && k != UpdatedAt && k != MigratedFrom ==>
          (k in n1.props <==> k in n.props) && (k in n.props ==> n1.props[k] == n.props[k]))
    && (Unsourced(n1) <==> Unsourced(n))
  }

  /** The graph after both renames, seen from the graph before. */
  ghost predicate AfterRenames(g: Graph, g1: Graph) {
    && g1.nodes.Keys == g.nodes.Keys && g1.edges == g.edges
    && forall x :: x in g.nodes ==> CarriedOver(g.nodes[x], g1.nodes[x])
  }

  lemma BothRelabelled(n: Node, na: Node, n1: Node)
    requires RelabelledNode(n, na, MCPSource, MCPTool) && RelabelledNode(na, n1, LogSource, DomainSource)
    ensures CarriedOver(n, n1)
  {
  }

  lemma RenamesFacts(g: Graph, c: Choices, now: string)
    requires Sound(g)
    ensures Sound(Renames(g, c, now)) && AfterRenames(g, Renames(g, c, now))
  {
    var ga := RenameLabel(g, MCPSource, "MCPSource", MCPTool, c.keptTools, now);
    var g1 := Renames(g, c, now);
    RenameFacts(g, MCPSource, "MCPSource", MCPTool, c.keptTools, now);
    RenameSound(g, MCPSource, "MCPSource", MCPTool, c.keptTools, now);
    RenameFacts(ga, LogSource, "LogSource", DomainSource, c.keptDomains, now);
    RenameSound(ga, LogSource, "LogSource", DomainSource, c.keptDomains, now);
    forall x | x in g.nodes ensures CarriedOver(g.nodes[x], g1.nodes[x]) {
      BothRelabelled(g.nodes[x], ga.nodes[x], g1.nodes[x]);
    }
  }

  // --- The split and the ToolRef collapse, as seen by tools ---

  /** The tools are the same nodes with the same names and provenance. */
  ghost predicate ToolsSame(g: Graph, g': Graph) {
    && (forall x :: IsA(g', x, MCPTool) <==> IsA(g, x, MCPTool))
    && (forall x :: IsA(g, x, MCPTool) ==> SameNode(g.nodes[x], g'.nodes[x]))
  }

  lemma MergeToolsSame(g: Graph, l: Label, k: Key, v: string, extra: map<Key, string>, now: string)
    requires WellFormed(g) && l != MCPTool && k != UpdatedAt
    ensures ToolsSame(g, Merge(g, l, k, v, extra, now))
  {
  }

  lemma CreateNodesToolsSame(g: Graph, r: Record, now: string)
    requires Sound(g)
    ensures ToolsSame(g, CreateNodes(g, r, now))
  {
    if r.dsType == "mcp" {
      MergeFacts(g, MCPServer, ConfigKey, r.configKey, ServerProps(r, now), now);
      MergeToolsSame(g, MCPServer, ConfigKey, r.configKey, ServerProps(r, now), now);
      var ga := Merge(g, MCPServer, ConfigKey, r.configKey, ServerProps(r, now), now);
      MergeToolsSame(ga, DataStore, Uri, DeriveUri(r), StoreProps(r, now), now);
      ToolsSameTrans(g, ga, CreateNodes(g, r, now));
    } else {
      MergeToolsSame(g, DataStore, Uri, DeriveUri(r), StoreProps(r, now), now);
    }
  }

  lemma ToolsSameTrans(g: Graph, g1: Graph, g2: Graph)
    requires ToolsSame(g, g1) && ToolsSame(g1, g2)
    ensures ToolsSame(g, g2)
  {
  }

  lemma RewiringKeepsNodes(g: Graph, r: Record, now: string)
    requires r.configKey != ""
    ensures SplitOne(g, r, now).nodes == CreateNodes(g, r, now).nodes
  {
  }

  lemma SplitOneToolsSame(g: Graph, r: Record, now: string)
    requires Sound(g)
    ensures ToolsSame(g, SplitOne(g, r, now))
  {
    if r.configKey != "" {
      CreateNodesToolsSame(g, r, now);
      RewiringKeepsNodes(g, r, now);
    }
  }

  lemma {:induction false} SplitAllToolsSame(g: Graph, rs: seq<Record>, now: string)
    requires Sound(g)
    ensures Sound(SplitAll(g, rs, now)) && ToolsSame(g, SplitAll(g, rs, now))
    decreases |rs|
  {
    if rs != [] {
      SplitOneKeeps(g, rs[0], now);
      SplitOneToolsSame(g, rs[0], now);
      SplitAllToolsSame(SplitOne(g, rs[0], now), rs[1..], now);
      ToolsSameTrans(g, SplitOne(g, rs[0], now), SplitAll(g, rs, now));
    }
  }

  lemma SplitToolsSame(g: Graph, order: seq<nat>, now: string)
    requires Sound(g) && Enumerates(order, Labelled(g, DataSource))
    ensures Sound(Split(g, order, now)) && ToolsSame(g, Split(g, order, now))
  {
    if order != [] {
      var rs := Records(g, order);
      SplitAllToolsSame(g, rs, now);
      var g1 := SplitAll(g, rs, now);
      DeleteFacts(g1, Labelled(g1, DataSource));
      forall x | IsA(g1, x, MCPTool) ensures !IsA(g1, x, DataSource) {
        NotBoth(g1, x, MCPTool, DataSource);
      }
    }
  }

  /** Only ToolRef nodes go, and only USES_TOOL edges or edges of ToolRef nodes. */
  lemma CollapseFacts(g: Graph)
    requires Sound(g)
    ensures var g' := CollapseToolRefs(g);
            && Sound(g')
            && (forall x :: x in g'.nodes <==> x in g.nodes && !IsA(g, x, ToolRef))
            && (forall x :: x in g'.nodes ==> g'.nodes[x] == g.nodes[x])
            && (forall e :: e in g.edges && e.typ != UsesTool && e.src in g'.nodes && e.dst in g'.nodes ==>
                e in g'.edges)
  {
    if Labelled(g, ToolRef) == {} {
      forall x | x in g.nodes ensures !IsA(g, x, ToolRef) {
        assert x !in Labelled(g, ToolRef);
      }
    }
  }

  /** A strategy that used a tool reference uses every tool of that name afterwards. */
  lemma StrategyKeepsTools(g: Graph, s: nat, t: nat, x: nat, nm: string)
    requires Sound(g) && IsA(g, s, Strategy) && Edge(s, UsesTool, t) in g.edges
    requires Matches(g, t, ToolRef, Name, nm) && Matches(g, x, MCPTool, Name, nm)
    ensures Edge(s, UsesTool, x) in CollapseToolRefs(g).edges
  {
    var e := Edge(s, UsesTool, t);
    assert x in NamedLike(g, t);
    var g1 := RewireUses(g);
    assert Edge(s, UsesTool, x) in g1.edges by {
      var was := set e | e in g.edges && UsesToolRef(g, e) && NamedLike(g, e.dst) != {};
      assert e in was;
    }
    NotBoth(g, x, MCPTool, ToolRef);
    NotBoth(g, s, Strategy, ToolRef);
    assert t in Labelled(g, ToolRef);
  }

  // --- The name cleanup, seen from the graph before the migration ---

  /** Some unsourced tool carries this hyphenated name, so the cleanup processes it. */
  ghost predicate Cleaned(g: Graph, nm: string) {
    Hyphenated(nm) && exists x :: ToolIn(g, x) && Has(g, x, Name, nm) && Unsourced(g.nodes[x])
  }

  ghost predicate NameTaken(g: Graph, nm: string) {
    exists y :: ToolIn(g, y) && Has(g, y, Name, nm)
  }

  /** The cleanup processes the tool's name, and another tool already has the dotted form. */
  ghost predicate Displaced(g: Graph, m: nat) {
    m in g.nodes && Name in g.nodes[m].props && Cleaned(g, g.nodes[m].props[Name])
      && NameTaken(g, Dotted(g.nodes[m].props[Name]))
  }

  /** The graph the name cleanup starts from. */
  function BeforeCleanup(g: Graph, c: Choices, now: string): Graph
    requires forall x :: x in c.sources ==> x in Renames(g, c, now).nodes
  {
    CollapseToolRefs(Split(Renames(g, c, now), c.sources, now))
  }

  /** The tools of the cleanup's graph are the tools of the original one. */
  ghost predicate SameTools(g: Graph, g2: Graph) {
    && (forall x :: IsA(g2, x, MCPTool) <==> ToolIn(g, x))
    && (forall x :: ToolIn(g, x) ==> SameTool(g.nodes[x], g2.nodes[x]))
  }

  ghost predicate SameTool(n: Node, n': Node) {
    && (Name in n'.props <==> Name in n.props)
    && (Name in n.props ==> n'.props[Name] == n.props[Name])
    && (Unsourced(n') <==> Unsourced(n))
  }

  lemma RenamesSameTools(g: Graph, g1: Graph)
    requires AfterRenames(g, g1)
    ensures SameTools(g, g1)
  {
  }

  lemma SameToolsStep(g: Graph, g1: Graph, g2: Graph)
    requires SameTools(g, g1) && ToolsSame(g1, g2)
    ensures SameTools(g, g2)
  {
  }

  lemma CollapseToolsSame(g: Graph)
    requires Sound(g)
    ensures ToolsSame(g, CollapseToolRefs(g))
  {
    CollapseFacts(g);
    forall x | IsA(g, x, MCPTool) ensures !IsA(g, x, ToolRef) {
      NotBoth(g, x, MCPTool, ToolRef);
    }
  }

  lemma ToolsBeforeCleanup(g: Graph, c: Choices, now: string)
    requires Sound(g) && Enumerates(c.sources, Labelled(Renames(g, c, now), DataSource))
    ensures Sound(BeforeCleanup(g, c, now)) && SameTools(g, BeforeCleanup(g, c, now))
  {
    var g1 := Renames(g, c, now);
    RenamesFacts(g, c, now);
    RenamesSameTools(g, g1);
    SplitToolsSame(g1, c.sources, now);
    var gs := Split(g1, c.sources, now);
    SameToolsStep(g, g1, gs);
    CollapseFacts(gs);
    CollapseToolsSame(gs);
    SameToolsStep(g, gs, CollapseToolRefs(gs));
  }

  lemma CleanedNames(g: Graph, g2: Graph, order: seq<nat>, nm: string)
    requires SameTools(g, g2) && Enumerates(order, set x | x in g2.nodes && Eligible(g2, x))
    ensures AllHyphenated(NamesOf(g2, order))
    ensures nm in NamesOf(g2, order) <==> Cleaned(g, nm)
  {
    var names := NamesOf(g2, order);
    forall i | 0 <= i < |names| ensures Hyphenated(names[i]) {
      assert order[i] in order;
    }
    if nm in names {
      var i :| 0 <= i < |names| && names[i] == nm;
      assert order[i] in order;
      assert Has(g, order[i], Name, nm);
    }
    if Cleaned(g, nm) {
      var x :| ToolIn(g, x) && Has(g, x, Name, nm) && Unsourced(g.nodes[x]);
      assert Has(g2, x, Name, nm);
      assert Eligible(g2, x);
      assert x in order;
      var i :| 0 <= i < |order| && order[i] == x;
      assert names[i] == nm;
    }
  }

  lemma TakenBefore(g: Graph, g2: Graph, nm: string)
    requires SameTools(g, g2)
    ensures Taken(g2, nm) <==> NameTaken(g, nm)
  {
    if NameTaken(g, nm) {
      var y :| ToolIn(g, y) && Has(g, y, Name, nm);
      assert Has(g2, y, Name, nm);
      assert y in Matching(g2, MCPTool, Name, nm);
    }
    if Taken(g2, nm) {
      var y :| y in Matching(g2, MCPTool, Name, nm);
      assert Has(g, y, Name, nm);
    }
  }

  /** The result of the cleanup on the tool, in terms of the original graph. */
  lemma ToolAfterCleanup(g: Graph, g2: Graph, order: seq<nat>, now: string, m: nat)
    requires SameTools(g, g2) && ToolIn(g, m) && Enumerates(order, set x | x in g2.nodes && Eligible(g2, x))
    ensures AllHyphenated(NamesOf(g2, order))
    ensures var g3 := CleanAll(g2, NamesOf(g2, order), now);
            && (m in g3.nodes <==> !Displaced(g, m))
            && (m in g3.nodes && Name in g.nodes[m].props ==>
                  var nm := g.nodes[m].props[Name]; Has(g3, m, Name, if Cleaned(g, nm) then Dotted(nm) else nm))
  {
    var names := NamesOf(g2, order);
    CleanedNames(g, g2, order, "");
    if Name in g.nodes[m].props {
      var nm := g.nodes[m].props[Name];
      assert Has(g, m, Name, nm);
      assert Has(g2, m, Name, nm);
      CleanedNames(g, g2, order, nm);
      TakenBefore(g, g2, Dotted(nm));
      ToolFate(g2, names, now, m, nm);
    } else {
      CleanAllLeaves(g2, names, now, m);
    }
  }

  // --- Backfill ---

  lemma BackfillFacts(g: Graph, l: Label, now: string)
    ensures var g' := Backfill(g, l, now);
            && g'.nodes.Keys == g.nodes.Keys && g'.edges == g.edges
            && (forall x :: x in g.nodes ==> g'.nodes[x].labels == g.nodes[x].labels)
            && (forall x, k, v :: k != Source && k != UpdatedAt ==> (Has(g', x, k, v) <==> Has(g, x, k, v)))
  {
  }

  function Backfills(g: Graph, now: string): Graph {
    Backfill(Backfill(g, MCPTool, now), MCPServer, now)
  }

  lemma BackfillsKeep(g: Graph, now: string)
    ensures var g' := Backfills(g, now);
            && g'.nodes.Keys == g.nodes.Keys && g'.edges == g.edges
            && (forall x :: x in g.nodes ==> g'.nodes[x].labels == g.nodes[x].labels)
            && (forall x, k, v :: k != Source && k != UpdatedAt ==> (Has(g', x, k, v) <==> Has(g, x, k, v)))
  {
    BackfillFacts(g, MCPTool, now);
    BackfillFacts(Backfill(g, MCPTool, now), MCPServer, now);
  }

  // --- Paths through the whole migration ---

  /** LogSource l, gateway DataSource d with a unique non-empty key, MCPSource m, linked. */
  ghost predicate LegacyPath(g: Graph, l: nat, d: nat, m: nat, k: string) {
    && IsA(g, l, LogSource) && IsA(g, m, MCPSource)
    && Matches(g, d, DataSource, ConfigKey, k) && Has(g, d, Type, "mcp") && k != "" && UniqueKey(g, d, k)
    && Edge(l, QueryableVia, d) in g.edges && Edge(d, FetchableVia, m) in g.edges
  }

  lemma RenamedPath(g: Graph, g1: Graph, l: nat, d: nat, m: nat, k: string)
    requires AfterRenames(g, g1) && LegacyPath(g, l, d, m, k)
    ensures OldPath(g1, l, d, m, k) && UniqueKey(g1, d, k) && Has(g1, d, Type, "mcp")
  {
    forall x | Matches(g1, x, DataSource, ConfigKey, k) ensures x == d {
      assert CarriedOver(g.nodes[x], g1.nodes[x]);
      assert Matches(g, x, DataSource, ConfigKey, k);
    }
  }

  lemma CollapseKeepsPath(g: Graph, l: nat, store: nat, server: nat, m: nat, k: string)
    requires Sound(g) && NewPath(g, l, store, server, m, k)
    ensures NewPath(CollapseToolRefs(g), l, store, server, m, k)
  {
    NotBoth(g, l, DomainSource, ToolRef);
    NotBoth(g, store, DataStore, ToolRef);
    NotBoth(g, server, MCPServer, ToolRef);
    NotBoth(g, m, MCPTool, ToolRef);
    CollapseFacts(g);
  }

  lemma PathBeforeCleanup(g: Graph, c: Choices, now: string, l: nat, d: nat, m: nat, k: string)
    returns (store: nat, server: nat)
    requires Sound(g) && LegacyPath(g, l, d, m, k) && Enumerates(c.sources, Labelled(Renames(g, c, now), DataSource))
    ensures NewPath(BeforeCleanup(g, c, now), l, store, server, m, k)
  {
    var g1 := Renames(g, c, now);
    RenamesFacts(g, c, now);
    RenamedPath(g, g1, l, d, m, k);
    store, server := SplitRewritesPath(g1, c.sources, now, l, d, m, k);
    CollapseKeepsPath(Split(g1, c.sources, now), l, store, server, m, k);
  }

  /** Every legacy path becomes a path of the new ontology, for every tool the migration keeps; and
      the tools it keeps are exactly those that are not displaced by a tool already holding the
      dotted name. */
  lemma LegacyPathMigrates(g: Graph, g': Graph, c: Choices, now: string, l: nat, d: nat, m: nat, k: string)
    returns (store: nat, server: nat)
    requires Sound(g) && LegacyPath(g, l, d, m, k) && Migrates(g, g', c, now)
    ensures m in g'.nodes <==> !Displaced(g, m)
    ensures m in g'.nodes ==> NewPath(g', l, store, server, m, k)
  {
    var g2 := BeforeCleanup(g, c, now);
    store, server := PathBeforeCleanup(g, c, now, l, d, m, k);
    ToolsBeforeCleanup(g, c, now);
    ToolAfterCleanup(g, g2, c.tools, now, m);
    var g3 := CleanAll(g2, NamesOf(g2, c.tools), now);
    BackfillsKeep(g3, now);
    if m in g3.nodes {
      CleanAllKeepsPath(g2, NamesOf(g2, c.tools), now, l, store, server, m, k);
    }
  }

  /** Which tools survive, under which name, for every graph. */
  lemma ToolsMigrate(g: Graph, g': Graph, c: Choices, now: string, m: nat)
    requires Sound(g) && Migrates(g, g', c, now) && ToolIn(g, m)
    ensures m in g'.nodes <==> !Displaced(g, m)
    ensures m in g'.nodes && Name in g.nodes[m].props ==>
              var nm := g.nodes[m].props[Name]; Has(g', m, Name, if Cleaned(g, nm) then Dotted(nm) else nm)
  {
    var g2 := BeforeCleanup(g, c, now);
    ToolsBeforeCleanup(g, c, now);
    ToolAfterCleanup(g, g2, c.tools, now, m);
    BackfillsKeep(CleanAll(g2, NamesOf(g2, c.tools), now), now);
  }

  // --- Fields and strategies through the whole migration ---

  lemma {:induction false} SplitAllKeeps(g: Graph, rs: seq<Record>, now: string)
    requires Sound(g)
    ensures var g' := SplitAll(g, rs, now);
            && Sound(g') && NodesKept(g, g')
            && (forall e :: e in g.edges && e.typ != QueryableVia && e.typ != FetchableVia ==> e in g'.edges)
    decreases |rs|
  {
    if rs != [] {
      SplitOneKeeps(g, rs[0], now);
      SplitAllKeeps(SplitOne(g, rs[0], now), rs[1..], now);
      NodesKeptTrans(g, SplitOne(g, rs[0], now), SplitAll(g, rs, now));
    }
  }

  /** An edge outside the rewired types, between nodes that are not DataSources, survives the split. */
  lemma SplitKeepsEdge(g: Graph, order: seq<nat>, now: string, e: Edge)
    requires Sound(g) && Enumerates(order, Labelled(g, DataSource)) && e in g.edges
    requires e.typ != QueryableVia && e.typ != FetchableVia && !IsA(g, e.src, DataSource) && !IsA(g, e.dst, DataSource)
    ensures var g' := Split(g, order, now);
            e in g'.edges && e.src in g'.nodes && e.dst in g'.nodes
            && SameNode(g.nodes[e.src], g'.nodes[e.src]) && SameNode(g.nodes[e.dst], g'.nodes[e.dst])
  {
    if order != [] {
      SplitAllKeeps(g, Records(g, order), now);
    }
  }

  lemma {:induction false} CleanAllKeepsEdge(g: Graph, names: seq<string>, now: string, e: Edge)
    requires AllHyphenated(names) && e in g.edges && e.typ != ReturnsField
    requires e.src in CleanAll(g, names, now).nodes && e.dst in CleanAll(g, names, now).nodes
    ensures e in CleanAll(g, names, now).edges
    decreases |names|
  {
    if names != [] {
      CleanAllShrinks(CleanOne(g, names[0], now), names[1..], now);
      CleanOneEdges(g, names[0], now, e);
      CleanAllKeepsEdge(CleanOne(g, names[0], now), names[1..], now, e);
    }
  }

  lemma CollapseKeepsField(g: Graph, t: nat, f: nat)
    requires Sound(g) && Returns(g, t, f)
    ensures Returns(CollapseToolRefs(g), t, f)
  {
    CollapseFacts(g);
    NotBoth(g, t, MCPTool, ToolRef);
    NotBoth(g, f, MCPField, ToolRef);
  }

  lemma SplitKeepsField(g: Graph, order: seq<nat>, now: string, t: nat, f: nat)
    requires Sound(g) && Enumerates(order, Labelled(g, DataSource)) && Returns(g, t, f)
    ensures Returns(Split(g, order, now), t, f)
  {
    NotBoth(g, t, MCPTool, DataSource);
    NotBoth(g, f, MCPField, DataSource);
    SplitKeepsEdge(g, order, now, Edge(t, ReturnsField, f));
  }

  lemma FieldBeforeCleanup(g: Graph, c: Choices, now: string, t: nat, f: nat)
    requires Sound(g) && ToolIn(g, t) && IsA(g, f, MCPField) && Edge(t, ReturnsField, f) in g.edges
    requires Enumerates(c.sources, Labelled(Renames(g, c, now), DataSource))
    ensures Returns(BeforeCleanup(g, c, now), t, f)
  {
    var g1 := Renames(g, c, now);
    RenamesFacts(g, c, now);
    assert CarriedOver(g.nodes[t], g1.nodes[t]) && CarriedOver(g.nodes[f], g1.nodes[f]);
    SplitKeepsField(g1, c.sources, now, t, f);
    SplitToolsSame(g1, c.sources, now);
    CollapseKeepsField(Split(g1, c.sources, now), t, f);
  }

  /** No field is lost: after the migration it is returned by a tool whose name is the tool's name, dotted
      if the cleanup processed it, or by the tool itself if it has no name. */
  lemma FieldsMigrate(g: Graph, g': Graph, c: Choices, now: string, t: nat, f: nat)
    returns (t': nat)
    requires Sound(g) && Migrates(g, g', c, now) && ToolIn(g, t)
    requires IsA(g, f, MCPField) && Edge(t, ReturnsField, f) in g.edges
    ensures Returns(g', t', f)
    ensures Name in g.nodes[t].props ==>
              var nm := g.nodes[t].props[Name]; Has(g', t', Name, if Cleaned(g, nm) then Dotted(nm) else nm)
    ensures Name !in g.nodes[t].props ==> t' == t
  {
    var g2 := BeforeCleanup(g, c, now);
    ToolsBeforeCleanup(g, c, now);
    FieldBeforeCleanup(g, c, now, t, f);
    var nm := ToString(g.nodes[t], Name);
    CleanedNames(g, g2, c.tools, nm);
    if Name in g.nodes[t].props {
      assert Has(g2, t, Name, nm);
      t' := FieldsSurvive(g2, NamesOf(g2, c.tools), now, t, nm, f);
    } else {
      t' := t;
      UnnamedFieldSurvives(g2, NamesOf(g2, c.tools), now, t, f);
    }
    BackfillsKeep(CleanAll(g2, NamesOf(g2, c.tools), now), now);
  }

  lemma {:induction false} UnnamedFieldSurvives(g: Graph, names: seq<string>, now: string, t: nat, f: nat)
    requires Sound(g) && AllHyphenated(names) && Returns(g, t, f) && Name !in g.nodes[t].props
    ensures Returns(CleanAll(g, names, now), t, f)
    decreases |names|
  {
    if names != [] {
      FieldKept(g, names[0], now, t, f);
      CleanOneNodes(g, names[0], now);
      CleanOneSound(g, names[0], now);
      UnnamedFieldSurvives(CleanOne(g, names[0], now), names[1..], now, t, f);
    }
  }

  lemma StrategyAfterSplit(g: Graph, order: seq<nat>, now: string, s: nat, t: nat, x: nat, nm: string)
    requires Sound(g) && Enumerates(order, Labelled(g, DataSource)) && IsA(g, s, Strategy)
    requires Edge(s, UsesTool, t) in g.edges && Matches(g, t, ToolRef, Name, nm) && Matches(g, x, MCPTool, Name, nm)
    ensures var gs := Split(g, order, now);
            && Sound(gs) && IsA(gs, s, Strategy) && Edge(s, UsesTool, t) in gs.edges
            && Matches(gs, t, ToolRef, Name, nm) && Matches(gs, x, MCPTool, Name, nm)
  {
    NotBoth(g, s, Strategy, DataSource);
    NotBoth(g, t, ToolRef, DataSource);
    SplitKeepsEdge(g, order, now, Edge(s, UsesTool, t));
    SplitToolsSame(g, order, now);
    assert SameNode(g.nodes[x], Split(g, order, now).nodes[x]);
  }

  lemma StrategyBeforeCleanup(g: Graph, c: Choices, now: string, s: nat, t: nat, x: nat, nm: string)
    requires Sound(g) && IsA(g, s, Strategy) && Edge(s, UsesTool, t) in g.edges
    requires Matches(g, t, ToolRef, Name, nm) && ToolIn(g, x) && Has(g, x, Name, nm)
    requires Enumerates(c.sources, Labelled(Renames(g, c, now), DataSource))
    ensures Edge(s, UsesTool, x) in BeforeCleanup(g, c, now).edges && IsA(BeforeCleanup(g, c, now), s, Strategy)
  {
    var g1 := Renames(g, c, now);
    RenamesFacts(g, c, now);
    assert CarriedOver(g.nodes[s], g1.nodes[s]) && CarriedOver(g.nodes[t], g1.nodes[t]);
    assert CarriedOver(g.nodes[x], g1.nodes[x]);
    StrategyAfterSplit(g1, c.sources, now, s, t, x, nm);
    var gs := Split(g1, c.sources, now);
    StrategyKeepsTools(gs, s, t, x, nm);
    NotBoth(gs, s, Strategy, ToolRef);
    CollapseFacts(gs);
  }

  /** A strategy that depended on a tool by reference depends on the tool itself afterwards, for every
      tool of that name the migration keeps. */
  lemma StrategiesMigrate(g: Graph, g': Graph, c: Choices, now: string, s: nat, t: nat, x: nat, nm: string)
    requires Sound(g) && Migrates(g, g', c, now) && IsA(g, s, Strategy) && Edge(s, UsesTool, t) in g.edges
    requires Matches(g, t, ToolRef, Name, nm) && ToolIn(g, x) && Has(g, x, Name, nm) && !Displaced(g, x)
    ensures Edge(s, UsesTool, x) in g'.edges
  {
    var g2 := BeforeCleanup(g, c, now);
    ToolsBeforeCleanup(g, c, now);
    StrategyBeforeCleanup(g, c, now, s, t, x, nm);
    ToolAfterCleanup(g, g2, c.tools, now, x);
    var names := NamesOf(g2, c.tools);
    NotBoth(g2, s, Strategy, MCPTool);
    CleanAllLeaves(g2, names, now, s);
    CleanAllKeepsEdge(g2, names, now, Edge(s, UsesTool, x));
    BackfillsKeep(CleanAll(g2, names, now), now);
  }
}
