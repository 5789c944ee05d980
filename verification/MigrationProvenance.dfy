/** Where every tool of the migrated graph says it comes from (internal/graph/migrate.go). */
module MigrationProvenance {
  import opened PropertyGraph
  import opened Migration
  import opened MigrationPaths
  import opened MigrationTools
  import opened MigrationTheorems

  /** A renamed node keeps its source or gets the migration's, and says when and from which label. */
  lemma RenameStamps(g: Graph, l: Label, was: string, into: Label, kept: set<nat>, now: string, x: nat)
    requires l != into && IsA(g, x, l)
    ensures var g' := RenameLabel(g, l, was, into, kept, now);
            && IsA(g', x, into) && Has(g', x, UpdatedAt, now) && Has(g', x, MigratedFrom, was)
            && Has(g', x, Source, if Source in g.nodes[x].props then g.nodes[x].props[Source] else "migration:v1")
  {
    assert x in Labelled(g, l);
  }

  lemma RenameSkips(g: Graph, l: Label, was: string, into: Label, kept: set<nat>, now: string, x: nat)
    requires x in g.nodes && !IsA(g, x, l)
    ensures RenameLabel(g, l, was, into, kept, now).nodes[x].props == g.nodes[x].props
  {
  }

  /** A tool or server without a source is marked as manual at the end. */
  lemma BackfillStamps(g: Graph, now: string, x: nat)
    requires IsA(g, x, MCPTool) || IsA(g, x, MCPServer)
    ensures var g' := Backfills(g, now);
            && (Source in g.nodes[x].props ==> g'.nodes[x] == g.nodes[x])
            && (Source !in g.nodes[x].props ==> Has(g', x, Source, "manual:legacy") && Has(g', x, UpdatedAt, now))
  {
  }

  /** A server that the split adds is of type mcp and comes from a DataSource. */
  lemma NewServerStamps(g: Graph, r: Record, now: string, v: nat)
    requires Sound(g) && r.configKey != "" && v !in g.nodes && IsA(SplitOne(g, r, now), v, MCPServer)
    ensures var g' := SplitOne(g, r, now);
            && r.dsType == "mcp" && Has(g', v, ConfigKey, r.configKey) && Has(g', v, Type, "mcp")
            && Has(g', v, Source, "migration:v1") && Has(g', v, MigratedFrom, "DataSource")
            && Has(g', v, UpdatedAt, now)
  {
    RewiringKeepsNodes(g, r, now);
  }

  /** A node that a MERGE finds is touched, and only in its update time; no other node is. */
  lemma MergeStamps(g: Graph, l: Label, k: Key, v: string, extra: map<Key, string>, now: string, x: nat)
    requires x in g.nodes && Matching(g, l, k, v) != {}
    ensures var g' := Merge(g, l, k, v, extra, now);
            && x in g'.nodes && SameNode(g.nodes[x], g'.nodes[x])
            && (Matches(g, x, l, k, v) ==> Has(g', x, UpdatedAt, now))
            && (!Matches(g, x, l, k, v) ==> g'.nodes[x] == g.nodes[x])
  {
  }

  /** A cleaned-up tool has its dotted name, and says when it was renamed and from what. */
  lemma CleanupStamps(g: Graph, names: seq<string>, now: string, m: nat, nm: string)
    requires AllHyphenated(names) && nm in names
    requires Matches(g, m, MCPTool, Name, nm) && m in CleanAll(g, names, now).nodes
    ensures var g' := CleanAll(g, names, now);
            && Has(g', m, Name, Dotted(nm)) && Has(g', m, Source, "migration:v1")
            && Has(g', m, UpdatedAt, now) && Has(g', m, MigratedFrom, nm)
  {
    ToolNode(g, names, now, m, nm);
  }

  /** The node of a tool after the cleanup: renamed and stamped if its name was cleaned, else untouched. */
  lemma {:induction false} ToolNode(g: Graph, names: seq<string>, now: string, m: nat, nm: string)
    requires AllHyphenated(names) && Matches(g, m, MCPTool, Name, nm) && m in CleanAll(g, names, now).nodes
    ensures CleanAll(g, names, now).nodes[m] ==
            if nm in names then Renamed(g.nodes[m], nm, Dotted(nm), now) else g.nodes[m]
    decreases |names|
  {
    if nm !in names {
      forall i | 0 <= i < |names| ensures !Matches(g, m, MCPTool, Name, names[i]) {
        assert names[i] in names;
      }
      CleanAllLeaves(g, names, now, m);
    } else {
      var g1 := CleanOne(g, names[0], now);
      CleanOneNodes(g, names[0], now);
      CleanAllShrinks(g1, names[1..], now);
      if names[0] != nm {
        assert nm in names[1..];
        ToolNode(g1, names[1..], now, m, nm);
      } else {
        RenamedStays(g1, names[1..], now, m, nm);
      }
    }
  }

  /** What a tool's source should be after the migration. */
  ghost predicate RightSource(g: Graph, m: nat, source: string) {
    && m in g.nodes
    && if Name in g.nodes[m].props && Cleaned(g, g.nodes[m].props[Name]) then source == "migration:v1"
       else if Source in g.nodes[m].props then source == g.nodes[m].props[Source]
       else if IsA(g, m, MCPSource) then source == "migration:v1"
       else source == "manual:legacy"
  }

  /** What it is before the cleanup, if anything. */
  ghost predicate SourceBefore(g: Graph, m: nat, n: Node) {
    && m in g.nodes
    && (Source in g.nodes[m].props ==> Source in n.props && n.props[Source] == g.nodes[m].props[Source])
    && (Source !in g.nodes[m].props && IsA(g, m, MCPSource) ==> Source in n.props && n.props[Source] == "migration:v1")
    && (Source !in g.nodes[m].props && !IsA(g, m, MCPSource) ==> Source !in n.props)
  }

  lemma SourceAfterFirst(g: Graph, kept: set<nat>, now: string, m: nat)
    requires ToolIn(g, m)
    ensures var ga := RenameLabel(g, MCPSource, "MCPSource", MCPTool, kept, now);
            m in ga.nodes && SourceBefore(g, m, ga.nodes[m])
  {
    if IsA(g, m, MCPSource) {
      RenameStamps(g, MCPSource, "MCPSource", MCPTool, kept, now, m);
    } else {
      RenameSkips(g, MCPSource, "MCPSource", MCPTool, kept, now, m);
    }
  }

  lemma ToolIsNoLog(g: Graph, kept: set<nat>, now: string, m: nat)
    requires OneKind(g) && ToolIn(g, m)
    ensures !IsA(RenameLabel(g, MCPSource, "MCPSource", MCPTool, kept, now), m, LogSource)
  {
    if IsA(g, m, MCPSource) {
      NotBoth(g, m, MCPSource, LogSource);
    } else {
      NotBoth(g, m, MCPTool, LogSource);
    }
    RenameFacts(g, MCPSource, "MCPSource", MCPTool, kept, now);
    var ga := RenameLabel(g, MCPSource, "MCPSource", MCPTool, kept, now);
    assert RelabelledNode(g.nodes[m], ga.nodes[m], MCPSource, MCPTool);
  }

  lemma SourceAfterRenames(g: Graph, c: Choices, now: string, m: nat)
    requires Sound(g) && ToolIn(g, m)
    ensures m in Renames(g, c, now).nodes && SourceBefore(g, m, Renames(g, c, now).nodes[m])
  {
    var ga := RenameLabel(g, MCPSource, "MCPSource", MCPTool, c.keptTools, now);
    SourceAfterFirst(g, c.keptTools, now, m);
    ToolIsNoLog(g, c.keptTools, now, m);
    RenameSkips(ga, LogSource, "LogSource", DomainSource, c.keptDomains, now, m);
    RenameFacts(ga, LogSource, "LogSource", DomainSource, c.keptDomains, now);
  }

  lemma SourceKept(g: Graph, m: nat, n: Node, n': Node)
    requires SourceBefore(g, m, n) && SameNode(n, n')
    ensures SourceBefore(g, m, n')
  {
  }

  lemma ToolThroughSplit(g: Graph, order: seq<nat>, now: string, m: nat)
    requires Sound(g) && IsA(g, m, MCPTool) && Enumerates(order, Labelled(g, DataSource))
    ensures var g2 := CollapseToolRefs(Split(g, order, now)); IsA(g2, m, MCPTool) && SameNode(g.nodes[m], g2.nodes[m])
  {
    SplitToolsSame(g, order, now);
    var gs := Split(g, order, now);
    assert SameNode(g.nodes[m], gs.nodes[m]);
    NotBoth(gs, m, MCPTool, ToolRef);
    CollapseFacts(gs);
  }

  lemma SourceBeforeCleanup(g: Graph, c: Choices, now: string, m: nat)
    requires Sound(g) && ToolIn(g, m) && Enumerates(c.sources, Labelled(Renames(g, c, now), DataSource))
    ensures IsA(BeforeCleanup(g, c, now), m, MCPTool) && SourceBefore(g, m, BeforeCleanup(g, c, now).nodes[m])
  {
    var g1 := Renames(g, c, now);
    RenamesFacts(g, c, now);
    assert CarriedOver(g.nodes[m], g1.nodes[m]);
    SourceAfterRenames(g, c, now, m);
    ToolThroughSplit(g1, c.sources, now, m);
    SourceKept(g, m, g1.nodes[m], BeforeCleanup(g, c, now).nodes[m]);
  }

  lemma SourceAfterCleanup(g2: Graph, names: seq<string>, now: string, m: nat)
    requires AllHyphenated(names) && IsA(g2, m, MCPTool) && m in CleanAll(g2, names, now).nodes
    ensures var n, n3 := g2.nodes[m], CleanAll(g2, names, now).nodes[m];
            && MCPTool in n3.labels
            && if Name in n.props && n.props[Name] in names
               then Source in n3.props && n3.props[Source] == "migration:v1" else n3 == n
  {
    if Name in g2.nodes[m].props {
      ToolNode(g2, names, now, m, g2.nodes[m].props[Name]);
    } else {
      CleanAllLeaves(g2, names, now, m);
    }
  }

  lemma RightAfterBackfill(g: Graph, m: nat, n: Node, n3: Node, source: string)
    requires SourceBefore(g, m, n)
    requires if Name in g.nodes[m].props && Cleaned(g, g.nodes[m].props[Name])
             then Source in n3.props && n3.props[Source] == "migration:v1" else n3 == n
    requires source == if Source in n3.props then n3.props[Source] else "manual:legacy"
    ensures RightSource(g, m, source)
  {
  }

  /** Every tool the migration keeps says where it comes from: the migration if it was cleaned up, else what
      it said before, else the migration if it was an MCPSource, else a manual entry. */
  lemma ProvenanceMigrates(g: Graph, g': Graph, c: Choices, now: string, m: nat)
    requires Sound(g) && Migrates(g, g', c, now) && ToolIn(g, m) && m in g'.nodes
    ensures Source in g'.nodes[m].props && RightSource(g, m, g'.nodes[m].props[Source])
  {
    var g2 := BeforeCleanup(g, c, now);
    var g3 := CleanAll(g2, NamesOf(g2, c.tools), now);
    ToolsBeforeCleanup(g, c, now);
    SourceBeforeCleanup(g, c, now, m);
    assert m in g3.nodes by { BackfillsKeep(g3, now); }
    CleanedNames(g, g2, c.tools, ToString(g.nodes[m], Name));
    assert SameTool(g.nodes[m], g2.nodes[m]);
    SourceAfterCleanup(g2, NamesOf(g2, c.tools), now, m);
    BackfillStamps(g3, now, m);
    RightAfterBackfill(g, m, g2.nodes[m], g3.nodes[m], g'.nodes[m].props[Source]);
  }
}
