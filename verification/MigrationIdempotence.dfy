/** Running the migration twice is running it once. */
module MigrationIdempotence {
  import opened PropertyGraph
  import opened Migration
  import opened MigrationPaths
  import opened MigrationTools
  import opened MigrationTheorems

  /** Nothing is left for the migration to do. */
  ghost predicate Settled(g: Graph) {
    && Labelled(g, MCPSource) == {} && Labelled(g, LogSource) == {}
    && Labelled(g, DataSource) == {} && Labelled(g, ToolRef) == {}
    && (forall x :: !Eligible(g, x))
    && (forall x :: IsA(g, x, MCPTool) || IsA(g, x, MCPServer) ==> Source in g.nodes[x].props)
  }

  lemma EnumeratesNothing(order: seq<nat>)
    requires Enumerates(order, {})
    ensures order == []
  {
    var first := if order == [] then 0 else order[0];
    assert order == [] || first in order;
  }

  /** The migration of a settled graph changes no node, label, property or edge. */
  lemma SettledIsFixed(g: Graph, g': Graph, c: Choices, now: string)
    requires Settled(g) && Migrates(g, g', c, now)
    ensures g' == g
  {
    assert Renames(g, c, now) == g;
    EnumeratesNothing(c.sources);
    assert CollapseToolRefs(Split(g, c.sources, now)) == g;
    assert (set x | x in g.nodes && Eligible(g, x)) == {};
    EnumeratesNothing(c.tools);
    assert NamesOf(g, c.tools) == [];
    BackfillFixed(g, MCPTool, now);
    BackfillFixed(g, MCPServer, now);
  }

  lemma BackfillFixed(g: Graph, l: Label, now: string)
    requires forall x :: IsA(g, x, l) ==> Source in g.nodes[x].props
    ensures Backfill(g, l, now) == g
  {
    var g' := Backfill(g, l, now);
    forall x | x in g.nodes ensures g'.nodes[x] == g.nodes[x] {
      assert IsA(g, x, l) <==> l in g.nodes[x].labels;
    }
    assert g'.nodes == g.nodes;
  }

  /** No node gains the label. */
  ghost predicate NoGain(g: Graph, g': Graph, l: Label) {
    forall x :: IsA(g', x, l) ==> IsA(g, x, l)
  }

  lemma MergeNoGain(g: Graph, made: Label, k: Key, v: string, extra: map<Key, string>, now: string, l: Label)
    requires l != made
    ensures NoGain(g, Merge(g, made, k, v, extra, now), l)
  {
  }

  lemma SplitOneNoGain(g: Graph, r: Record, now: string, l: Label)
    requires l != MCPServer && l != DataStore
    ensures NoGain(g, SplitOne(g, r, now), l)
  {
    if r.configKey != "" {
      var ga := if r.dsType == "mcp" then Merge(g, MCPServer, ConfigKey, r.configKey, ServerProps(r, now), now) else g;
      MergeNoGain(g, MCPServer, ConfigKey, r.configKey, ServerProps(r, now), now, l);
      MergeNoGain(ga, DataStore, Uri, DeriveUri(r), StoreProps(r, now), now, l);
      RewiringKeepsNodes(g, r, now);
    }
  }

  lemma {:induction false} SplitAllNoGain(g: Graph, rs: seq<Record>, now: string, l: Label)
    requires l != MCPServer && l != DataStore
    ensures NoGain(g, SplitAll(g, rs, now), l)
    decreases |rs|
  {
    if rs != [] {
      SplitOneNoGain(g, rs[0], now, l);
      SplitAllNoGain(SplitOne(g, rs[0], now), rs[1..], now, l);
    }
  }

  lemma SplitNoGain(g: Graph, order: seq<nat>, now: string, l: Label)
    requires l != MCPServer && l != DataStore && forall x :: x in order ==> x in g.nodes
    ensures NoGain(g, Split(g, order, now), l)
  {
    SplitAllNoGain(g, Records(g, order), now, l);
  }

  lemma CollapseNoGain(g: Graph, l: Label)
    ensures NoGain(g, CollapseToolRefs(g), l)
  {
  }

  lemma {:induction false} CleanAllNoGain(g: Graph, names: seq<string>, now: string, l: Label)
    ensures NoGain(g, CleanAll(g, names, now), l)
    decreases |names|
  {
    if names != [] {
      var g1 := CleanOne(g, names[0], now);
      assert NoGain(g, g1, l);
      CleanAllNoGain(g1, names[1..], now, l);
    }
  }

  lemma BackfillsNoGain(g: Graph, now: string, l: Label)
    ensures NoGain(g, Backfills(g, now), l)
  {
    BackfillsKeep(g, now);
  }

  lemma AfterCleanupNoGain(g2: Graph, names: seq<string>, now: string, l: Label)
    ensures NoGain(g2, Backfills(CleanAll(g2, names, now), now), l)
  {
    CleanAllNoGain(g2, names, now, l);
    BackfillsNoGain(CleanAll(g2, names, now), now, l);
  }

  lemma AfterRenamesNoGain(g1: Graph, order: seq<nat>, now: string, l: Label)
    requires l != MCPServer && l != DataStore && forall x :: x in order ==> x in g1.nodes
    ensures NoGain(g1, CollapseToolRefs(Split(g1, order, now)), l)
  {
    SplitNoGain(g1, order, now, l);
    CollapseNoGain(Split(g1, order, now), l);
  }

  lemma SplitRemovesSources(g: Graph, order: seq<nat>, now: string)
    requires Enumerates(order, Labelled(g, DataSource))
    ensures Labelled(Split(g, order, now), DataSource) == {}
  {
    if order == [] {
      forall x | x in g.nodes ensures x !in Labelled(g, DataSource) {
        assert x !in order;
      }
    }
  }

  lemma CollapseRemovesRefs(g: Graph)
    ensures Labelled(CollapseToolRefs(g), ToolRef) == {}
  {
  }

  /** The cleanup leaves no tool that it would process again. */
  lemma NoneEligible(g: Graph, order: seq<nat>, now: string, x: nat)
    requires Enumerates(order, set x | x in g.nodes && Eligible(g, x))
    ensures !Eligible(CleanAll(g, NamesOf(g, order), now), x)
  {
    var names := NamesOf(g, order);
    var g' := CleanAll(g, names, now);
    forall i | 0 <= i < |names| ensures Hyphenated(names[i]) {
      assert order[i] in order;
    }
    CleanAllShrinks(g, names, now);
    CleanAllNoGain(g, names, now, MCPTool);
    if x in g'.nodes && IsA(g', x, MCPTool) {
      if Name !in g.nodes[x].props {
        CleanAllLeaves(g, names, now, x);
      } else {
        var nm := g.nodes[x].props[Name];
        if nm in names {
          ToolFate(g, names, now, x, nm);
          assert Hyphenated(nm);
          DottedFacts(nm);
        } else {
          NotListed(g, order, x, nm);
          CleanAllLeaves(g, names, now, x);
        }
      }
    }
  }

  lemma NotListed(g: Graph, order: seq<nat>, x: nat, nm: string)
    requires Enumerates(order, set x | x in g.nodes && Eligible(g, x)) && Has(g, x, Name, nm)
    requires nm !in NamesOf(g, order)
    ensures !Eligible(g, x)
    ensures forall i :: 0 <= i < |order| ==> !Matches(g, x, MCPTool, Name, NamesOf(g, order)[i])
  {
    var names := NamesOf(g, order);
    forall i | 0 <= i < |order| ensures names[i] != nm && order[i] != x {
      assert names[i] in names;
    }
    assert x !in order;
    assert Eligible(g, x) <==> x in set y | y in g.nodes && Eligible(g, y);
  }

  lemma BackfillsEligible(g: Graph, now: string, x: nat)
    requires !Eligible(g, x)
    ensures !Eligible(Backfills(g, now), x)
    ensures IsA(Backfills(g, now), x, MCPTool) || IsA(Backfills(g, now), x, MCPServer) ==>
              Source in Backfills(g, now).nodes[x].props
  {
  }

  lemma RenamesEmpty(g: Graph, c: Choices, now: string)
    requires c.keptTools == {} && c.keptDomains == {}
    ensures var g1 := Renames(g, c, now); Labelled(g1, MCPSource) == {} && Labelled(g1, LogSource) == {}
  {
    var ga := RenameLabel(g, MCPSource, "MCPSource", MCPTool, {}, now);
    RenameEmpties(g, MCPSource, "MCPSource", MCPTool, now);
    RenameEmpties(ga, LogSource, "LogSource", DomainSource, now);
    RenameFacts(ga, LogSource, "LogSource", DomainSource, {}, now);
    var g1 := Renames(g, c, now);
    forall x | x in g1.nodes ensures MCPSource !in g1.nodes[x].labels {
      assert x !in Labelled(ga, MCPSource);
      assert RelabelledNode(ga.nodes[x], g1.nodes[x], LogSource, DomainSource);
    }
  }

  lemma GoneStaysGone(g: Graph, g': Graph, l: Label)
    requires NoGain(g, g', l) && Labelled(g, l) == {}
    ensures Labelled(g', l) == {}
  {
    forall x | x in g'.nodes ensures l !in g'.nodes[x].labels {
      assert IsA(g', x, l) ==> x in Labelled(g, l);
    }
  }

  lemma LabelsSettle(g: Graph, g': Graph, c: Choices, now: string)
    requires Migrates(g, g', c, now) && c.keptTools == {} && c.keptDomains == {}
    ensures Labelled(g', MCPSource) == {} && Labelled(g', LogSource) == {}
    ensures Labelled(g', DataSource) == {} && Labelled(g', ToolRef) == {}
  {
    var g1 := Renames(g, c, now);
    RenamesEmpty(g, c, now);
    var gs := Split(g1, c.sources, now);
    var g2 := CollapseToolRefs(gs);
    var names := NamesOf(g2, c.tools);
    AfterRenamesNoGain(g1, c.sources, now, MCPSource);
    AfterRenamesNoGain(g1, c.sources, now, LogSource);
    SplitRemovesSources(g1, c.sources, now);
    CollapseNoGain(gs, DataSource);
    GoneStaysGone(gs, g2, DataSource);
    CollapseRemovesRefs(gs);
    GoneStaysGone(g1, g2, MCPSource);
    GoneStaysGone(g1, g2, LogSource);
    AfterCleanupNoGain(g2, names, now, MCPSource);
    AfterCleanupNoGain(g2, names, now, LogSource);
    AfterCleanupNoGain(g2, names, now, DataSource);
    AfterCleanupNoGain(g2, names, now, ToolRef);
    GoneStaysGone(g2, g', MCPSource);
    GoneStaysGone(g2, g', LogSource);
    GoneStaysGone(g2, g', DataSource);
    GoneStaysGone(g2, g', ToolRef);
  }

  /** When label removal takes effect, one migration leaves nothing to do: no MCPSource, LogSource,
      DataSource or ToolRef node, no hyphenated name to clean, no tool or server without provenance. */
  lemma MigrationSettles(g: Graph, g': Graph, c: Choices, now: string)
    requires Migrates(g, g', c, now) && c.keptTools == {} && c.keptDomains == {}
    ensures Settled(g')
  {
    LabelsSettle(g, g', c, now);
    var g2 := CollapseToolRefs(Split(Renames(g, c, now), c.sources, now));
    var g3 := CleanAll(g2, NamesOf(g2, c.tools), now);
    forall x ensures !Eligible(g', x)
      && (IsA(g', x, MCPTool) || IsA(g', x, MCPServer) ==> Source in g'.nodes[x].props)
    {
      NoneEligible(g2, c.tools, now, x);
      BackfillsEligible(g3, now, x);
    }
  }

  /** A second migration, at any later time and under any choices, is an exact no-op. */
  lemma MigrationIdempotent(g: Graph, g1: Graph, g2: Graph, c1: Choices, c2: Choices, now1: string, now2: string)
    requires Migrates(g, g1, c1, now1) && c1.keptTools == {} && c1.keptDomains == {}
    requires Migrates(g1, g2, c2, now2)
    ensures g2 == g1
  {
    MigrationSettles(g, g1, c1, now1);
    SettledIsFixed(g1, g2, c2, now2);
  }

  /** The old label survives on exactly the nodes the removal skipped. */
  lemma LabelLeft(g: Graph, l: Label, was: string, into: Label, kept: set<nat>, now: string)
    requires l != into
    ensures Labelled(RenameLabel(g, l, was, into, kept, now), l) == Labelled(g, l) * kept
  {
    var g' := RenameLabel(g, l, was, into, kept, now);
    forall x | x in g.nodes ensures l in g'.nodes[x].labels <==> l in g.nodes[x].labels && x in kept {
      assert x in Labelled(g, l) <==> l in g.nodes[x].labels;
    }
  }

  lemma RenamesLeft(g: Graph, c: Choices, now: string)
    ensures Labelled(Renames(g, c, now), MCPSource) <= c.keptTools
    ensures Labelled(Renames(g, c, now), LogSource) <= c.keptDomains
  {
    var ga := RenameLabel(g, MCPSource, "MCPSource", MCPTool, c.keptTools, now);
    var g1 := Renames(g, c, now);
    LabelLeft(g, MCPSource, "MCPSource", MCPTool, c.keptTools, now);
    LabelLeft(ga, LogSource, "LogSource", DomainSource, c.keptDomains, now);
    RenameFacts(ga, LogSource, "LogSource", DomainSource, c.keptDomains, now);
    forall x | x in Labelled(g1, MCPSource) ensures x in c.keptTools {
      assert RelabelledNode(ga.nodes[x], g1.nodes[x], LogSource, DomainSource);
      assert x in Labelled(ga, MCPSource);
    }
  }

  lemma NoGainLeft(g: Graph, g': Graph, l: Label)
    requires NoGain(g, g', l)
    ensures Labelled(g', l) <= Labelled(g, l)
  {
    forall x | x in Labelled(g', l) ensures x in Labelled(g, l) {
      assert IsA(g', x, l);
    }
  }

  /** After any migration only nodes that the removal skipped have a legacy label. */
  lemma LabelsLeft(g: Graph, g': Graph, c: Choices, now: string)
    requires Migrates(g, g', c, now)
    ensures Labelled(g', MCPSource) <= c.keptTools && Labelled(g', LogSource) <= c.keptDomains
  {
    var g1 := Renames(g, c, now);
    var g2 := CollapseToolRefs(Split(g1, c.sources, now));
    RenamesLeft(g, c, now);
    AfterRenamesNoGain(g1, c.sources, now, MCPSource);
    AfterRenamesNoGain(g1, c.sources, now, LogSource);
    AfterCleanupNoGain(g2, NamesOf(g2, c.tools), now, MCPSource);
    AfterCleanupNoGain(g2, NamesOf(g2, c.tools), now, LogSource);
    NoGainLeft(g1, g2, MCPSource);
    NoGainLeft(g1, g2, LogSource);
    NoGainLeft(g2, g', MCPSource);
    NoGainLeft(g2, g', LogSource);
  }
}
