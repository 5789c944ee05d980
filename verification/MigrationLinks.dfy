/** Where the edges of the migrated graph come from: what a displaced tool passes on, and which
    FETCHABLE_VIA links become PROVIDES. */
module MigrationLinks {
  import opened PropertyGraph
  import opened Strings
  import opened Migration
  import opened MigrationPaths
  import opened MigrationTools
  import opened MigrationTheorems

  // --- Origins of edges ---

  /** The cleanup makes no edges but RETURNS_FIELD. */
  lemma CleanOneOrigin(g: Graph, was: string, now: string, e: Edge)
    requires e in CleanOne(g, was, now).edges && e.typ != ReturnsField
    ensures e in g.edges
  {
  }

  lemma {:induction false} CleanAllOrigin(g: Graph, names: seq<string>, now: string, e: Edge)
    requires e in CleanAll(g, names, now).edges && e.typ != ReturnsField
    ensures e in g.edges
    decreases |names|
  {
    if names != [] {
      CleanAllOrigin(CleanOne(g, names[0], now), names[1..], now, e);
      CleanOneOrigin(g, names[0], now, e);
    }
  }

  /** The strategy used a reference that has the tool's name. */
  ghost predicate UsedByName(g: Graph, s: nat, x: nat) {
    exists t :: Edge(s, UsesTool, t) in g.edges && IsA(g, t, ToolRef) && t in g.nodes && Name in g.nodes[t].props
                && Has(g, x, Name, g.nodes[t].props[Name])
  }

  /** The collapse makes USES_TOOL edges only by name. */
  lemma CollapseOrigin(g: Graph, e: Edge)
    requires e in CollapseToolRefs(g).edges
    ensures e in g.edges || (e.typ == UsesTool && UsedByName(g, e.src, e.dst))
  {
    if e !in g.edges {
      assert e in RewireUses(g).edges;
      var r, x :| r in g.edges && UsesToolRef(g, r) && x in NamedLike(g, r.dst) && e == Edge(r.src, UsesTool, x);
      assert r == Edge(e.src, UsesTool, r.dst);
    }
  }

  /** Some DataSource fetched via the tool. */
  ghost predicate Fetched(g: Graph, m: nat) {
    exists d :: Edge(d, FetchableVia, m) in g.edges
  }

  /** Some DataSource of g fetched via the tool m, and v is a server of g' with its key. */
  ghost predicate FetchedFor(g: Graph, g': Graph, v: nat, m: nat) {
    exists d, k :: Edge(d, FetchableVia, m) in g.edges && Matches(g, d, DataSource, ConfigKey, k)
                   && Matches(g', v, MCPServer, ConfigKey, k)
  }

  lemma SplitOneOrigin(g: Graph, r: Record, now: string, e: Edge)
    requires Sound(g) && e in SplitOne(g, r, now).edges
    requires e.typ == Provides || e.typ == UsesTool || e.typ == FetchableVia
    ensures e in g.edges || (e.typ == Provides && FetchedFor(g, SplitOne(g, r, now), e.src, e.dst))
  {
    if r.configKey != "" && e !in g.edges {
      var k := r.configKey;
      var g1 := CreateNodes(g, r, now);
      CreateNodesFacts(g, r, now);
      var g3 := RewireStored(WireStore(g1, r), k, DeriveUri(r));
      var d := RewiredFrom(g3, k, e);
      assert Edge(d, FetchableVia, e.dst) in g.edges;
      KeptMatches(g, g1, d, DataSource, ConfigKey, k);
    }
  }

  lemma RewiredFrom(g: Graph, k: string, e: Edge) returns (d: nat)
    requires e in RewireProvides(g, k).edges && e !in g.edges
    ensures e.typ == Provides && Edge(d, FetchableVia, e.dst) in g.edges
    ensures Matches(g, d, DataSource, ConfigKey, k) && Matches(g, e.src, MCPServer, ConfigKey, k)
  {
    var w, v :| w in g.edges && FetchEdge(g, w, k) && v in Matching(g, MCPServer, ConfigKey, k)
                && e == Edge(v, Provides, w.dst);
    d := w.src;
    assert w == Edge(d, FetchableVia, e.dst);
  }

  lemma FetchedForLater(g: Graph, g1: Graph, g': Graph, v: nat, m: nat)
    requires NodesKept(g1, g') && FetchedFor(g, g1, v, m)
    ensures FetchedFor(g, g', v, m)
  {
    var d, k :| Edge(d, FetchableVia, m) in g.edges && Matches(g, d, DataSource, ConfigKey, k)
                && Matches(g1, v, MCPServer, ConfigKey, k);
    KeptMatches(g1, g', v, MCPServer, ConfigKey, k);
  }

  lemma FetchedForEarlier(g: Graph, r: Record, now: string, g': Graph, v: nat, m: nat)
    requires Sound(g) && FetchedFor(SplitOne(g, r, now), g', v, m)
    ensures FetchedFor(g, g', v, m)
  {
    var g1 := SplitOne(g, r, now);
    var d, k :| Edge(d, FetchableVia, m) in g1.edges && Matches(g1, d, DataSource, ConfigKey, k)
                && Matches(g', v, MCPServer, ConfigKey, k);
    SplitOneOrigin(g, r, now, Edge(d, FetchableVia, m));
    SplitOneKeeps(g, r, now);
    KeptMatches(g, g1, d, DataSource, ConfigKey, k);
  }

  lemma {:induction false} SplitAllOrigin(g: Graph, rs: seq<Record>, now: string, e: Edge)
    requires Sound(g) && e in SplitAll(g, rs, now).edges
    requires e.typ == Provides || e.typ == UsesTool || e.typ == FetchableVia
    ensures e in g.edges || (e.typ == Provides && FetchedFor(g, SplitAll(g, rs, now), e.src, e.dst))
    decreases |rs|
  {
    if rs != [] {
      var g1, g' := SplitOne(g, rs[0], now), SplitAll(g, rs, now);
      SplitOneKeeps(g, rs[0], now);
      SplitAllOrigin(g1, rs[1..], now, e);
      if e !in g1.edges {
        FetchedForEarlier(g, rs[0], now, g', e.src, e.dst);
      } else if e !in g.edges {
        SplitOneOrigin(g, rs[0], now, e);
        SplitAllKeeps(g1, rs[1..], now);
        FetchedForLater(g, g1, g', e.src, e.dst);
      }
    }
  }

  lemma SplitOrigin(g: Graph, order: seq<nat>, now: string, e: Edge)
    requires Sound(g) && forall x :: x in order ==> x in g.nodes
    requires e in Split(g, order, now).edges && (e.typ == Provides || e.typ == UsesTool || e.typ == FetchableVia)
    ensures e in g.edges || (e.typ == Provides && FetchedFor(g, Split(g, order, now), e.src, e.dst))
  {
    if order != [] {
      var g1 := SplitAll(g, Records(g, order), now);
      SplitAllOrigin(g, Records(g, order), now, e);
      if e !in g.edges {
        var d, k :| Edge(d, FetchableVia, e.dst) in g.edges && Matches(g, d, DataSource, ConfigKey, k)
                    && Matches(g1, e.src, MCPServer, ConfigKey, k);
        assert Matches(Split(g, order, now), e.src, MCPServer, ConfigKey, k);
      }
    }
  }

  /** A node the split keeps is as it was, but for its update time. */
  lemma SplitNodes(g: Graph, order: seq<nat>, now: string, x: nat)
    requires Sound(g) && Enumerates(order, Labelled(g, DataSource)) && x in g.nodes
    ensures var g' := Split(g, order, now);
            && (x in g'.nodes <==> !IsA(g, x, DataSource))
            && (x in g'.nodes ==> SameNode(g.nodes[x], g'.nodes[x]))
  {
    if order == [] {
      assert x !in order;
    } else {
      SplitAllKeeps(g, Records(g, order), now);
    }
  }

  lemma UsedByNameSplit(g: Graph, order: seq<nat>, now: string, s: nat, x: nat)
    requires Sound(g) && Enumerates(order, Labelled(g, DataSource)) && IsA(g, x, MCPTool)
    requires UsedByName(Split(g, order, now), s, x)
    ensures UsedByName(g, s, x)
  {
    var gs := Split(g, order, now);
    var t :| Edge(s, UsesTool, t) in gs.edges && IsA(gs, t, ToolRef) && t in gs.nodes && Name in gs.nodes[t].props
             && Has(gs, x, Name, gs.nodes[t].props[Name]);
    SplitOrigin(g, order, now, Edge(s, UsesTool, t));
    SplitNodes(g, order, now, t);
    SplitNodes(g, order, now, x);
    assert IsA(g, t, ToolRef) && Has(g, x, Name, g.nodes[t].props[Name]);
  }

  lemma UsedByNameRenamed(g: Graph, g1: Graph, s: nat, x: nat)
    requires WellFormed(g) && AfterRenames(g, g1) && ToolIn(g, x) && UsedByName(g1, s, x)
    ensures UsedByName(g, s, x)
  {
    var t :| Edge(s, UsesTool, t) in g1.edges && IsA(g1, t, ToolRef) && t in g1.nodes && Name in g1.nodes[t].props
             && Has(g1, x, Name, g1.nodes[t].props[Name]);
    assert CarriedOver(g.nodes[t], g1.nodes[t]) && CarriedOver(g.nodes[x], g1.nodes[x]);
    assert IsA(g, t, ToolRef) && Has(g, x, Name, g.nodes[t].props[Name]);
  }

  lemma UsedByNameBefore(g: Graph, c: Choices, now: string, s: nat, x: nat)
    requires Sound(g) && Enumerates(c.sources, Labelled(Renames(g, c, now), DataSource)) && ToolIn(g, x)
    requires UsedByName(Split(Renames(g, c, now), c.sources, now), s, x)
    ensures UsedByName(g, s, x)
  {
    var g1 := Renames(g, c, now);
    RenamesFacts(g, c, now);
    assert CarriedOver(g.nodes[x], g1.nodes[x]);
    UsedByNameSplit(g1, c.sources, now, s, x);
    UsedByNameRenamed(g, g1, s, x);
  }

  /** Over the whole migration, a PROVIDES edge of a tool was there before or runs from the server of a
      DataSource that fetched via that tool, and a USES_TOOL edge was there before or comes from a
      reference to the tool's own name: the tool that displaces another takes over none of the other's. */
  lemma ConflictCarriesOnlyFields(g: Graph, g': Graph, c: Choices, now: string, h: nat, e: Edge)
    requires Sound(g) && Migrates(g, g', c, now) && ToolIn(g, h) && e in g'.edges && e.dst == h
    ensures e.typ == Provides ==> e in g.edges || FetchedFor(g, g', e.src, h)
    ensures e.typ == UsesTool ==> e in g.edges || UsedByName(g, e.src, h)
  {
    var g1 := Renames(g, c, now);
    RenamesFacts(g, c, now);
    var gs := Split(g1, c.sources, now);
    var g2 := CollapseToolRefs(gs);
    BackfillsKeep(CleanAll(g2, NamesOf(g2, c.tools), now), now);
    if e.typ == Provides || e.typ == UsesTool {
      CleanAllOrigin(g2, NamesOf(g2, c.tools), now, e);
      CollapseOrigin(gs, e);
      if e in gs.edges {
        SplitOrigin(g1, c.sources, now, e);
        if e !in g.edges {
          FetchedForWhole(g, g', c, now, e.src, h);
        }
      } else {
        UsedByNameBefore(g, c, now, e.src, h);
      }
    }
  }

  lemma FetchedForRenamed(g: Graph, g1: Graph, gs: Graph, g': Graph, v: nat, h: nat)
    requires WellFormed(g) && AfterRenames(g, g1) && FetchedFor(g1, gs, v, h)
    requires forall k :: Matches(gs, v, MCPServer, ConfigKey, k) ==> Matches(g', v, MCPServer, ConfigKey, k)
    ensures FetchedFor(g, g', v, h)
  {
    var d, k :| Edge(d, FetchableVia, h) in g1.edges && Matches(g1, d, DataSource, ConfigKey, k)
                && Matches(gs, v, MCPServer, ConfigKey, k);
    assert CarriedOver(g.nodes[d], g1.nodes[d]);
    assert Matches(g, d, DataSource, ConfigKey, k);
  }

  lemma FetchedForWhole(g: Graph, g': Graph, c: Choices, now: string, v: nat, h: nat)
    requires Sound(g) && Migrates(g, g', c, now)
    requires FetchedFor(Renames(g, c, now), Split(Renames(g, c, now), c.sources, now), v, h)
    ensures FetchedFor(g, g', v, h)
  {
    var g1 := Renames(g, c, now);
    RenamesFacts(g, c, now);
    var gs := Split(g1, c.sources, now);
    SplitToolsSame(g1, c.sources, now);
    ToolsBeforeCleanup(g, c, now);
    CleanedNames(g, CollapseToolRefs(gs), c.tools, "");
    forall k | Matches(gs, v, MCPServer, ConfigKey, k) ensures Matches(g', v, MCPServer, ConfigKey, k) {
      ServerOutlives(gs, NamesOf(CollapseToolRefs(gs), c.tools), now, v, k);
    }
    FetchedForRenamed(g, g1, gs, g', v, h);
  }

  lemma ServerOutlives(gs: Graph, names: seq<string>, now: string, v: nat, k: string)
    requires Sound(gs) && AllHyphenated(names) && Matches(gs, v, MCPServer, ConfigKey, k)
    ensures Matches(Backfills(CleanAll(CollapseToolRefs(gs), names, now), now), v, MCPServer, ConfigKey, k)
  {
    var g2 := CollapseToolRefs(gs);
    NotBoth(gs, v, MCPServer, ToolRef);
    NotBoth(gs, v, MCPServer, MCPTool);
    CollapseFacts(gs);
    CleanAllLeaves(g2, names, now, v);
    BackfillsKeep(CleanAll(g2, names, now), now);
  }

  /** A displaced tool keeps no edge, in or out. */
  lemma DisplacedIsBare(g: Graph, g': Graph, c: Choices, now: string, x: nat, e: Edge)
    requires Sound(g) && Migrates(g, g', c, now) && ToolIn(g, x) && Displaced(g, x) && e in g'.edges
    ensures e.src != x && e.dst != x
  {
    ToolsMigrate(g, g', c, now, x);
    EdgesEndInNodes(g, g', c, now, e);
  }

  lemma {:induction false} CleanAllSound(g: Graph, names: seq<string>, now: string)
    requires Sound(g) && AllHyphenated(names)
    ensures Sound(CleanAll(g, names, now))
    decreases |names|
  {
    if names != [] {
      CleanOneSound(g, names[0], now);
      CleanAllSound(CleanOne(g, names[0], now), names[1..], now);
    }
  }

  lemma EdgesEndInNodes(g: Graph, g': Graph, c: Choices, now: string, e: Edge)
    requires Sound(g) && Migrates(g, g', c, now) && e in g'.edges
    ensures e.src in g'.nodes && e.dst in g'.nodes
  {
    var g2 := BeforeCleanup(g, c, now);
    ToolsBeforeCleanup(g, c, now);
    CleanedNames(g, g2, c.tools, "");
    CleanAllSound(g2, NamesOf(g2, c.tools), now);
    BackfillsKeep(CleanAll(g2, NamesOf(g2, c.tools), now), now);
  }

  // --- Which links to tools survive the split ---

  /** DataSource d with key k fetches via the tool m. */
  ghost predicate FetchLink(g: Graph, d: nat, m: nat, k: string) {
    Matches(g, d, DataSource, ConfigKey, k) && IsA(g, m, MCPTool) && Edge(d, FetchableVia, m) in g.edges
  }

  /** The server v with key k provides the tool m. */
  ghost predicate ProvideLink(g: Graph, v: nat, m: nat, k: string) {
    Matches(g, v, MCPServer, ConfigKey, k) && IsA(g, m, MCPTool) && Edge(v, Provides, m) in g.edges
  }

  ghost predicate HasServer(g: Graph, k: string) {
    exists v :: Matches(g, v, MCPServer, ConfigKey, k)
  }

  lemma FetchLinkWaits(g: Graph, r: Record, now: string, d: nat, m: nat, k: string)
    requires Sound(g) && FetchLink(g, d, m, k) && r.configKey != k
    ensures FetchLink(SplitOne(g, r, now), d, m, k)
  {
    SplitOneKeeps(g, r, now);
  }

  lemma ProvideLinkStays(g: Graph, r: Record, now: string, v: nat, m: nat, k: string)
    requires Sound(g) && ProvideLink(g, v, m, k)
    ensures ProvideLink(SplitOne(g, r, now), v, m, k)
  {
    SplitOneKeeps(g, r, now);
  }

  lemma {:induction false} ProvideLinkStaysAll(g: Graph, rs: seq<Record>, now: string, v: nat, m: nat, k: string)
    requires Sound(g) && ProvideLink(g, v, m, k)
    ensures Sound(SplitAll(g, rs, now)) && ProvideLink(SplitAll(g, rs, now), v, m, k)
    decreases |rs|
  {
    if rs != [] {
      SplitOneKeeps(g, rs[0], now);
      ProvideLinkStays(g, rs[0], now, v, m, k);
      ProvideLinkStaysAll(SplitOne(g, rs[0], now), rs[1..], now, v, m, k);
    }
  }

  /** The row of the DataSource turns the link over to a server with its key, when there is one by then. */
  lemma FetchLinkSplits(g: Graph, r: Record, now: string, d: nat, m: nat) returns (v: nat)
    requires Sound(g) && FetchLink(g, d, m, r.configKey) && r.configKey != ""
    requires r.dsType == "mcp" || HasServer(g, r.configKey)
    ensures ProvideLink(SplitOne(g, r, now), v, m, r.configKey)
  {
    var k, uri := r.configKey, DeriveUri(r);
    var g1 := CreateNodes(g, r, now);
    CreateNodesFacts(g, r, now);
    if r.dsType == "mcp" {
      v :| v in Matching(g1, MCPServer, ConfigKey, k);
    } else {
      v :| Matches(g, v, MCPServer, ConfigKey, k);
      KeptMatches(g, g1, v, MCPServer, ConfigKey, k);
    }
    var g2 := WireStore(g1, r);
    WireStoreFacts(g1, r);
    RewireStoredFacts(g2, k, uri);
    var g3 := RewireStored(g2, k, uri);
    assert FetchEdge(g3, Edge(d, FetchableVia, m), k) && Edge(d, FetchableVia, m) in g3.edges;
    ProvidesRewired(g3, k, d, m, v);
    RewireProvidesFacts(g3, k);
  }

  /** A row makes a server with key k only if it is a gateway row with that key. */
  lemma ServerOrigin(g: Graph, r: Record, now: string, k: string)
    requires HasServer(SplitOne(g, r, now), k) && !(r.configKey == k && r.dsType == "mcp")
    ensures HasServer(g, k)
  {
    var v :| Matches(SplitOne(g, r, now), v, MCPServer, ConfigKey, k);
    if r.configKey != "" {
      RewiringKeepsNodes(g, r, now);
      var ga := if r.dsType == "mcp" then Merge(g, MCPServer, ConfigKey, r.configKey, ServerProps(r, now), now) else g;
      assert Matches(Merge(ga, DataStore, Uri, DeriveUri(r), StoreProps(r, now), now), v, MCPServer, ConfigKey, k);
      MergeOrigin(ga, DataStore, Uri, DeriveUri(r), StoreProps(r, now), now, v, k);
      if r.dsType == "mcp" {
        MergeOrigin(g, MCPServer, ConfigKey, r.configKey, ServerProps(r, now), now, v, k);
      }
    }
  }

  lemma MergeOrigin(g: Graph, l: Label, key: Key, value: string, extra: map<Key, string>, now: string, v: nat,
                    k: string)
    requires Matches(Merge(g, l, key, value, extra, now), v, MCPServer, ConfigKey, k)
             && !(l == MCPServer && key == ConfigKey && value == k)
    requires l == DataStore || key == ConfigKey
    ensures Matches(g, v, MCPServer, ConfigKey, k)
  {
  }

  /** A row that finds no server with its key leaves the link alone. */
  lemma FetchLinkSkipped(g: Graph, r: Record, now: string, d: nat, m: nat)
    requires Sound(g) && FetchLink(g, d, m, r.configKey) && r.dsType != "mcp" && !HasServer(g, r.configKey)
    ensures FetchLink(SplitOne(g, r, now), d, m, r.configKey)
  {
    var k, uri := r.configKey, DeriveUri(r);
    if k != "" {
      var g1 := CreateNodes(g, r, now);
      CreateNodesFacts(g, r, now);
      var g3 := RewireStored(WireStore(g1, r), k, uri);
      forall v ensures !Matches(g3, v, MCPServer, ConfigKey, k) {
        if Matches(g1, v, MCPServer, ConfigKey, k) {
          MergeOrigin(g, DataStore, Uri, uri, StoreProps(r, now), now, v, k);
        }
      }
      assert Matching(g3, MCPServer, ConfigKey, k) == {};
      assert Edge(d, FetchableVia, m) in g3.edges;
      KeptMatches(g, g1, d, DataSource, ConfigKey, k);
    }
  }

  /** Some row with this key is a gateway row. */
  ghost predicate GatewayRow(rs: seq<Record>, k: string) {
    exists i :: 0 <= i < |rs| && rs[i].configKey == k && rs[i].dsType == "mcp"
  }

  lemma {:induction false} FetchLinkSplitsAll(g: Graph, rs: seq<Record>, now: string, d: nat, m: nat,
                                              k: string) returns (v: nat)
    requires Sound(g) && FetchLink(g, d, m, k) && k != "" && exists i :: 0 <= i < |rs| && rs[i].configKey == k
    requires HasServer(g, k) || GatewayRow(rs, k)
    ensures Sound(SplitAll(g, rs, now)) && ProvideLink(SplitAll(g, rs, now), v, m, k)
    decreases |rs|
  {
    var g1 := SplitOne(g, rs[0], now);
    SplitOneKeeps(g, rs[0], now);
    if rs[0].configKey == k && (rs[0].dsType == "mcp" || HasServer(g, k)) {
      v := FetchLinkSplits(g, rs[0], now, d, m);
      ProvideLinkStaysAll(g1, rs[1..], now, v, m, k);
    } else {
      if rs[0].configKey == k {
        FetchLinkSkipped(g, rs[0], now, d, m);
      } else {
        FetchLinkWaits(g, rs[0], now, d, m, k);
      }
      LaterRow(g, g1, rs, k);
      v := FetchLinkSplitsAll(g1, rs[1..], now, d, m, k);
    }
  }

  lemma LaterRow(g: Graph, g1: Graph, rs: seq<Record>, k: string)
    requires NodesKept(g, g1) && (HasServer(g, k) || GatewayRow(rs, k))
    requires exists i :: 0 <= i < |rs| && rs[i].configKey == k
    requires !(rs[0].configKey == k && (rs[0].dsType == "mcp" || HasServer(g, k)))
    ensures exists i :: 0 <= i < |rs[1..]| && rs[1..][i].configKey == k
    ensures HasServer(g1, k) || GatewayRow(rs[1..], k)
  {
    assert forall i :: 0 < i < |rs| ==> rs[1..][i - 1] == rs[i];
    if v :| Matches(g, v, MCPServer, ConfigKey, k) {
      KeptMatches(g, g1, v, MCPServer, ConfigKey, k);
      var i :| 0 <= i < |rs| && rs[i].configKey == k;
      assert rs[1..][i - 1].configKey == k;
    } else {
      var i :| 0 <= i < |rs| && rs[i].configKey == k && rs[i].dsType == "mcp";
      assert rs[1..][i - 1] == rs[i];
    }
  }

  lemma {:induction false} ServerOriginAll(g: Graph, rs: seq<Record>, now: string, k: string)
    requires HasServer(SplitAll(g, rs, now), k)
    ensures HasServer(g, k) || GatewayRow(rs, k)
    decreases |rs|
  {
    if rs != [] {
      ServerOriginAll(SplitOne(g, rs[0], now), rs[1..], now, k);
      if !(rs[0].configKey == k && rs[0].dsType == "mcp") {
        if HasServer(SplitOne(g, rs[0], now), k) {
          ServerOrigin(g, rs[0], now, k);
        } else {
          var i :| 0 <= i < |rs[1..]| && rs[1..][i].configKey == k && rs[1..][i].dsType == "mcp";
          assert rs[i + 1] == rs[1..][i];
        }
      }
    }
  }

  /** Some DataSource with this key is a gateway source. */
  ghost predicate GatewaySource(g: Graph, k: string) {
    exists x :: Matches(g, x, DataSource, ConfigKey, k) && Has(g, x, Type, "mcp")
  }

  lemma RowsOfKey(g: Graph, order: seq<nat>, d: nat, k: string)
    requires Enumerates(order, Labelled(g, DataSource)) && k != "" && Matches(g, d, DataSource, ConfigKey, k)
    ensures exists i :: 0 <= i < |Records(g, order)| && Records(g, order)[i].configKey == k
    ensures GatewayRow(Records(g, order), k) <==> GatewaySource(g, k)
  {
    var rs := Records(g, order);
    assert d in order;
    var j :| 0 <= j < |order| && order[j] == d;
    assert rs[j].configKey == k;
    if i :| 0 <= i < |rs| && rs[i].configKey == k && rs[i].dsType == "mcp" {
      assert order[i] in order;
      assert Matches(g, order[i], DataSource, ConfigKey, k);
    }
    if x :| Matches(g, x, DataSource, ConfigKey, k) && Has(g, x, Type, "mcp") {
      assert x in order;
      var i :| 0 <= i < |order| && order[i] == x;
      assert rs[i].configKey == k && rs[i].dsType == "mcp";
    }
  }

  lemma FetchLinkKept(g: Graph, order: seq<nat>, now: string, d: nat, m: nat, k: string) returns (v: nat)
    requires Sound(g) && Enumerates(order, Labelled(g, DataSource))
    requires FetchLink(g, d, m, k) && k != "" && (GatewaySource(g, k) || HasServer(g, k))
    ensures ProvideLink(Split(g, order, now), v, m, k)
  {
    RowsOfKey(g, order, d, k);
    v := FetchLinkSplitsAll(g, Records(g, order), now, d, m, k);
    ProvideLinkOutlives(SplitAll(g, Records(g, order), now), v, m, k);
  }

  lemma ProvideLinkOutlives(g: Graph, v: nat, m: nat, k: string)
    requires Sound(g) && ProvideLink(g, v, m, k)
    ensures ProvideLink(DetachDelete(g, Labelled(g, DataSource)), v, m, k)
  {
    NotBoth(g, v, MCPServer, DataSource);
    NotBoth(g, m, MCPTool, DataSource);
  }

  lemma ServerBefore(g: Graph, order: seq<nat>, now: string, d: nat, k: string)
    requires Enumerates(order, Labelled(g, DataSource))
    requires Matches(g, d, DataSource, ConfigKey, k) && k != "" && HasServer(Split(g, order, now), k)
    ensures GatewaySource(g, k) || HasServer(g, k)
  {
    RowsOfKey(g, order, d, k);
    var v :| Matches(Split(g, order, now), v, MCPServer, ConfigKey, k);
    assert Matches(SplitAll(g, Records(g, order), now), v, MCPServer, ConfigKey, k);
    ServerOriginAll(g, Records(g, order), now, k);
  }

  /** A DataSource with a non-empty key passes its tools on to a server with exactly that key if and only
      if a gateway source has that key or such a server was there before; otherwise there is no server
      with its key, and the links go with the DataSource. */
  lemma FetchLinkIff(g: Graph, order: seq<nat>, now: string, d: nat, m: nat, k: string)
    requires Sound(g) && Enumerates(order, Labelled(g, DataSource)) && FetchLink(g, d, m, k) && k != ""
    ensures var g' := Split(g, order, now);
            && ((exists v :: ProvideLink(g', v, m, k)) <==> GatewaySource(g, k) || HasServer(g, k))
            && (HasServer(g', k) <==> GatewaySource(g, k) || HasServer(g, k))
            && d !in g'.nodes && Edge(d, FetchableVia, m) !in g'.edges
  {
    SplitNodes(g, order, now, d);
    SplitToolsSame(g, order, now);
    if GatewaySource(g, k) || HasServer(g, k) {
      var v := FetchLinkKept(g, order, now, d, m, k);
    }
    if HasServer(Split(g, order, now), k) {
      ServerBefore(g, order, now, d, k);
    }
  }

  /** The same from the original graph to the migrated one, for every tool the migration keeps. */
  lemma FetchLinkMigrates(g: Graph, g': Graph, c: Choices, now: string, d: nat, m: nat, k: string)
    requires Sound(g) && Migrates(g, g', c, now) && m in g'.nodes
    requires Matches(g, d, DataSource, ConfigKey, k) && k != "" && ToolIn(g, m) && Edge(d, FetchableVia, m) in g.edges
    ensures (exists v :: ProvideLink(g', v, m, k)) <==> GatewaySource(g, k) || HasServer(g, k)
  {
    var g1 := Renames(g, c, now);
    RenamesFacts(g, c, now);
    RenamedLink(g, g1, d, m, k);
    FetchLinkIff(g1, c.sources, now, d, m, k);
    var gs := Split(g1, c.sources, now);
    SplitToolsSame(g1, c.sources, now);
    ToolsBeforeCleanup(g, c, now);
    CleanedNames(g, CollapseToolRefs(gs), c.tools, "");
    LinkAfterwards(gs, NamesOf(CollapseToolRefs(gs), c.tools), now, m, k);
  }

  lemma RenamedLink(g: Graph, g1: Graph, d: nat, m: nat, k: string)
    requires AfterRenames(g, g1) && Matches(g, d, DataSource, ConfigKey, k)
    requires ToolIn(g, m) && Edge(d, FetchableVia, m) in g.edges
    ensures FetchLink(g1, d, m, k)
    ensures (GatewaySource(g1, k) <==> GatewaySource(g, k)) && (HasServer(g1, k) <==> HasServer(g, k))
  {
    assert CarriedOver(g.nodes[d], g1.nodes[d]) && CarriedOver(g.nodes[m], g1.nodes[m]);
    forall x
      ensures Matches(g1, x, DataSource, ConfigKey, k) <==> Matches(g, x, DataSource, ConfigKey, k)
      ensures Has(g1, x, Type, "mcp") <==> Has(g, x, Type, "mcp")
      ensures Matches(g1, x, MCPServer, ConfigKey, k) <==> Matches(g, x, MCPServer, ConfigKey, k)
    {
      assert x in g.nodes ==> CarriedOver(g.nodes[x], g1.nodes[x]);
    }
  }

  /** From the split on: a kept tool is provided afterwards iff it was provided before, and no server
      appears. */
  lemma LinkAfterwards(gs: Graph, names: seq<string>, now: string, m: nat, k: string)
    requires Sound(gs) && AllHyphenated(names) && IsA(gs, m, MCPTool)
    requires m in Backfills(CleanAll(CollapseToolRefs(gs), names, now), now).nodes
    ensures var g' := Backfills(CleanAll(CollapseToolRefs(gs), names, now), now);
            && ((exists v :: ProvideLink(gs, v, m, k)) ==> exists v :: ProvideLink(g', v, m, k))
            && ((exists v :: ProvideLink(g', v, m, k)) ==> HasServer(gs, k))
  {
    var g2 := CollapseToolRefs(gs);
    var g3 := CleanAll(g2, names, now);
    CollapseFacts(gs);
    BackfillsKeep(g3, now);
    if v :| ProvideLink(gs, v, m, k) {
      LinkKept(gs, names, now, v, m, k);
    }
    if v :| ProvideLink(Backfills(g3, now), v, m, k) {
      ServerKept(g2, names, now, v, k);
      assert Matches(gs, v, MCPServer, ConfigKey, k);
    }
  }

  lemma LinkCollapsed(g: Graph, v: nat, m: nat, k: string)
    requires Sound(g) && ProvideLink(g, v, m, k)
    ensures Sound(CollapseToolRefs(g)) && ProvideLink(CollapseToolRefs(g), v, m, k)
  {
    NotBoth(g, v, MCPServer, ToolRef);
    NotBoth(g, m, MCPTool, ToolRef);
    CollapseFacts(g);
  }

  lemma LinkCleaned(g: Graph, names: seq<string>, now: string, v: nat, m: nat, k: string)
    requires Sound(g) && AllHyphenated(names) && ProvideLink(g, v, m, k) && m in CleanAll(g, names, now).nodes
    ensures ProvideLink(CleanAll(g, names, now), v, m, k)
  {
    NotBoth(g, v, MCPServer, MCPTool);
    CleanAllLeaves(g, names, now, v);
    CleanAllKeepsEdge(g, names, now, Edge(v, Provides, m));
    CleanAllLabels(g, names, now, m);
  }

  lemma LinkKept(gs: Graph, names: seq<string>, now: string, v: nat, m: nat, k: string)
    requires Sound(gs) && AllHyphenated(names) && ProvideLink(gs, v, m, k)
    requires m in CleanAll(CollapseToolRefs(gs), names, now).nodes
    ensures ProvideLink(Backfills(CleanAll(CollapseToolRefs(gs), names, now), now), v, m, k)
  {
    LinkCollapsed(gs, v, m, k);
    LinkCleaned(CollapseToolRefs(gs), names, now, v, m, k);
    BackfillsKeep(CleanAll(CollapseToolRefs(gs), names, now), now);
  }

  lemma {:induction false} CleanAllLabels(g: Graph, names: seq<string>, now: string, x: nat)
    requires AllHyphenated(names)
    ensures x in CleanAll(g, names, now).nodes ==>
              x in g.nodes && CleanAll(g, names, now).nodes[x].labels == g.nodes[x].labels
    decreases |names|
  {
    if names != [] {
      CleanAllLabels(CleanOne(g, names[0], now), names[1..], now, x);
      CleanOneNodes(g, names[0], now);
    }
  }

  lemma ServerKept(g: Graph, names: seq<string>, now: string, v: nat, k: string)
    requires Sound(g) && AllHyphenated(names) && Matches(CleanAll(g, names, now), v, MCPServer, ConfigKey, k)
    ensures Matches(g, v, MCPServer, ConfigKey, k)
  {
    CleanAllLabels(g, names, now, v);
    NotBoth(g, v, MCPServer, MCPTool);
    CleanAllLeaves(g, names, now, v);
  }

  // --- A displaced tool ---

  function Plain(l: Label, k: Key, v: string): Node {
    Node({l}, map[k := v])
  }

  /** A legacy path to the tool a-b, beside a tool that already has the name a.b. */
  const CLASH := Graph(
    map[0 := Plain(LogSource, Name, "logs"), 1 := Node({DataSource}, map[ConfigKey := "s", Type := "mcp"]),
        2 := Plain(MCPSource, Name, "a-b"), 3 := Plain(MCPTool, Name, "a.b")],
    {Edge(0, QueryableVia, 1), Edge(1, FetchableVia, 2)}, 4)

  lemma ClashSound()
    ensures Sound(CLASH)
  {
  }

  lemma ClashPath()
    ensures LegacyPath(CLASH, 0, 1, 2, "s")
  {
    assert UniqueKey(CLASH, 1, "s");
  }

  lemma ClashNames()
    ensures Dotted("a-b") == "a.b" && Hyphenated("a-b") && !Hyphenated("a.b")
  {
    IndexOfIs("a-b", '-', 1);
    assert "a-b"[1] == '-' && "a.b"[1] == '.';
  }

  lemma ClashTools()
    ensures ToolIn(CLASH, 2) && Has(CLASH, 2, Name, "a-b") && Unsourced(CLASH.nodes[2])
    ensures ToolIn(CLASH, 3) && Has(CLASH, 3, Name, "a.b")
    ensures !Fetched(CLASH, 3) && forall v :: Edge(v, Provides, 3) !in CLASH.edges
  {
  }

  lemma ClashDisplaces()
    ensures Displaced(CLASH, 2) && !Displaced(CLASH, 3)
  {
    ClashNames();
    ClashTools();
  }

  /** However this graph is migrated, the legacy path is lost: its tool is gone, and nothing provides
      the tool that displaced it. */
  lemma DisplacedPathLost(g': Graph, c: Choices, now: string, v: nat)
    requires Migrates(CLASH, g', c, now)
    ensures LegacyPath(CLASH, 0, 1, 2, "s")
    ensures 2 !in g'.nodes && 3 in g'.nodes && Edge(v, Provides, 3) !in g'.edges
  {
    ClashSound();
    ClashPath();
    ClashTools();
    ClashDisplaces();
    ProvidedAfter(CLASH, g', c, now, 2, 3, v);
  }

  lemma ProvidedAfter(g: Graph, g': Graph, c: Choices, now: string, x: nat, h: nat, v: nat)
    requires Sound(g) && Migrates(g, g', c, now) && ToolIn(g, x) && ToolIn(g, h) && Displaced(g, x) && !Displaced(g, h)
    requires !Fetched(g, h) && Edge(v, Provides, h) !in g.edges
    ensures x !in g'.nodes && h in g'.nodes && Edge(v, Provides, h) !in g'.edges
  {
    ToolsMigrate(g, g', c, now, x);
    ToolsMigrate(g, g', c, now, h);
    assert !FetchedFor(g, g', v, h);
    if Edge(v, Provides, h) in g'.edges {
      ConflictCarriesOnlyFields(g, g', c, now, h, Edge(v, Provides, h));
    }
  }
}
