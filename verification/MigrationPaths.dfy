/** Paths through the migration: what every step keeps, and how a legacy path is rewritten. */
module MigrationPaths {
  import opened PropertyGraph
  import opened Migration

  /** Labels that describe one kind of thing before and after the migration. */
  function Family(l: Label): Label {
    match l
    case MCPSource => MCPTool
    case LogSource => DomainSource
    case _ => l
  }

  /** Every node is of one kind. */
  ghost predicate OneKind(g: Graph) {
    forall x, a, b :: x in g.nodes && a in g.nodes[x].labels && b in g.nodes[x].labels ==> Family(a) == Family(b)
  }

  ghost predicate SameNode(n: Node, n': Node) {
    n'.labels == n.labels && forall k :: k != UpdatedAt ==>
        (k in n.props <==> k in n'.props) && (k in n.props ==> n.props[k] == n'.props[k])
  }

  /** No node is lost or changed, except for its update time. */
  ghost predicate NodesKept(g: Graph, g': Graph) {
    forall x :: x in g.nodes ==> x in g'.nodes && SameNode(g.nodes[x], g'.nodes[x])
  }

  /** An edge that the split of the DataSource with this key may consume. */
  predicate Touches(g: Graph, e: Edge, key: string) {
    || (e.typ == QueryableVia && Matches(g, e.dst, DataSource, ConfigKey, key))
    || (e.typ == FetchableVia && Matches(g, e.src, DataSource, ConfigKey, key))
  }

  ghost predicate EdgesKept(g: Graph, g': Graph, key: string) {
    forall e :: e in g.edges ==> e in g'.edges || Touches(g, e, key)
  }

  ghost predicate Sound(g: Graph) {
    WellFormed(g) && OneKind(g)
  }

  lemma MergeFacts(g: Graph, l: Label, k: Key, v: string, extra: map<Key, string>, now: string)
    requires Sound(g) && k != UpdatedAt
    ensures var g' := Merge(g, l, k, v, extra, now);
            Sound(g') && NodesKept(g, g') && g'.edges == g.edges && Matching(g', l, k, v) != {}
  {
    var g' := Merge(g, l, k, v, extra, now);
    if Matching(g, l, k, v) == {} {
      assert Matches(g', g.next, l, k, v);
      assert g.next in Matching(g', l, k, v);
    } else {
      var x :| x in Matching(g, l, k, v);
      assert Matches(g', x, l, k, v);
      assert x in Matching(g', l, k, v);
    }
  }

  lemma NodesKeptTrans(g: Graph, g1: Graph, g2: Graph)
    requires NodesKept(g, g1) && NodesKept(g1, g2)
    ensures NodesKept(g, g2)
  {
  }

  lemma KeptMatches(g: Graph, g': Graph, x: nat, l: Label, k: Key, v: string)
    requires NodesKept(g, g') && x in g.nodes && k != UpdatedAt
    ensures Matches(g', x, l, k, v) <==> Matches(g, x, l, k, v)
    ensures IsA(g', x, l) <==> IsA(g, x, l)
  {
  }

  lemma CreateNodesFacts(g: Graph, r: Record, now: string)
    requires Sound(g)
    ensures var g' := CreateNodes(g, r, now);
            && Sound(g') && NodesKept(g, g') && g'.edges == g.edges
            && Matching(g', DataStore, Uri, DeriveUri(r)) != {}
            && (r.dsType == "mcp" ==> Matching(g', MCPServer, ConfigKey, r.configKey) != {})
  {
    if r.dsType == "mcp" {
      var g1 := Merge(g, MCPServer, ConfigKey, r.configKey, ServerProps(r, now), now);
      MergeFacts(g, MCPServer, ConfigKey, r.configKey, ServerProps(r, now), now);
      MergeFacts(g1, DataStore, Uri, DeriveUri(r), StoreProps(r, now), now);
      var g2 := CreateNodes(g, r, now);
      NodesKeptTrans(g, g1, g2);
      var x :| x in Matching(g1, MCPServer, ConfigKey, r.configKey);
      KeptMatches(g1, g2, x, MCPServer, ConfigKey, r.configKey);
      assert x in Matching(g2, MCPServer, ConfigKey, r.configKey);
    } else {
      MergeFacts(g, DataStore, Uri, DeriveUri(r), StoreProps(r, now), now);
    }
  }

  lemma WireStoreFacts(g: Graph, r: Record)
    requires Sound(g)
    ensures var g' := WireStore(g, r); Sound(g') && g'.nodes == g.nodes && g.edges <= g'.edges
  {
  }

  lemma RewireStoredFacts(g: Graph, key: string, uri: string)
    requires Sound(g)
    ensures var g' := RewireStored(g, key, uri); Sound(g') && g'.nodes == g.nodes && EdgesKept(g, g', key)
  {
  }

  lemma RewireProvidesFacts(g: Graph, key: string)
    requires Sound(g)
    ensures var g' := RewireProvides(g, key); Sound(g') && g'.nodes == g.nodes && EdgesKept(g, g', key)
  {
  }

  lemma EdgesKeptTrans(g: Graph, g1: Graph, g2: Graph, key: string)
    requires WellFormed(g) && NodesKept(g, g1) && EdgesKept(g, g1, key) && EdgesKept(g1, g2, key)
    ensures EdgesKept(g, g2, key)
  {
    forall e | e in g.edges && e !in g2.edges && e in g1.edges
      ensures Touches(g, e, key)
    {
      assert Touches(g1, e, key);
      KeptMatches(g, g1, e.src, DataSource, ConfigKey, key);
      KeptMatches(g, g1, e.dst, DataSource, ConfigKey, key);
    }
  }

  /** One iteration of the split loop keeps every node, and every edge that does not run to or from
      a DataSource with the record's key. */
  lemma SplitOneKeeps(g: Graph, r: Record, now: string)
    requires Sound(g)
    ensures var g' := SplitOne(g, r, now); Sound(g') && NodesKept(g, g') && EdgesKept(g, g', r.configKey)
  {
    if r.configKey != "" {
      var g1 := CreateNodes(g, r, now);
      var g2 := WireStore(g1, r);
      var g3 := RewireStored(g2, r.configKey, DeriveUri(r));
      CreateNodesFacts(g, r, now);
      WireStoreFacts(g1, r);
      RewireStoredFacts(g2, r.configKey, DeriveUri(r));
      RewireProvidesFacts(g3, r.configKey);
      EdgesKeptTrans(g, g2, g3, r.configKey);
      EdgesKeptTrans(g, g3, SplitOne(g, r, now), r.configKey);
    }
  }

  /** DomainSource l, DataSource d of type mcp with key k, MCPTool m, linked as in the old ontology. */
  ghost predicate OldPath(g: Graph, l: nat, d: nat, m: nat, k: string) {
    && IsA(g, l, DomainSource) && Matches(g, d, DataSource, ConfigKey, k) && IsA(g, m, MCPTool)
    && Edge(l, QueryableVia, d) in g.edges && Edge(d, FetchableVia, m) in g.edges
  }

  /** The same two ends linked as in the new ontology, through a store and the server with key k. */
  ghost predicate NewPath(g: Graph, l: nat, store: nat, server: nat, m: nat, k: string) {
    && IsA(g, l, DomainSource) && IsA(g, store, DataStore)
    && Matches(g, server, MCPServer, ConfigKey, k) && IsA(g, m, MCPTool)
    && Edge(l, StoredIn, store) in g.edges
    && Edge(store, QueryableVia, server) in g.edges
    && Edge(server, Provides, m) in g.edges
  }

  lemma OldPathWaits(g: Graph, r: Record, now: string, l: nat, d: nat, m: nat, k: string)
    requires Sound(g) && OldPath(g, l, d, m, k) && r.configKey != k
    ensures OldPath(SplitOne(g, r, now), l, d, m, k)
  {
    SplitOneKeeps(g, r, now);
  }

  lemma NewPathStays(g: Graph, r: Record, now: string, l: nat, store: nat, server: nat, m: nat, k: string)
    requires Sound(g) && NewPath(g, l, store, server, m, k)
    ensures NewPath(SplitOne(g, r, now), l, store, server, m, k)
  {
    SplitOneKeeps(g, r, now);
    assert !IsA(g, server, DataSource) by {
      assert Family(MCPServer) != Family(DataSource);
    }
  }

  lemma NotBoth(g: Graph, x: nat, a: Label, b: Label)
    requires OneKind(g) && IsA(g, x, a) && Family(a) != Family(b)
    ensures !IsA(g, x, b)
  {
  }

  lemma WireLinks(g: Graph, r: Record, store: nat, server: nat)
    requires Matches(g, store, DataStore, Uri, DeriveUri(r)) && r.dsType == "mcp"
    requires Matches(g, server, MCPServer, ConfigKey, r.configKey)
    ensures Edge(store, QueryableVia, server) in WireStore(g, r).edges
  {
  }

  lemma StoredRewired(g: Graph, key: string, uri: string, l: nat, d: nat, store: nat)
    requires Edge(l, QueryableVia, d) in g.edges && StoredEdge(g, Edge(l, QueryableVia, d), key)
    requires Matches(g, store, DataStore, Uri, uri)
    ensures Edge(l, StoredIn, store) in RewireStored(g, key, uri).edges
  {
    assert store in Matching(g, DataStore, Uri, uri);
  }

  lemma ProvidesRewired(g: Graph, key: string, d: nat, m: nat, server: nat)
    requires Edge(d, FetchableVia, m) in g.edges && FetchEdge(g, Edge(d, FetchableVia, m), key)
    requires Matches(g, server, MCPServer, ConfigKey, key)
    ensures Edge(server, Provides, m) in RewireProvides(g, key).edges
  {
    assert server in Matching(g, MCPServer, ConfigKey, key);
  }

  /** Processing the gateway record of a DataSource turns its legacy paths into new ones. */
  lemma PathSplits(g: Graph, r: Record, now: string, l: nat, d: nat, m: nat)
    returns (store: nat, server: nat)
    requires Sound(g) && OldPath(g, l, d, m, r.configKey) && r.dsType == "mcp" && r.configKey != ""
    ensures NewPath(SplitOne(g, r, now), l, store, server, m, r.configKey)
  {
    var k, uri := r.configKey, DeriveUri(r);
    var g1 := CreateNodes(g, r, now);
    CreateNodesFacts(g, r, now);
    store :| store in Matching(g1, DataStore, Uri, uri);
    server :| server in Matching(g1, MCPServer, ConfigKey, k);
    var g2 := WireStore(g1, r);
    WireStoreFacts(g1, r);
    PathSplitsWired(g2, r, l, d, m, store, server) by {
      WireLinks(g1, r, store, server);
    }
  }

  lemma PathSplitsWired(g: Graph, r: Record, l: nat, d: nat, m: nat, store: nat, server: nat)
    requires Sound(g) && OldPath(g, l, d, m, r.configKey)
    requires Matches(g, store, DataStore, Uri, DeriveUri(r)) && Matches(g, server, MCPServer, ConfigKey, r.configKey)
    requires Edge(store, QueryableVia, server) in g.edges
    ensures var g' := RewireProvides(RewireStored(g, r.configKey, DeriveUri(r)), r.configKey);
            NewPath(g', l, store, server, m, r.configKey)
  {
    var k, uri := r.configKey, DeriveUri(r);
    NotBoth(g, server, MCPServer, DataSource);
    StoredRewired(g, k, uri, l, d, store);
    RewireStoredFacts(g, k, uri);
    var g3 := RewireStored(g, k, uri);
    ProvidesRewired(g3, k, d, m, server);
    RewireProvidesFacts(g3, k);
  }

  // --- The split loop and its final deletion ---

  /** Exactly one row of the query carries this key, and it is a gateway row. */
  ghost predicate OnlyGatewayRow(rs: seq<Record>, k: string) {
    && (exists i :: 0 <= i < |rs| && rs[i].configKey == k)
    && forall i :: 0 <= i < |rs| && rs[i].configKey == k ==> rs[i].dsType == "mcp"
  }

  lemma {:induction false} NewPathStaysAll(g: Graph, rs: seq<Record>, now: string, l: nat, store: nat, server: nat,
                                           m: nat, k: string)
    requires Sound(g) && NewPath(g, l, store, server, m, k)
    ensures Sound(SplitAll(g, rs, now)) && NewPath(SplitAll(g, rs, now), l, store, server, m, k)
    decreases |rs|
  {
    if rs != [] {
      SplitOneKeeps(g, rs[0], now);
      NewPathStays(g, rs[0], now, l, store, server, m, k);
      NewPathStaysAll(SplitOne(g, rs[0], now), rs[1..], now, l, store, server, m, k);
    }
  }

  lemma {:induction false} PathSplitsAll(g: Graph, rs: seq<Record>, now: string, l: nat, d: nat, m: nat, k: string)
    returns (store: nat, server: nat)
    requires Sound(g) && OldPath(g, l, d, m, k) && k != "" && OnlyGatewayRow(rs, k)
    ensures Sound(SplitAll(g, rs, now)) && NewPath(SplitAll(g, rs, now), l, store, server, m, k)
    decreases |rs|
  {
    var g1 := SplitOne(g, rs[0], now);
    SplitOneKeeps(g, rs[0], now);
    if rs[0].configKey == k {
      store, server := PathSplits(g, rs[0], now, l, d, m);
      NewPathStaysAll(g1, rs[1..], now, l, store, server, m, k);
    } else {
      OldPathWaits(g, rs[0], now, l, d, m, k);
      assert OnlyGatewayRow(rs[1..], k) by {
        var i :| 0 <= i < |rs| && rs[i].configKey == k;
        assert rs[1..][i - 1].configKey == k;
      }
      store, server := PathSplitsAll(g1, rs[1..], now, l, d, m, k);
    }
  }

  lemma DeleteFacts(g: Graph, gone: set<nat>)
    requires Sound(g)
    ensures Sound(DetachDelete(g, gone))
  {
  }

  lemma NewPathSurvivesDelete(g: Graph, gone: set<nat>, l: nat, store: nat, server: nat, m: nat, k: string)
    requires NewPath(g, l, store, server, m, k) && l !in gone && store !in gone && server !in gone && m !in gone
    ensures NewPath(DetachDelete(g, gone), l, store, server, m, k)
  {
  }

  /** No other DataSource shares the key of d. */
  ghost predicate UniqueKey(g: Graph, d: nat, k: string) {
    forall x :: Matches(g, x, DataSource, ConfigKey, k) ==> x == d
  }

  lemma RowsOfUniqueKey(g: Graph, order: seq<nat>, d: nat, k: string)
    requires Enumerates(order, Labelled(g, DataSource)) && UniqueKey(g, d, k) && k != ""
    requires Matches(g, d, DataSource, ConfigKey, k) && Has(g, d, Type, "mcp")
    ensures OnlyGatewayRow(Records(g, order), k)
  {
    var rs := Records(g, order);
    assert d in order;
    var j :| 0 <= j < |order| && order[j] == d;
    assert rs[j].configKey == k;
    forall i | 0 <= i < |rs| && rs[i].configKey == k ensures rs[i].dsType == "mcp" {
      var x := order[i];
      assert x in order;
      assert Matches(g, x, DataSource, ConfigKey, k);
    }
  }

  /** After the split, a legacy path through a gateway DataSource with a unique non-empty key is a
      path of the new ontology. */
  lemma SplitRewritesPath(g: Graph, order: seq<nat>, now: string, l: nat, d: nat, m: nat, k: string)
    returns (store: nat, server: nat)
    requires Sound(g) && Enumerates(order, Labelled(g, DataSource))
    requires OldPath(g, l, d, m, k) && k != "" && Has(g, d, Type, "mcp") && UniqueKey(g, d, k)
    ensures Sound(Split(g, order, now)) && NewPath(Split(g, order, now), l, store, server, m, k)
  {
    RowsOfUniqueKey(g, order, d, k);
    var rs := Records(g, order);
    store, server := PathSplitsAll(g, rs, now, l, d, m, k);
    var g1 := SplitAll(g, rs, now);
    NotBoth(g1, l, DomainSource, DataSource);
    NotBoth(g1, store, DataStore, DataSource);
    NotBoth(g1, server, MCPServer, DataSource);
    NotBoth(g1, m, MCPTool, DataSource);
    DeleteFacts(g1, Labelled(g1, DataSource));
    NewPathSurvivesDelete(g1, Labelled(g1, DataSource), l, store, server, m, k);
  }
}
