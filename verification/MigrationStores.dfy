/** The stores the migration makes for the DataSources: their addresses and types, that sources with
    different keys never share one, and which sources of data are stored in which
    (internal/graph/migrate.go). */
module MigrationStores {
  import opened PropertyGraph
  import opened Strings
  import opened Migration
  import opened MigrationPaths
  import opened MigrationTheorems

  // --- Addresses ---

  /** The address of the store of a source with key k, type t and index pattern p. */
  ghost predicate Address(u: string, k: string, t: string, p: string) {
    if t == "mcp" && p == "" then u == "fracta-mcp-gateway://" + k + "/"
    else if p != "" then u == t + "://" + k + "/" + p
    else u == t + "://" + k + "/"
  }

  lemma UriSpelled(r: Record)
    ensures Address(DeriveUri(r), r.configKey, r.dsType, r.indexPattern)
    ensures DeriveStoreType(r) == if r.dsType == "mcp" && r.indexPattern == "" then "fracta-mcp-gateway" else r.dsType
  {
  }

  /** An address is a scheme, the key and a rest. */
  lemma AddressParts(u: string, k: string, t: string, p: string)
    requires Address(u, k, t, p)
    ensures u == (if t == "mcp" && p == "" then "fracta-mcp-gateway" else t) + "://" + k + "/" + p
  {
    assert "fracta-mcp-gateway://" == "fracta-mcp-gateway" + "://";
    if t == "mcp" && p == "" {
      assert u == "fracta-mcp-gateway" + "://" + k + "/" + p;
    } else if p == "" {
      assert u == t + "://" + k + "/" + p;
    }
  }

  lemma PartsAgree(t: string, k: string, p: string, t': string, k': string, p': string)
    requires t + "://" + k + "/" + p == t' + "://" + k' + "/" + p'
    requires '/' !in t && '/' !in k && '/' !in t' && '/' !in k'
    ensures t == t' && k == k' && p == p'
  {
    var u := t + "://" + k + "/" + p;
    FirstSlash(u, t, "://" + k + "/" + p, t', "://" + k' + "/" + p') by {
      assert u == t + ("://" + k + "/" + p) && u == t' + ("://" + k' + "/" + p');
    }
    var v := k + "/" + p;
    assert u[|t| + 3..] == v && u[|t'| + 3..] == k' + "/" + p';
    SameHead(k, p, k', p');
  }

  /** The scheme ends one before the first slash. */
  lemma FirstSlash(u: string, t: string, x: string, t': string, x': string)
    requires u == t + x && u == t' + x' && '/' !in t && '/' !in t'
    requires |x| >= 3 && |x'| >= 3 && x[..3] == "://" && x'[..3] == "://"
    ensures t == t'
  {
    assert u[|t| + 1] == x[1] == '/' && u[|t'| + 1] == x'[1] == '/';
    IndexOfIs(u, '/', |t| + 1) by {
      assert u[..|t| + 1] == t + [x[0]];
    }
    IndexOfIs(u, '/', |t'| + 1) by {
      assert u[..|t'| + 1] == t' + [x'[0]];
    }
    assert t == u[..|t|] && t' == u[..|t'|];
  }

  lemma SameHead(k: string, p: string, k': string, p': string)
    requires k + "/" + p == k' + "/" + p' && '/' !in k && '/' !in k'
    ensures k == k' && p == p'
  {
    var u := k + "/" + p;
    assert u[|k|] == '/' && u[|k'|] == '/' && u[..|k|] == k && u[..|k'|] == k';
    IndexOfIs(u, '/', |k|);
    IndexOfIs(u, '/', |k'|);
    assert u[|k| + 1..] == p && u[|k'| + 1..] == p';
  }

  /** Sources whose types and keys have no slash share an address only if they agree in key, pattern and
      the type of their store. */
  lemma AddressesApart(u: string, k: string, t: string, p: string, k': string, t': string, p': string)
    requires Address(u, k, t, p) && Address(u, k', t', p')
    requires '/' !in k && '/' !in t && '/' !in k' && '/' !in t'
    ensures k == k' && p == p'
    ensures (if t == "mcp" && p == "" then "fracta-mcp-gateway" else t) ==
            (if t' == "mcp" && p' == "" then "fracta-mcp-gateway" else t')
  {
    AddressParts(u, k, t, p);
    AddressParts(u, k', t', p');
    assert '/' !in "fracta-mcp-gateway";
    PartsAgree(if t == "mcp" && p == "" then "fracta-mcp-gateway" else t, k, p,
               if t' == "mcp" && p' == "" then "fracta-mcp-gateway" else t', k', p');
  }

  // --- Every source gets its store ---

  /** x is the store of the DataSource d of g. */
  ghost predicate StoreOf(g: Graph, d: nat, g': Graph, x: nat) {
    && IsA(g, d, DataSource) && ToString(g.nodes[d], ConfigKey) != "" && IsA(g', x, DataStore)
    && Uri in g'.nodes[x].props
    && Address(g'.nodes[x].props[Uri], ToString(g.nodes[d], ConfigKey), ToString(g.nodes[d], Type),
               ToString(g.nodes[d], IndexPattern))
  }

  ghost predicate HasStore(g: Graph, u: string) {
    exists x :: Matches(g, x, DataStore, Uri, u)
  }

  lemma StoreStays(g: Graph, r: Record, now: string, u: string)
    requires Sound(g) && HasStore(g, u)
    ensures HasStore(SplitOne(g, r, now), u)
  {
    SplitOneKeeps(g, r, now);
    var x :| Matches(g, x, DataStore, Uri, u);
    KeptMatches(g, SplitOne(g, r, now), x, DataStore, Uri, u);
  }

  lemma StoreCreated(g: Graph, r: Record, now: string)
    requires Sound(g) && r.configKey != ""
    ensures HasStore(SplitOne(g, r, now), DeriveUri(r))
  {
    CreateNodesFacts(g, r, now);
    RewiringKeepsNodes(g, r, now);
    var x :| x in Matching(CreateNodes(g, r, now), DataStore, Uri, DeriveUri(r));
    assert Matches(SplitOne(g, r, now), x, DataStore, Uri, DeriveUri(r));
  }

  lemma {:induction false} StoresMade(g: Graph, rs: seq<Record>, now: string, i: nat)
    requires Sound(g) && i < |rs| && rs[i].configKey != ""
    ensures Sound(SplitAll(g, rs, now)) && HasStore(SplitAll(g, rs, now), DeriveUri(rs[i]))
    decreases |rs|
  {
    var g1 := SplitOne(g, rs[0], now);
    SplitOneKeeps(g, rs[0], now);
    if i == 0 {
      StoreCreated(g, rs[0], now);
      StoresStay(g1, rs[1..], now, DeriveUri(rs[0]));
    } else {
      StoresMade(g1, rs[1..], now, i - 1);
    }
  }

  lemma {:induction false} StoresStay(g: Graph, rs: seq<Record>, now: string, u: string)
    requires Sound(g) && HasStore(g, u)
    ensures Sound(SplitAll(g, rs, now)) && HasStore(SplitAll(g, rs, now), u)
    decreases |rs|
  {
    if rs != [] {
      SplitOneKeeps(g, rs[0], now);
      StoreStays(g, rs[0], now, u);
      StoresStay(SplitOne(g, rs[0], now), rs[1..], now, u);
    }
  }

  /** After the split every DataSource with a non-empty key has a store with its address. */
  lemma EverySourceHasItsStore(g: Graph, order: seq<nat>, now: string, d: nat) returns (x: nat)
    requires Sound(g) && Enumerates(order, Labelled(g, DataSource))
    requires IsA(g, d, DataSource) && ToString(g.nodes[d], ConfigKey) != ""
    ensures StoreOf(g, d, Split(g, order, now), x)
  {
    var rs := Records(g, order);
    assert d in order;
    var i :| 0 <= i < |order| && order[i] == d;
    StoresMade(g, rs, now, i);
    UriSpelled(rs[i]);
    x := StoreOutlives(SplitAll(g, rs, now), DeriveUri(rs[i]));
  }

  lemma StoreOutlives(g: Graph, u: string) returns (x: nat)
    requires Sound(g) && HasStore(g, u)
    ensures Matches(DetachDelete(g, Labelled(g, DataSource)), x, DataStore, Uri, u)
  {
    x :| Matches(g, x, DataStore, Uri, u);
    NotBoth(g, x, DataStore, DataSource);
  }

  // --- What is new about a new store ---

  /** Made by the migration from the DataSource record, with the type of the store. */
  ghost predicate MadeFrom(n: Node, r: Record) {
    && Uri in n.props && Address(n.props[Uri], r.configKey, r.dsType, r.indexPattern)
    && Type in n.props
    && n.props[Type] == (if r.dsType == "mcp" && r.indexPattern == "" then "fracta-mcp-gateway" else r.dsType)
    && Source in n.props && n.props[Source] == "migration:v1"
    && MigratedFrom in n.props && n.props[MigratedFrom] == "DataSource"
  }

  lemma MergedStore(g: Graph, r: Record, now: string, x: nat)
    requires x !in g.nodes && IsA(CreateNodes(g, r, now), x, DataStore)
    ensures MadeFrom(CreateNodes(g, r, now).nodes[x], r)
  {
    UriSpelled(r);
    var g1 := if r.dsType == "mcp" then Merge(g, MCPServer, ConfigKey, r.configKey, ServerProps(r, now), now) else g;
    assert IsA(g1, x, DataStore) ==> x in g.nodes;
  }

  lemma MadeFromKept(n: Node, n': Node, r: Record)
    requires MadeFrom(n, r) && SameNode(n, n')
    ensures MadeFrom(n', r)
  {
  }

  lemma {:induction false} NewStores(g: Graph, rs: seq<Record>, now: string, x: nat) returns (i: nat)
    requires Sound(g) && x !in g.nodes && IsA(SplitAll(g, rs, now), x, DataStore)
    ensures i < |rs| && rs[i].configKey != "" && MadeFrom(SplitAll(g, rs, now).nodes[x], rs[i])
    decreases |rs|
  {
    assert rs != [];
    var g1 := SplitOne(g, rs[0], now);
    SplitOneKeeps(g, rs[0], now);
    if x in g1.nodes {
      SplitAllKeeps(g1, rs[1..], now);
      assert SameNode(g1.nodes[x], SplitAll(g, rs, now).nodes[x]);
      RewiringKeepsNodes(g, rs[0], now) by { assert rs[0].configKey != ""; }
      MergedStore(g, rs[0], now, x);
      MadeFromKept(g1.nodes[x], SplitAll(g, rs, now).nodes[x], rs[0]);
      i := 0;
    } else {
      i := NewStores(g1, rs[1..], now, x);
      i := i + 1;
    }
  }

  /** Every store that the split adds is the store of a DataSource, with its type and its provenance. */
  lemma NewStoresAreOwn(g: Graph, order: seq<nat>, now: string, x: nat) returns (d: nat)
    requires Sound(g) && Enumerates(order, Labelled(g, DataSource))
    requires x !in g.nodes && IsA(Split(g, order, now), x, DataStore)
    ensures StoreOf(g, d, Split(g, order, now), x)
    ensures var n := Split(g, order, now).nodes[x];
            var t := ToString(g.nodes[d], Type);
            && Has(Split(g, order, now), x, Type,
                   if t == "mcp" && ToString(g.nodes[d], IndexPattern) == "" then "fracta-mcp-gateway" else t)
            && Has(Split(g, order, now), x, Source, "migration:v1")
            && Has(Split(g, order, now), x, MigratedFrom, "DataSource")
  {
    var rs := Records(g, order);
    var i := NewStores(g, rs, now, x);
    d := order[i];
    assert d in order;
  }

  // --- What is stored in which ---

  /** A DomainSource that could be queried via the DataSource d with key k. */
  ghost predicate QueryLink(g: Graph, l: nat, d: nat, k: string) {
    && IsA(g, l, DomainSource) && Matches(g, d, DataSource, ConfigKey, k)
    && Edge(l, QueryableVia, d) in g.edges
  }

  ghost predicate StoredLink(g: Graph, l: nat, u: string) {
    exists x :: Matches(g, x, DataStore, Uri, u) && Edge(l, StoredIn, x) in g.edges
  }

  lemma QueryLinkWaits(g: Graph, r: Record, now: string, l: nat, d: nat, k: string)
    requires Sound(g) && QueryLink(g, l, d, k) && r.configKey != k
    ensures QueryLink(SplitOne(g, r, now), l, d, k)
  {
    SplitOneKeeps(g, r, now);
  }

  lemma StoredLinkStays(g: Graph, r: Record, now: string, l: nat, u: string)
    requires Sound(g) && StoredLink(g, l, u)
    ensures StoredLink(SplitOne(g, r, now), l, u)
  {
    SplitOneKeeps(g, r, now);
    var x :| Matches(g, x, DataStore, Uri, u) && Edge(l, StoredIn, x) in g.edges;
    KeptMatches(g, SplitOne(g, r, now), x, DataStore, Uri, u);
  }

  lemma {:induction false} StoredLinkStaysAll(g: Graph, rs: seq<Record>, now: string, l: nat, u: string)
    requires Sound(g) && StoredLink(g, l, u)
    ensures Sound(SplitAll(g, rs, now)) && StoredLink(SplitAll(g, rs, now), l, u)
    decreases |rs|
  {
    if rs != [] {
      SplitOneKeeps(g, rs[0], now);
      StoredLinkStays(g, rs[0], now, l, u);
      StoredLinkStaysAll(SplitOne(g, rs[0], now), rs[1..], now, l, u);
    }
  }

  lemma QueryLinkSplits(g: Graph, r: Record, now: string, l: nat, d: nat)
    requires Sound(g) && QueryLink(g, l, d, r.configKey) && r.configKey != ""
    ensures StoredLink(SplitOne(g, r, now), l, DeriveUri(r))
  {
    var k, uri := r.configKey, DeriveUri(r);
    var g1 := CreateNodes(g, r, now);
    CreateNodesFacts(g, r, now);
    var x :| x in Matching(g1, DataStore, Uri, uri);
    var g2 := WireStore(g1, r);
    WireStoreFacts(g1, r);
    StoredRewired(g2, k, uri, l, d, x);
    RewireStoredFacts(g2, k, uri);
    var g3 := RewireStored(g2, k, uri);
    RewireProvidesFacts(g3, k);
    assert Edge(l, StoredIn, x) in RewireProvides(g3, k).edges;
  }

  lemma {:induction false} QueryLinkSplitsAll(g: Graph, rs: seq<Record>, now: string, l: nat, d: nat, r: Record)
    requires Sound(g) && QueryLink(g, l, d, r.configKey) && r.configKey != "" && r in rs
    requires forall i :: 0 <= i < |rs| && rs[i].configKey == r.configKey ==> rs[i] == r
    ensures Sound(SplitAll(g, rs, now)) && StoredLink(SplitAll(g, rs, now), l, DeriveUri(r))
    decreases |rs|
  {
    var g1 := SplitOne(g, rs[0], now);
    SplitOneKeeps(g, rs[0], now);
    if rs[0].configKey == r.configKey {
      QueryLinkSplits(g, r, now, l, d);
      StoredLinkStaysAll(g1, rs[1..], now, l, DeriveUri(r));
    } else {
      QueryLinkWaits(g, rs[0], now, l, d, r.configKey);
      QueryLinkSplitsAll(g1, rs[1..], now, l, d, r);
    }
  }

  lemma RewiredStored(g: Graph, k: string, uri: string, e: Edge) returns (d: nat)
    requires e in RewireStored(g, k, uri).edges && e !in g.edges
    ensures Edge(e.src, QueryableVia, d) in g.edges && StoredEdge(g, Edge(e.src, QueryableVia, d), k)
    ensures Matches(g, e.dst, DataStore, Uri, uri)
  {
    var w, x :| w in g.edges && StoredEdge(g, w, k) && x in Matching(g, DataStore, Uri, uri)
                && e == Edge(w.src, StoredIn, x);
    d := w.dst;
    assert w == Edge(e.src, QueryableVia, d);
  }

  /** Wiring a store to servers adds no edge to a DataSource. */
  lemma WiredElsewhere(g: Graph, r: Record, e: Edge)
    requires OneKind(g) && e in WireStore(g, r).edges && IsA(g, e.dst, DataSource)
    ensures e in g.edges
  {
    NotBoth(g, e.dst, DataSource, MCPServer);
  }

  /** A STORED_IN edge that a row adds comes from a QUERYABLE_VIA edge to a DataSource with its key. */
  lemma StoredOrigin(g: Graph, r: Record, now: string, e: Edge) returns (d: nat)
    requires Sound(g) && e in SplitOne(g, r, now).edges && e !in g.edges && e.typ == StoredIn
    ensures r.configKey != "" && QueryLink(g, e.src, d, r.configKey)
    ensures Matches(SplitOne(g, r, now), e.dst, DataStore, Uri, DeriveUri(r))
  {
    var k, uri := r.configKey, DeriveUri(r);
    var g1 := CreateNodes(g, r, now);
    CreateNodesFacts(g, r, now);
    var g2 := WireStore(g1, r);
    WireStoreFacts(g1, r);
    assert e in RewireStored(g2, k, uri).edges && e !in g2.edges;
    d := RewiredStored(g2, k, uri, e);
    WiredElsewhere(g1, r, Edge(e.src, QueryableVia, d));
    KeptMatches(g, g1, d, DataSource, ConfigKey, k);
    KeptMatches(g, g1, e.src, DomainSource, Name, "");
    RewiringKeepsNodes(g, r, now);
  }

  /** Edges to DataSources only go. */
  lemma QueryOrigin(g: Graph, r: Record, now: string, e: Edge)
    requires Sound(g) && e in SplitOne(g, r, now).edges && e.typ == QueryableVia && IsA(g, e.dst, DataSource)
    ensures e in g.edges
  {
    if r.configKey != "" {
      var g1 := CreateNodes(g, r, now);
      CreateNodesFacts(g, r, now);
      assert e in WireStore(g1, r).edges;
      KeptMatches(g, g1, e.dst, DataSource, Name, "");
      WiredElsewhere(g1, r, e);
    }
  }

  lemma {:induction false} StoredOriginAll(g: Graph, rs: seq<Record>, now: string, e: Edge) returns (d: nat, i: nat)
    requires Sound(g) && e in SplitAll(g, rs, now).edges && e !in g.edges && e.typ == StoredIn
    ensures i < |rs| && rs[i].configKey != "" && QueryLink(g, e.src, d, rs[i].configKey)
    ensures Matches(SplitAll(g, rs, now), e.dst, DataStore, Uri, DeriveUri(rs[i]))
    decreases |rs|
  {
    assert rs != [];
    var g1 := SplitOne(g, rs[0], now);
    SplitOneKeeps(g, rs[0], now);
    if e in g1.edges {
      d := StoredOrigin(g, rs[0], now, e);
      i := 0;
      SplitAllKeeps(g1, rs[1..], now);
      KeptMatches(g1, SplitAll(g, rs, now), e.dst, DataStore, Uri, DeriveUri(rs[0]));
    } else {
      d, i := StoredOriginAll(g1, rs[1..], now, e);
      i := i + 1;
      QueryLinkBefore(g, rs[0], now, e.src, d, rs[i].configKey);
    }
  }

  lemma QueryLinkBefore(g: Graph, r: Record, now: string, l: nat, d: nat, k: string)
    requires Sound(g) && QueryLink(SplitOne(g, r, now), l, d, k)
    ensures QueryLink(g, l, d, k)
  {
    var g1 := SplitOne(g, r, now);
    SplitOneKeeps(g, r, now);
    SourcesOnlyOld(g, r, now, d);
    KeptMatches(g, g1, d, DataSource, ConfigKey, k);
    QueryOrigin(g, r, now, Edge(l, QueryableVia, d));
    KeptMatches(g, g1, l, DomainSource, Name, "");
  }

  lemma SourcesOnlyOld(g: Graph, r: Record, now: string, d: nat)
    requires IsA(SplitOne(g, r, now), d, DataSource)
    ensures IsA(g, d, DataSource)
  {
    if r.configKey != "" {
      RewiringKeepsNodes(g, r, now);
    }
  }

  /** No two DataSources share a non-empty key. */
  ghost predicate KeysUnique(g: Graph) {
    forall d, d' ::
      (&& IsA(g, d, DataSource) && IsA(g, d', DataSource) && ToString(g.nodes[d], ConfigKey) != ""
       && ToString(g.nodes[d], ConfigKey) == ToString(g.nodes[d'], ConfigKey)) ==> d == d'
  }

  /** The DomainSource could be queried via d, whose store has the address u. */
  ghost predicate SourceAt(g: Graph, l: nat, d: nat, u: string) {
    && IsA(g, d, DataSource) && ToString(g.nodes[d], ConfigKey) != "" && Edge(l, QueryableVia, d) in g.edges
    && Address(u, ToString(g.nodes[d], ConfigKey), ToString(g.nodes[d], Type), ToString(g.nodes[d], IndexPattern))
  }

  lemma StoredForward(g: Graph, order: seq<nat>, now: string, l: nat, d: nat, u: string)
    requires Sound(g) && Enumerates(order, Labelled(g, DataSource)) && KeysUnique(g) && IsA(g, l, DomainSource)
    requires SourceAt(g, l, d, u)
    ensures StoredLink(Split(g, order, now), l, u)
  {
    var rs, r := Records(g, order), RecordOf(g.nodes[d]);
    UriSpelled(r);
    assert d in order;
    var i :| 0 <= i < |order| && order[i] == d;
    assert rs[i] == r;
    forall j | 0 <= j < |rs| && rs[j].configKey == r.configKey ensures rs[j] == r {
      assert order[j] in order;
    }
    QueryLinkSplitsAll(g, rs, now, l, d, r);
    var g1 := SplitAll(g, rs, now);
    StoredLinkOutlives(g, g1, rs, now, l, u);
  }

  lemma StoredLinkOutlives(g: Graph, g1: Graph, rs: seq<Record>, now: string, l: nat, u: string)
    requires Sound(g) && g1 == SplitAll(g, rs, now) && IsA(g, l, DomainSource) && StoredLink(g1, l, u)
    ensures StoredLink(DetachDelete(g1, Labelled(g1, DataSource)), l, u)
  {
    SplitAllKeeps(g, rs, now);
    var x :| Matches(g1, x, DataStore, Uri, u) && Edge(l, StoredIn, x) in g1.edges;
    NotBoth(g1, x, DataStore, DataSource);
    NotBoth(g1, l, DomainSource, DataSource);
    var g' := DetachDelete(g1, Labelled(g1, DataSource));
    assert Matches(g', x, DataStore, Uri, u) && Edge(l, StoredIn, x) in g'.edges;
  }

  lemma StoredBackward(g: Graph, order: seq<nat>, now: string, l: nat, u: string) returns (d: nat)
    requires Sound(g) && Enumerates(order, Labelled(g, DataSource)) && KeysUnique(g)
    requires !StoredLink(g, l, u) && StoredLink(Split(g, order, now), l, u)
    ensures SourceAt(g, l, d, u)
  {
    var rs := Records(g, order);
    var g1, g' := SplitAll(g, rs, now), Split(g, order, now);
    assert order != [];
    var x :| Matches(g', x, DataStore, Uri, u) && Edge(l, StoredIn, x) in g'.edges;
    var e := Edge(l, StoredIn, x);
    assert e in g1.edges && Matches(g1, x, DataStore, Uri, u);
    SplitAllKeeps(g, rs, now);
    assert e !in g.edges by {
      if e in g.edges {
        KeptMatches(g, g1, x, DataStore, Uri, u);
      }
    }
    var i;
    d, i := StoredOriginAll(g, rs, now, e);
    assert order[i] in order;
    assert d == order[i];
    UriSpelled(rs[i]);
  }

  /** With unique keys the split stores a DomainSource in exactly the stores of the DataSources it could be
      queried via. */
  lemma StoredInExactly(g: Graph, order: seq<nat>, now: string, l: nat, u: string)
    requires Sound(g) && Enumerates(order, Labelled(g, DataSource)) && KeysUnique(g) && IsA(g, l, DomainSource)
    requires !StoredLink(g, l, u)
    ensures StoredLink(Split(g, order, now), l, u) <==> exists d :: SourceAt(g, l, d, u)
  {
    if d :| SourceAt(g, l, d, u) {
      StoredForward(g, order, now, l, d, u);
    }
    if StoredLink(Split(g, order, now), l, u) {
      var d := StoredBackward(g, order, now, l, u);
    }
  }

  // --- Which server a store is queryable via ---

  /** The server key of a source: its own for a gateway source, else what comes before the first underscore,
      or all of the key when nothing does. */
  ghost predicate ServedBy(k: string, t: string, server: string) {
    if t == "mcp" then server == k
    else
      || ((k == "" || k[0] == '_' || '_' !in k) && server == k)
      || (server != "" && '_' !in server && exists rest :: k == server + "_" + rest)
  }

  lemma ServerKeySpelled(r: Record, server: string)
    ensures ServerKeyFor(r) == server <==> ServedBy(r.configKey, r.dsType, server)
  {
    var k := r.configKey;
    if r.dsType != "mcp" {
      var i := IndexOf(k, '_');
      if i > 0 {
        assert k == k[..i] + "_" + k[i + 1..];
        assert '_' !in k[..i];
      }
      if server != "" && '_' !in server {
        if rest :| k == server + "_" + rest {
          assert k[|server|] == '_' && k[..|server|] == server;
          IndexOfIs(k, '_', |server|);
        }
      }
    }
  }

  /** A store with the address u that is queryable via the server v. */
  ghost predicate Queryable(g: Graph, u: string, v: nat) {
    && IsA(g, v, MCPServer)
    && exists x :: Matches(g, x, DataStore, Uri, u) && Edge(x, QueryableVia, v) in g.edges
  }

  lemma RewiringKeepsQueryable(g: Graph, k: string, uri: string, x: nat, v: nat)
    requires Sound(g) && IsA(g, v, MCPServer) && Edge(x, QueryableVia, v) in g.edges
    ensures Edge(x, QueryableVia, v) in RewireProvides(RewireStored(g, k, uri), k).edges
  {
    NotBoth(g, v, MCPServer, DataSource);
    RewireStoredFacts(g, k, uri);
    RewireProvidesFacts(RewireStored(g, k, uri), k);
  }

  lemma WiredToServer(g: Graph, r: Record, now: string, v: nat, server: string)
    requires Sound(g) && r.configKey != "" && ServedBy(r.configKey, r.dsType, server)
    requires Matches(g, v, MCPServer, ConfigKey, server)
    ensures Queryable(SplitOne(g, r, now), DeriveUri(r), v)
  {
    ServerKeySpelled(r, server);
    var g1 := CreateNodes(g, r, now);
    CreateNodesFacts(g, r, now);
    KeptMatches(g, g1, v, MCPServer, ConfigKey, server);
    var x :| x in Matching(g1, DataStore, Uri, DeriveUri(r));
    WireStoreFacts(g1, r);
    RewiringKeepsQueryable(WireStore(g1, r), r.configKey, DeriveUri(r), x, v);
    RewiringKeepsNodes(g, r, now);
    assert Matches(SplitOne(g, r, now), x, DataStore, Uri, DeriveUri(r));
  }

  lemma QueryableStays(g: Graph, r: Record, now: string, u: string, v: nat)
    requires Sound(g) && Queryable(g, u, v)
    ensures Queryable(SplitOne(g, r, now), u, v)
  {
    var x :| Matches(g, x, DataStore, Uri, u) && Edge(x, QueryableVia, v) in g.edges;
    NotBoth(g, v, MCPServer, DataSource);
    SplitOneKeeps(g, r, now);
    KeptMatches(g, SplitOne(g, r, now), x, DataStore, Uri, u);
    KeptMatches(g, SplitOne(g, r, now), v, MCPServer, Name, "");
  }

  lemma {:induction false} QueryableAll(g: Graph, rs: seq<Record>, now: string, i: nat, v: nat, server: string)
    requires Sound(g) && i < |rs| && rs[i].configKey != "" && ServedBy(rs[i].configKey, rs[i].dsType, server)
    requires Matches(g, v, MCPServer, ConfigKey, server)
    ensures Sound(SplitAll(g, rs, now)) && Queryable(SplitAll(g, rs, now), DeriveUri(rs[i]), v)
    decreases |rs|
  {
    var g1 := SplitOne(g, rs[0], now);
    SplitOneKeeps(g, rs[0], now);
    if i == 0 {
      WiredToServer(g, rs[0], now, v, server);
      QueryableStaysAll(g1, rs[1..], now, DeriveUri(rs[0]), v);
    } else {
      KeptMatches(g, g1, v, MCPServer, ConfigKey, server);
      QueryableAll(g1, rs[1..], now, i - 1, v, server);
    }
  }

  lemma {:induction false} QueryableStaysAll(g: Graph, rs: seq<Record>, now: string, u: string, v: nat)
    requires Sound(g) && Queryable(g, u, v)
    ensures Sound(SplitAll(g, rs, now)) && Queryable(SplitAll(g, rs, now), u, v)
    decreases |rs|
  {
    if rs != [] {
      SplitOneKeeps(g, rs[0], now);
      QueryableStays(g, rs[0], now, u, v);
      QueryableStaysAll(SplitOne(g, rs[0], now), rs[1..], now, u, v);
    }
  }

  lemma QueryableOutlives(g: Graph, u: string, v: nat) returns (x: nat)
    requires Sound(g) && Queryable(g, u, v)
    ensures var g' := DetachDelete(g, Labelled(g, DataSource));
            Matches(g', x, DataStore, Uri, u) && Edge(x, QueryableVia, v) in g'.edges
  {
    x :| Matches(g, x, DataStore, Uri, u) && Edge(x, QueryableVia, v) in g.edges;
    NotBoth(g, x, DataStore, DataSource);
    NotBoth(g, v, MCPServer, DataSource);
  }

  /** After the split the store of a DataSource is queryable via every server that was there with its
      server key. */
  lemma StoresAreServed(g: Graph, order: seq<nat>, now: string, d: nat, v: nat, server: string) returns (x: nat)
    requires Sound(g) && Enumerates(order, Labelled(g, DataSource))
    requires IsA(g, d, DataSource) && ToString(g.nodes[d], ConfigKey) != ""
    requires ServedBy(ToString(g.nodes[d], ConfigKey), ToString(g.nodes[d], Type), server)
    requires Matches(g, v, MCPServer, ConfigKey, server)
    ensures StoreOf(g, d, Split(g, order, now), x) && Edge(x, QueryableVia, v) in Split(g, order, now).edges
  {
    var rs := Records(g, order);
    assert d in order;
    var i :| 0 <= i < |order| && order[i] == d;
    UriSpelled(rs[i]);
    QueryableAll(g, rs, now, i, v, server);
    x := QueryableOutlives(SplitAll(g, rs, now), DeriveUri(rs[i]), v);
  }
}
