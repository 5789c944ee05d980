/** A labelled property graph and the Cypher statements the migration issues against it
    (internal/graph/migrate.go), one function per statement. */
module PropertyGraph {
  datatype Label =
    | LogSource | DataSource | MCPSource | ToolRef
    | DomainSource | DataStore | MCPServer | MCPTool
    | MCPField | Strategy | OtherLabel(name: string)

  datatype Key =
    | ConfigKey | Type | IndexPattern | Uri | Name
    | Source | UpdatedAt | MigratedFrom | OtherKey(name: string)

  datatype EdgeType =
    | QueryableVia | FetchableVia | StoredIn | Provides | UsesTool | ReturnsField | OtherEdge(name: string)

  /** An absent key is a null property. */
  datatype Node = Node(labels: set<Label>, props: map<Key, string>)

  datatype Edge = Edge(src: nat, typ: EdgeType, dst: nat)

  /** Parallel edges of one type between two nodes are one edge; `next` is the next node id. */
  datatype Graph = Graph(nodes: map<nat, Node>, edges: set<Edge>, next: nat)

  ghost predicate WellFormed(g: Graph) {
    && (forall x :: x in g.nodes ==> x < g.next)
    && (forall e :: e in g.edges ==> e.src in g.nodes && e.dst in g.nodes)
  }

  predicate IsA(g: Graph, x: nat, l: Label) {
    x in g.nodes && l in g.nodes[x].labels
  }

  predicate Has(g: Graph, x: nat, k: Key, v: string) {
    x in g.nodes && k in g.nodes[x].props && g.nodes[x].props[k] == v
  }

  /** `MATCH (x:l {k: v})` */
  predicate Matches(g: Graph, x: nat, l: Label, k: Key, v: string) {
    IsA(g, x, l) && Has(g, x, k, v)
  }

  function Labelled(g: Graph, l: Label): set<nat> {
    set x | x in g.nodes && l in g.nodes[x].labels
  }

  function Matching(g: Graph, l: Label, k: Key, v: string): set<nat> {
    set x | x in g.nodes && Matches(g, x, l, k, v)
  }

  /** A property read as a string, null reading as the empty string. */
  function ToString(n: Node, k: Key): string {
    if k in n.props then n.props[k] else ""
  }

  /** `MERGE (x:l {k: v}) ON CREATE SET extra ON MATCH SET x._updated_at = now` */
  function Merge(g: Graph, l: Label, k: Key, v: string, extra: map<Key, string>, now: string): Graph {
    var found := Matching(g, l, k, v);
    if found == {} then
      g.(nodes := g.nodes[g.next := Node({l}, extra[k := v])], next := g.next + 1)
    else
      g.(nodes := map x | x in g.nodes ::
                    if x in found then g.nodes[x].(props := g.nodes[x].props[UpdatedAt := now]) else g.nodes[x])
  }

  /** `MATCH (a), (b) MERGE (a)-[:t]->(b)` over every pair. */
  function Link(g: Graph, srcs: set<nat>, t: EdgeType, dsts: set<nat>): Graph {
    g.(edges := g.edges + set a, b | a in srcs && b in dsts :: Edge(a, t, b))
  }

  /** `MATCH (n:l) DETACH DELETE n`, for an arbitrary set of nodes. */
  function DetachDelete(g: Graph, gone: set<nat>): Graph {
    g.(nodes := g.nodes - gone, edges := set e | e in g.edges && e.src !in gone && e.dst !in gone)
  }
}
